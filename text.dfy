/** The few JavaScript string operations the application relies on:
    `String.prototype.trim`, `toLowerCase`/`toUpperCase` (on ASCII letters),
    `includes`, `Array.prototype.join` and `Number.prototype.toString` for
    non-negative integers. */
module Text {

  /** The characters `String.prototype.trim` removes: white space and line
      terminators as ECMAScript defines them. */
  predicate IsSpace(c: char)
  {
    c == ' ' || c == '\t' || c == '\n' || c == '\r' || c == '\U{000B}' || c == '\U{000C}'
    || c == '\U{00A0}' || c == '\U{1680}' || ('\U{2000}' <= c <= '\U{200A}')
    || c == '\U{2028}' || c == '\U{2029}' || c == '\U{202F}' || c == '\U{205F}'
    || c == '\U{3000}' || c == '\U{FEFF}'
  }

  /** Every character of `s` is white space (JavaScript: `!s.trim()`). */
  predicate IsBlank(s: string)
  {
    forall k :: 0 <= k < |s| ==> IsSpace(s[k])
  }

  /** `s` with its leading white space removed. */
  function TrimStart(s: string): (r: string)
    ensures |r| <= |s| && r == s[|s| - |r|..]
    ensures forall k :: 0 <= k < |s| - |r| ==> IsSpace(s[k])
    ensures r != [] ==> !IsSpace(r[0])
  {
    if s != [] && IsSpace(s[0]) then TrimStart(s[1..]) else s
  }

  /** `s` with its trailing white space removed. */
  function TrimEnd(s: string): (r: string)
    ensures |r| <= |s| && r == s[..|r|]
    ensures forall k :: |r| <= k < |s| ==> IsSpace(s[k])
    ensures r != [] ==> !IsSpace(r[|r| - 1])
  {
    if s != [] && IsSpace(s[|s| - 1]) then TrimEnd(s[..|s| - 1]) else s
  }

  /** How many leading white-space characters `trim` drops from `s`. */
  function TrimOffset(s: string): (n: nat)
    ensures n <= |s|
    ensures forall k :: 0 <= k < n ==> IsSpace(s[k])
  {
    |s| - |TrimStart(s)|
  }

  /** `String.prototype.trim`: the slice of `s` left after removing white
      space at both ends; nothing is left exactly when `s` is blank. */
  function Trim(s: string): (r: string)
    ensures TrimOffset(s) + |r| <= |s| && r == s[TrimOffset(s)..TrimOffset(s) + |r|]
    ensures forall k :: TrimOffset(s) + |r| <= k < |s| ==> IsSpace(s[k])
    ensures r != [] ==> !IsSpace(r[0]) && !IsSpace(r[|r| - 1])
    ensures r == "" <==> IsBlank(s)
  {
    var a := TrimStart(s);
    var b := TrimEnd(a);
    TrimSlice(s, a, b);
    b
  }

  /** The facts behind `Trim`'s contract, from the contracts of its two
      steps: `a` is `s` without leading space, `b` is `a` without trailing
      space. */
  lemma TrimSlice(s: string, a: string, b: string)
    requires |a| <= |s| && a == s[|s| - |a|..]
    requires forall k :: 0 <= k < |s| - |a| ==> IsSpace(s[k])
    requires a != [] ==> !IsSpace(a[0])
    requires |b| <= |a| && b == a[..|b|]
    requires forall k :: |b| <= k < |a| ==> IsSpace(a[k])
    requires b != [] ==> !IsSpace(b[|b| - 1])
    ensures |s| - |a| + |b| <= |s| && b == s[|s| - |a|..|s| - |a| + |b|]
    ensures forall k :: |s| - |a| + |b| <= k < |s| ==> IsSpace(s[k])
    ensures b != [] ==> !IsSpace(b[0]) && !IsSpace(b[|b| - 1])
    ensures b == "" <==> IsBlank(s)
  {
    var i := |s| - |a|;
    assert b != [] ==> b[0] == a[0];
    forall k | i + |b| <= k < |s|
      ensures IsSpace(s[k])
    {
      assert s[k] == a[k - i];
    }
    if a != [] {
      assert a[0] == s[i];
    }
  }

  /** Trimming is idempotent. */
  lemma TrimIdempotent(s: string)
    ensures Trim(Trim(s)) == Trim(s)
  {
    var t := Trim(s);
    if t != [] {
      assert TrimStart(t) == t;
      assert TrimEnd(t) == t;
    }
  }

  /** `toLowerCase` on one character; only ASCII letters are mapped. */
  function LowerChar(c: char): (r: char)
    ensures 'A' <= c <= 'Z' ==> r != c && 'a' <= r <= 'z'
    ensures !('A' <= c <= 'Z') ==> r == c
  {
    if 'A' <= c <= 'Z' then (c as int - 'A' as int + 'a' as int) as char else c
  }

  /** `toUpperCase` on one character; only ASCII letters are mapped. */
  function UpperChar(c: char): (r: char)
    ensures 'a' <= c <= 'z' ==> 'A' <= r <= 'Z' && LowerChar(r) == c
    ensures !('a' <= c <= 'z') ==> r == c
  {
    if 'a' <= c <= 'z' then (c as int - 'a' as int + 'A' as int) as char else c
  }

  /** `toLowerCase` on a string: same length, each character lowered. */
  function Lower(s: string): (r: string)
    ensures |r| == |s|
    ensures forall k :: 0 <= k < |s| ==> r[k] == LowerChar(s[k])
  {
    if s == [] then [] else [LowerChar(s[0])] + Lower(s[1..])
  }

  /** `needle` occurs in `hay` starting at position `i`. */
  predicate OccursAt(hay: string, needle: string, i: nat)
  {
    i + |needle| <= |hay| && hay[i..i + |needle|] == needle
  }

  /** `String.prototype.includes`. */
  function Includes(hay: string, needle: string): (b: bool)
    ensures b <==> exists i :: 0 <= i <= |hay| && OccursAt(hay, needle, i)
  {
    if needle <= hay then
      assert OccursAt(hay, needle, 0);
      true
    else if hay == [] then false
    else
      var rest := Includes(hay[1..], needle);
      assert forall i :: 1 <= i <= |hay| && OccursAt(hay, needle, i) ==> OccursAt(hay[1..], needle, i - 1);
      assert forall i :: 0 <= i <= |hay| - 1 && OccursAt(hay[1..], needle, i) ==> OccursAt(hay, needle, i + 1);
      rest
  }

  /** A text that lacks one of the needle's characters does not include
      the needle. */
  lemma IncludesNeedsChar(hay: string, needle: string, c: char)
    requires c in needle && c !in hay
    ensures !Includes(hay, needle)
  {
  }

  /** `Array.prototype.join(sep)`. */
  function Join(xs: seq<string>, sep: string): string
  {
    if |xs| == 0 then ""
    else if |xs| == 1 then xs[0]
    else xs[0] + sep + Join(xs[1..], sep)
  }

  /** With a non-empty separator, a join is empty exactly for the empty
      list and for a list holding one empty string. */
  lemma {:induction false} JoinEmptyIff(xs: seq<string>, sep: string)
    requires sep != ""
    ensures Join(xs, sep) == "" <==> |xs| == 0 || (|xs| == 1 && xs[0] == "")
  {
    if |xs| > 1 {
      assert |xs[0] + sep + Join(xs[1..], sep)| >= |sep| > 0;
    }
  }

  /** The decimal digit for `d`. */
  function Digit(d: nat): (c: char)
    requires d < 10
    ensures '0' <= c <= '9' && c as int - '0' as int == d
  {
    ('0' as int + d) as char
  }

  /** `Number.prototype.toString()` on a non-negative integer. */
  function NatToString(n: nat): (s: string)
    ensures |s| >= 1
    ensures forall k :: 0 <= k < |s| ==> '0' <= s[k] <= '9'
    ensures (n < 10) <==> (|s| == 1)
  {
    if n < 10 then [Digit(n)] else NatToString(n / 10) + [Digit(n % 10)]
  }

  /** Different numbers print differently, so identifiers built from
      indices are distinct. */
  lemma {:induction false} NatToStringInjective(m: nat, n: nat)
    requires m != n
    ensures NatToString(m) != NatToString(n)
  {
    if NatToString(m) == NatToString(n) {
      var s := NatToString(m);
      if m < 10 {
        assert false;
      } else {
        assert n >= 10;
        assert Digit(m % 10) == s[|s| - 1] == Digit(n % 10);
        assert NatToString(m / 10) == s[..|s| - 1] == NatToString(n / 10);
        NatToStringInjective(m / 10, n / 10);
        assert false;
      }
    }
  }
}
