/** The activity and destination statistics that TripDetails, TripCard and
    TripsList each compute from a list of destinations with `reduce` and
    `filter(...).length`. Percentages are exact rationals here; the
    rounding the components apply for display is not modelled. */
module TripStats {
  import opened Wrappers
  import opened Types
  import opened Seqs

  predicate IsDone(a: Activity)
  {
    a.completed
  }

  /** Every activity of every destination is completed. */
  predicate AllDone(dests: seq<Destination>)
  {
    forall i, j :: 0 <= i < |dests| && 0 <= j < |dests[i].activities| ==> dests[i].activities[j].completed
  }

  /** `destinations.reduce((sum, dest) => sum + dest.activities.length, 0)`. */
  function TotalActivities(dests: seq<Destination>): (n: nat)
    ensures n == 0 <==> forall i :: 0 <= i < |dests| ==> dests[i].activities == []
  {
    if dests == [] then 0 else |dests[0].activities| + TotalActivities(dests[1..])
  }

  /** The completed activities summed over the destinations; never more
      than the total, and equal to it exactly when every activity is done. */
  function CompletedActivities(dests: seq<Destination>): (n: nat)
    ensures n <= TotalActivities(dests)
    ensures n == TotalActivities(dests) <==> AllDone(dests)
  {
    if dests == [] then 0
    else
      var here := Count(dests[0].activities, IsDone);
      var rest := CompletedActivities(dests[1..]);
      assert AllDone(dests) <==> here == |dests[0].activities| && AllDone(dests[1..]) by {
        forall i | 0 < i < |dests| ensures dests[i] == dests[1..][i - 1] { }
      }
      here + rest
  }

  /** Adding a destination adds its activities to the total and its
      completed activities to the completed count. */
  lemma {:induction false} StatsAppend(dests: seq<Destination>, d: Destination)
    ensures TotalActivities(dests + [d]) == TotalActivities(dests) + |d.activities|
    ensures CompletedActivities(dests + [d]) == CompletedActivities(dests) + Count(d.activities, IsDone)
  {
    if dests == [] {
      assert dests + [d] == [d];
    } else {
      assert (dests + [d])[1..] == dests[1..] + [d];
      StatsAppend(dests[1..], d);
    }
  }

  /** Replacing one destination by another with the same activities leaves
      both counts as they were. */
  lemma {:induction false} StatsIgnoreOtherFields(dests: seq<Destination>, i: nat, d: Destination)
    requires i < |dests| && d.activities == dests[i].activities
    ensures TotalActivities(dests[i := d]) == TotalActivities(dests)
    ensures CompletedActivities(dests[i := d]) == CompletedActivities(dests)
  {
    if i > 0 {
      assert dests[i := d][1..] == dests[1..][i - 1 := d];
      StatsIgnoreOtherFields(dests[1..], i - 1, d);
    }
  }

  /** A part of a positive whole, as a percentage. */
  function Percent(part: nat, whole: nat): (r: real)
    requires 0 < whole && part <= whole
    ensures r * whole as real == 100.0 * part as real
    ensures 0.0 <= r <= 100.0
    ensures r == 100.0 <==> part == whole
  {
    var w := whole as real;
    var q := part as real / w;
    assert q * w == part as real;
    assert q <= 1.0 by {
      assert q * w <= 1.0 * w;
    }
    assert q == 1.0 <==> part == whole by {
      if q == 1.0 {
        assert part as real == 1.0 * w;
      }
    }
    q * 100.0
  }

  /** `completedActivities / totalActivities * 100`, or 0 without
      activities: a value from 0 to 100 that is 100 exactly when there are
      activities and all are done. */
  function Progress(dests: seq<Destination>): (r: real)
    ensures TotalActivities(dests) == 0 ==> r == 0.0
    ensures TotalActivities(dests) > 0 ==> r == Percent(CompletedActivities(dests), TotalActivities(dests))
    ensures 0.0 <= r <= 100.0
    ensures r == 100.0 <==> TotalActivities(dests) > 0 && AllDone(dests)
  {
    var total := TotalActivities(dests);
    var done := CompletedActivities(dests);
    if total > 0 then
      var r := Percent(done, total);
      assert r == 100.0 <==> AllDone(dests);
      r
    else 0.0
  }

  predicate IsAIGenerated(d: Destination)
  {
    IsSet(d.aiItineraryGenerated)
  }

  predicate IsFinalized(d: Destination)
  {
    IsSet(d.itineraryFinalized)
  }

  /** `destinations.filter(dest => dest.aiItineraryGenerated).length`. */
  function AIGeneratedCount(dests: seq<Destination>): (n: nat)
    ensures n == Count(dests, IsAIGenerated)
    ensures n <= |dests|
    ensures n == |dests| <==> forall i :: 0 <= i < |dests| ==> IsAIGenerated(dests[i])
  {
    Count(dests, IsAIGenerated)
  }

  /** `destinations.filter(dest => dest.itineraryFinalized).length`. */
  function FinalizedCount(dests: seq<Destination>): (n: nat)
    ensures n == Count(dests, IsFinalized)
    ensures n <= |dests|
    ensures n == 0 <==> forall i :: 0 <= i < |dests| ==> !IsFinalized(dests[i])
  {
    Count(dests, IsFinalized)
  }

  /** The AI-planning share, `aiGenerated / Math.max(length, 1) * 100`
      before rounding: 0 to 100, and 100 exactly for a non-empty list of
      AI-generated destinations. */
  function AIShare(dests: seq<Destination>): (r: real)
    ensures r == Percent(AIGeneratedCount(dests), if |dests| > 1 then |dests| else 1)
    ensures dests == [] ==> r == 0.0
    ensures 0.0 <= r <= 100.0
    ensures r == 100.0 <==> |dests| > 0 && forall i :: 0 <= i < |dests| ==> IsAIGenerated(dests[i])
  {
    var n := AIGeneratedCount(dests);
    var m := if |dests| > 1 then |dests| else 1;
    Percent(n, m)
  }
}
