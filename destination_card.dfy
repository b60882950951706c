/** One destination's card in src/components/DestinationCard.tsx: the
    activity and note forms, and the list updates it hands to its parent
    (add, toggle and remove an activity, add and remove a note). A handler
    returns the destination it passes to `onUpdateDestination`, or `None`
    when it does not call it. */
module DestinationCard {
  import opened Wrappers
  import opened Types
  import opened Text
  import opened Seqs
  import opened TripStats

  /** `{id: Date.now().toString(), name, completed: false}`; the hand-made
      activity has no category, which is the empty category here. */
  function ManualActivity(name: string, now: nat): (a: Activity)
    ensures a.id == NatToString(now) && a.name == name && !a.completed && a.category == ""
  {
    Activity(NatToString(now), name, None, None, None, "", false, None, None, None)
  }

  /** `{...activity, completed: !activity.completed}` for the activity
      with the given id. */
  function FlipMatching(acts: seq<Activity>, id: string): (r: seq<Activity>)
    ensures |r| == |acts|
    ensures forall k :: 0 <= k < |acts| ==> r[k] == acts[k].(completed := r[k].completed)
    ensures forall k :: 0 <= k < |acts| ==>
      r[k].completed == (if acts[k].id == id then !acts[k].completed else acts[k].completed)
  {
    seq(|acts|, k requires 0 <= k < |acts| =>
      if acts[k].id == id then acts[k].(completed := !acts[k].completed) else acts[k])
  }

  /** `toggleActivity`. */
  function ToggleActivity(d: Destination, id: string): (r: Destination)
    ensures r == d.(activities := FlipMatching(d.activities, id))
  {
    d.(activities := FlipMatching(d.activities, id))
  }

  /** Toggling the same activity twice gives the destination back, and a
      toggle changes nothing but completion flags. */
  lemma {:induction false} ToggleActivityTwice(d: Destination, id: string)
    ensures ToggleActivity(ToggleActivity(d, id), id) == d
  {
    var once := FlipMatching(d.activities, id);
    var twice := FlipMatching(once, id);
    assert |twice| == |d.activities|;
    forall k | 0 <= k < |twice| ensures twice[k] == d.activities[k] {
      assert once[k].id == d.activities[k].id;
    }
  }

  /** With one activity of the id, a toggle moves the completed count by
      exactly one, up or down as that activity was open or done. */
  lemma {:induction false} ToggleMovesCountByOne(acts: seq<Activity>, id: string, i: nat)
    requires i < |acts| && acts[i].id == id
    requires forall k :: 0 <= k < |acts| && k != i ==> acts[k].id != id
    ensures Count(FlipMatching(acts, id), IsDone) ==
      if acts[i].completed then Count(acts, IsDone) - 1 else Count(acts, IsDone) + 1
  {
    var r := FlipMatching(acts, id);
    if i == 0 {
      assert r[1..] == acts[1..];
    } else {
      assert r[1..] == FlipMatching(acts[1..], id);
      ToggleMovesCountByOne(acts[1..], id, i - 1);
    }
  }

  /** The test `activity => activity.id !== id`. */
  function OtherActivity(id: string): Activity -> bool
  {
    (a: Activity) => a.id != id
  }

  /** The test `note => note.id !== id`. */
  function OtherNote(id: string): Note -> bool
  {
    (n: Note) => n.id != id
  }

  /** `removeActivity`: every activity with the id goes, every other one
      stays with all its copies and in order, and nothing else of the
      destination changes. */
  function RemoveActivity(d: Destination, id: string): (r: Destination)
    ensures r == d.(activities := r.activities)
    ensures r.activities == Filter(d.activities, OtherActivity(id))
    ensures forall k :: 0 <= k < |r.activities| ==> r.activities[k].id != id
    ensures forall a :: multiset(r.activities)[a] == if a.id != id then multiset(d.activities)[a] else 0
    ensures IsSubsequence(r.activities, d.activities)
  {
    var acts := Filter(d.activities, OtherActivity(id));
    FilterIsSubsequence(d.activities, OtherActivity(id));
    forall a ensures multiset(acts)[a] == if a.id != id then multiset(d.activities)[a] else 0 {
      FilterMultiplicity(d.activities, OtherActivity(id), a);
    }
    d.(activities := acts)
  }

  /** `removeNote`, likewise for the notes. */
  function RemoveNote(d: Destination, id: string): (r: Destination)
    ensures r == d.(notes := r.notes)
    ensures r.notes == Filter(d.notes, OtherNote(id))
    ensures forall k :: 0 <= k < |r.notes| ==> r.notes[k].id != id
    ensures forall n :: multiset(r.notes)[n] == if n.id != id then multiset(d.notes)[n] else 0
    ensures IsSubsequence(r.notes, d.notes)
  {
    var notes := Filter(d.notes, OtherNote(id));
    FilterIsSubsequence(d.notes, OtherNote(id));
    forall n ensures multiset(notes)[n] == if n.id != id then multiset(d.notes)[n] else 0 {
      FilterMultiplicity(d.notes, OtherNote(id), n);
    }
    d.(notes := notes)
  }

  /** The "AI Generated" badge: generated but not finalized. */
  predicate ShowsAIBadge(d: Destination)
  {
    IsSet(d.aiItineraryGenerated) && !IsSet(d.itineraryFinalized)
  }

  /** The "Finalized" badge. */
  predicate ShowsFinalizedBadge(d: Destination)
  {
    IsSet(d.itineraryFinalized)
  }

  /** The two badges share a corner and are never shown together; an
      AI-generated destination shows exactly one of them. */
  lemma BadgesExclusive(d: Destination)
    ensures !(ShowsAIBadge(d) && ShowsFinalizedBadge(d))
    ensures IsSet(d.aiItineraryGenerated) ==> ShowsAIBadge(d) != ShowsFinalizedBadge(d)
  {
  }

  class CardState {
    var destination: Destination
    var newActivity: string
    var newNote: string
    var showActivityForm: bool
    var showNoteForm: bool
    var showAccommodations: bool

    /** The card of a destination, with empty, closed forms. */
    constructor (d: Destination)
      ensures destination == d && newActivity == "" && newNote == ""
      ensures !showActivityForm && !showNoteForm && !showAccommodations
    {
      destination := d;
      newActivity := "";
      newNote := "";
      showActivityForm := false;
      showNoteForm := false;
      showAccommodations := false;
    }

    /** `addActivity`: a blank name does nothing; otherwise the trimmed
        name is appended as an open activity and the form is reset and
        closed. */
    method AddActivity(now: nat) returns (update: Option<Destination>)
      modifies this`newActivity, this`showActivityForm
      ensures IsBlank(old(newActivity)) ==>
        update == None && newActivity == old(newActivity) && showActivityForm == old(showActivityForm)
      ensures !IsBlank(old(newActivity)) ==>
        && update == Some(destination.(activities := destination.activities + [ManualActivity(Trim(old(newActivity)), now)]))
        && newActivity == "" && !showActivityForm
    {
      if IsBlank(newActivity) {
        return None;
      }
      var activity := ManualActivity(Trim(newActivity), now);
      update := Some(destination.(activities := destination.activities + [activity]));
      newActivity := "";
      showActivityForm := false;
    }

    /** `addNote`: a blank note does nothing; otherwise the trimmed text
        is appended, stamped with the clock reading, and the form is reset
        and closed. */
    method AddNote(now: nat) returns (update: Option<Destination>)
      modifies this`newNote, this`showNoteForm
      ensures IsBlank(old(newNote)) ==>
        update == None && newNote == old(newNote) && showNoteForm == old(showNoteForm)
      ensures !IsBlank(old(newNote)) ==>
        && update == Some(destination.(notes := destination.notes + [Note(NatToString(now), Trim(old(newNote)), now)]))
        && newNote == "" && !showNoteForm
    {
      if IsBlank(newNote) {
        return None;
      }
      var note := Note(NatToString(now), Trim(newNote), now);
      update := Some(destination.(notes := destination.notes + [note]));
      newNote := "";
      showNoteForm := false;
    }
  }

  /** An added activity has a non-blank name with no space at either end,
      and it adds one open activity to the counts. */
  lemma AddedActivityIsClean(d: Destination, text: string, now: nat)
    requires !IsBlank(text)
    ensures var a := ManualActivity(Trim(text), now);
      && Trim(text) != "" && !IsSpace(a.name[0]) && !IsSpace(a.name[|a.name| - 1])
      && TotalActivities([d.(activities := d.activities + [a])]) == |d.activities| + 1
  {
  }
}
