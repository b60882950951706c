/** The summary card of one trip in src/components/TripCard.tsx: whether
    the trip is upcoming or completed, the colour of its status bar, its
    footer label, the pluralised counts and the destination initials. */
module TripCard {
  import opened Wrappers
  import opened Types
  import opened Text
  import opened Dates
  import opened TripStats

  /** `trip.startDate && new Date(trip.startDate) > new Date()`: a start
      date is set and lies after `now`. */
  predicate IsUpcoming(trip: Trip, parse: DateParser, now: int)
  {
    Truthy(trip.startDate) && parse(trip.startDate.value) > now
  }

  /** `progressPercentage === 100 && totalActivities > 0`: the trip has
      activities and every one of them is done. */
  predicate IsCompleted(trip: Trip)
  {
    Progress(trip.destinations) == 100.0 && TotalActivities(trip.destinations) > 0
  }

  lemma CompletedMeansAllDone(trip: Trip)
    ensures IsCompleted(trip) <==> TotalActivities(trip.destinations) > 0 && AllDone(trip.destinations)
  {
  }

  datatype StatusColor = GreenGradient | BlueGradient | GrayGradient

  /** `getStatusColor`: completed wins over upcoming. */
  function StatusColorOf(trip: Trip, parse: DateParser, now: int): (c: StatusColor)
    ensures c == GreenGradient <==> IsCompleted(trip)
    ensures c == BlueGradient <==> !IsCompleted(trip) && IsUpcoming(trip, parse, now)
  {
    if IsCompleted(trip) then GreenGradient
    else if IsUpcoming(trip, parse, now) then BlueGradient
    else GrayGradient
  }

  datatype FooterLabel = Upcoming | Completed | InProgress

  /** The footer label: upcoming wins over completed. */
  function FooterLabelOf(trip: Trip, parse: DateParser, now: int): (l: FooterLabel)
    ensures l == Upcoming <==> IsUpcoming(trip, parse, now)
    ensures l == Completed <==> !IsUpcoming(trip, parse, now) && IsCompleted(trip)
  {
    if IsUpcoming(trip, parse, now) then Upcoming
    else if IsCompleted(trip) then Completed
    else InProgress
  }

  /** The bar and the label rank the two states in opposite orders: a
      completed trip that has not started yet has a green bar and is
      labelled upcoming; otherwise the two agree. */
  lemma ColorAndLabelOrder(trip: Trip, parse: DateParser, now: int)
    ensures IsCompleted(trip) && IsUpcoming(trip, parse, now) ==>
      StatusColorOf(trip, parse, now) == GreenGradient && FooterLabelOf(trip, parse, now) == Upcoming
    ensures !(IsCompleted(trip) && IsUpcoming(trip, parse, now)) ==>
      (StatusColorOf(trip, parse, now) == GreenGradient <==> FooterLabelOf(trip, parse, now) == Completed)
      && (StatusColorOf(trip, parse, now) == BlueGradient <==> FooterLabelOf(trip, parse, now) == Upcoming)
  {
  }

  /** `${n} destination${n !== 1 ? 's' : ''}`. */
  function DestinationsLabel(n: nat): (s: string)
  {
    NatToString(n) + " destination" + (if n != 1 then "s" else "")
  }

  /** `activit${n !== 1 ? 'ies' : 'y'}`. */
  function ActivitiesWord(n: nat): (s: string)
  {
    "activit" + (if n != 1 then "ies" else "y")
  }

  /** Both labels are plural exactly when the count is not one. */
  lemma PluralIffNotOne(n: nat)
    ensures DestinationsLabel(n)[|DestinationsLabel(n)| - 1] == 's' <==> n != 1
    ensures ActivitiesWord(n)[|ActivitiesWord(n)| - 1] == 's' <==> n != 1
  {
  }

  /** `name.charAt(0).toUpperCase()`: empty for an empty name. */
  function Initial(name: string): (r: string)
    ensures |r| == (if name == "" then 0 else 1)
    ensures name != "" ==> r[0] == UpperChar(name[0])
  {
    if name == "" then "" else [UpperChar(name[0])]
  }

  /** The avatars of the first three destinations. */
  function Initials(dests: seq<Destination>): (r: seq<string>)
    ensures |r| == (if |dests| < 3 then |dests| else 3)
    ensures forall k :: 0 <= k < |r| ==> r[k] == Initial(dests[k].name)
  {
    var shown := if |dests| < 3 then dests else dests[..3];
    seq(|shown|, k requires 0 <= k < |shown| => Initial(shown[k].name))
  }

  /** The `+N` avatar, present only beyond three destinations. */
  function Overflow(dests: seq<Destination>): (r: Option<nat>)
    ensures r.Some? <==> |dests| > 3
  {
    if |dests| > 3 then Some(|dests| - 3) else None
  }

  /** Every destination is accounted for exactly once: by its avatar or in
      the `+N` count. */
  lemma AvatarsCoverDestinations(dests: seq<Destination>)
    ensures |Initials(dests)| + (match Overflow(dests) case Some(n) => n case None => 0) == |dests|
  {
  }
}
