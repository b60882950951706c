/** Turning a generated itinerary into a trip destination, as both
    src/App.tsx (creating a trip) and src/components/TripDetails.tsx
    (accepting or customising an itinerary) do: each item is spread into
    a stored record with an identifier derived from the clock reading and
    its index, and activities start not completed. */
module ItineraryConversion {
  import opened Wrappers
  import opened Types
  import opened Text

  /** `${Date.now()}-${index}`. */
  function ActivityId(now: nat, index: nat): string
  {
    NatToString(now) + "-" + NatToString(index)
  }

  /** `${Date.now()}-acc-${index}`. */
  function AccommodationId(now: nat, index: nat): string
  {
    NatToString(now) + "-acc-" + NatToString(index)
  }

  /** Equal texts with equal prefixes have equal rests. */
  lemma SamePrefixSameRest(p: string, a: string, b: string)
    requires p + a == p + b
    ensures a == b
  {
    assert a == (p + a)[|p|..];
    assert b == (p + b)[|p|..];
  }

  /** Activities of one conversion get distinct identifiers. */
  lemma ActivityIdsDistinct(now: nat, i: nat, j: nat)
    requires i != j
    ensures ActivityId(now, i) != ActivityId(now, j)
  {
    NatToStringInjective(i, j);
    if ActivityId(now, i) == ActivityId(now, j) {
      SamePrefixSameRest(NatToString(now) + "-", NatToString(i), NatToString(j));
    }
  }

  /** The properties of a stored activity that a generated one has
      (`Omit<Activity, 'id' | 'completed'>`). */
  function Describe(a: Activity): ItineraryActivity
  {
    ItineraryActivity(a.name, a.description, a.time, a.duration, a.category, a.cost, a.location, a.aiGenerated)
  }

  /** The properties of a stored accommodation that a generated one has
      (`Omit<Accommodation, 'id'>`). */
  function DescribeAccommodation(a: Accommodation): ItineraryAccommodation
  {
    ItineraryAccommodation(a.name, a.kind, a.priceRange, a.rating, a.description, a.aiGenerated)
  }

  /** `{...activity, id, completed: false}`. */
  function ToActivity(a: ItineraryActivity, id: string): (r: Activity)
    ensures Describe(r) == a && r.id == id && !r.completed
  {
    Activity(id, a.name, a.description, a.time, a.duration, a.category, false, a.cost, a.location, a.aiGenerated)
  }

  /** `{...accommodation, id}`. */
  function ToAccommodation(a: ItineraryAccommodation, id: string): (r: Accommodation)
    ensures DescribeAccommodation(r) == a && r.id == id
  {
    Accommodation(id, a.name, a.kind, a.priceRange, a.rating, a.description, a.aiGenerated)
  }

  /** `activities.map((activity, index) => ...)`: same length and order,
      every generated property kept, nothing completed. */
  function ToActivities(s: seq<ItineraryActivity>, now: nat): (r: seq<Activity>)
    ensures |r| == |s|
    ensures forall k :: 0 <= k < |s| ==>
      Describe(r[k]) == s[k] && r[k].id == ActivityId(now, k) && !r[k].completed
  {
    seq(|s|, k requires 0 <= k < |s| => ToActivity(s[k], ActivityId(now, k)))
  }

  /** `accommodations.map((accommodation, index) => ...)`: same length and
      order, every generated property kept. */
  function ToAccommodations(s: seq<ItineraryAccommodation>, now: nat): (r: seq<Accommodation>)
    ensures |r| == |s|
    ensures forall k :: 0 <= k < |s| ==>
      DescribeAccommodation(r[k]) == s[k] && r[k].id == AccommodationId(now, k)
  {
    seq(|s|, k requires 0 <= k < |s| => ToAccommodation(s[k], AccommodationId(now, k)))
  }

  /** The destination built from an itinerary: the overview becomes its
      description, it has no notes, it is marked AI-generated, and
      `finalized` decides `itineraryFinalized`. */
  function FromItinerary(
    name: string, itinerary: ItineraryResponse,
    arrival: Option<string>, departure: Option<string>,
    now: nat, finalized: bool): (d: Destination)
    ensures d.id == NatToString(now) && d.name == name && d.description == itinerary.overview
    ensures d.arrivalDate == arrival && d.departureDate == departure
    ensures |d.activities| == |itinerary.activities|
    ensures forall k :: 0 <= k < |d.activities| ==>
      Describe(d.activities[k]) == itinerary.activities[k] && !d.activities[k].completed
    ensures |d.accommodations| == |itinerary.accommodations|
    ensures forall k :: 0 <= k < |d.accommodations| ==>
      DescribeAccommodation(d.accommodations[k]) == itinerary.accommodations[k]
    ensures d.notes == []
    ensures IsSet(d.aiItineraryGenerated) && d.itineraryFinalized == Some(finalized)
  {
    Destination(
      NatToString(now), name, itinerary.overview,
      ToActivities(itinerary.activities, now), [],
      ToAccommodations(itinerary.accommodations, now),
      arrival, departure, Some(true), Some(finalized))
  }

  /** Describing the converted activities gives the itinerary's list back. */
  lemma {:induction false} DescribeToActivities(s: seq<ItineraryActivity>, now: nat)
    ensures seq(|s|, k requires 0 <= k < |s| => Describe(ToActivities(s, now)[k])) == s
  {
    var r := ToActivities(s, now);
    var back := seq(|s|, k requires 0 <= k < |s| => Describe(r[k]));
    forall k | 0 <= k < |s| ensures back[k] == s[k] {
      assert Describe(r[k]) == s[k];
    }
  }
}
