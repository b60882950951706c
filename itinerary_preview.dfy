/** The review page of src/components/ItineraryPreview.tsx: the summary of
    a generated itinerary, the editable trip name, and the two actions
    (create the trip, regenerate). */
module ItineraryPreview {
  import opened Wrappers
  import opened Types
  import opened Text
  import opened Dates
  import opened App

  /** The trip name the field starts with: `${destination} Adventure`. */
  function DefaultTripName(destination: string): (name: string)
    ensures !IsBlank(name)
    ensures |name| == |destination| + 10 && name[..|destination|] == destination
  {
    var name := destination + " Adventure";
    assert name[|destination| + 1] == 'A';
    name
  }

  /** The summary cards: the day count (shown only when positive), the
      number of activities and accommodations, the travelers, and the
      budget (shown only when set). */
  datatype Summary = Summary(
    days: Option<int>, activities: nat, accommodations: nat, travelers: Option<int>, budget: Option<string>)

  function SummaryOf(itinerary: ItineraryResponse, preferences: ItineraryRequest, parse: DateParser): (s: Summary)
    ensures s.days.Some? <==> PlannedDays(preferences.arrivalDate, preferences.departureDate, parse) > 0
    ensures s.days.Some? ==> s.days.value == PlannedDays(preferences.arrivalDate, preferences.departureDate, parse)
    ensures s.activities == |itinerary.activities| && s.accommodations == |itinerary.accommodations|
    ensures s.travelers == preferences.travelers
    ensures s.budget.Some? <==> Truthy(preferences.budget)
  {
    var days := PlannedDays(preferences.arrivalDate, preferences.departureDate, parse);
    Summary(
      if days > 0 then Some(days) else None,
      |itinerary.activities|, |itinerary.accommodations|,
      preferences.travelers,
      if Truthy(preferences.budget) then preferences.budget else None)
  }

  /** The preview promises what the created trip holds: its one
      destination has as many activities and accommodations as the
      summary counts. */
  lemma SummaryMatchesCreatedTrip(
    tripName: string, itinerary: ItineraryResponse, preferences: ItineraryRequest, parse: DateParser, now: nat)
    ensures var t := TripFromItinerary(tripName, itinerary, preferences, now);
      var s := SummaryOf(itinerary, preferences, parse);
      && s.activities == |t.destinations[0].activities|
      && s.accommodations == |t.destinations[0].accommodations|
  {
    var t := TripFromItinerary(tripName, itinerary, preferences, now);
    assert t.destinations[0].accommodations == ItineraryConversion.ToAccommodations(itinerary.accommodations, now);
  }

  class PreviewState {
    var tripName: string

    /** `useState(`${destination} Adventure`)`. */
    constructor (destination: string)
      ensures tripName == DefaultTripName(destination)
    {
      tripName := DefaultTripName(destination);
    }

    /** The name field. */
    method SetTripName(name: string)
      modifies this
      ensures tripName == name
    {
      tripName := name;
    }

    /** The Create Trip button: disabled while the name is blank;
        otherwise it hands the name on as typed, untrimmed. */
    method CreateTrip() returns (created: Option<string>)
      ensures created.None? <==> IsBlank(tripName)
      ensures created.Some? ==> created.value == tripName
    {
      if IsBlank(tripName) {
        created := None;
      } else {
        created := Some(tripName);
      }
    }
  }
}
