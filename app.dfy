/** The application shell of src/App.tsx: the list of trips, the selected
    trip, the current view, the itinerary awaiting review with the
    preferences that produced it, and the generation flag. Each handler
    updates these six pieces of state. */
module App {
  import opened Wrappers
  import opened Types
  import opened Text
  import opened AIService
  import opened ItineraryConversion
  import opened Seqs

  datatype View = SearchView | ItineraryView | TripsView | TripDetailsView

  /** What `renderCurrentView` shows. */
  datatype Screen = SearchScreen | ItineraryScreen | TripsScreen | TripDetailsScreen | Nothing

  function TripKey(t: Trip): string
  {
    t.id
  }

  /** The trip `handleCreateTripFromItinerary` creates: one destination,
      built from the itinerary and finalized, dated like the request. */
  function TripFromItinerary(
    tripName: string, itinerary: ItineraryResponse, preferences: ItineraryRequest, now: nat): (t: Trip)
    ensures t.id == NatToString(now) && t.name == tripName
    ensures t.description == Some("AI-generated trip to " + preferences.destination)
    ensures t.startDate == preferences.arrivalDate && t.endDate == preferences.departureDate
    ensures t.destinations == [FromItinerary(
      preferences.destination, itinerary, preferences.arrivalDate, preferences.departureDate, now, true)]
    ensures t.destinations[0].name == preferences.destination
    ensures IsSet(t.destinations[0].aiItineraryGenerated) && IsSet(t.destinations[0].itineraryFinalized)
    ensures |t.destinations[0].activities| == |itinerary.activities|
    ensures forall k :: 0 <= k < |t.destinations[0].activities| ==> !t.destinations[0].activities[k].completed
  {
    var destination := FromItinerary(
      preferences.destination, itinerary, preferences.arrivalDate, preferences.departureDate, now, true);
    Trip(NatToString(now), tripName, Some("AI-generated trip to " + preferences.destination),
      [destination], preferences.arrivalDate, preferences.departureDate, None, None, None)
  }

  class AppState {
    var trips: seq<Trip>
    var selectedTrip: Option<Trip>
    var currentView: View
    var generatedItinerary: Option<ItineraryResponse>
    var currentPreferences: Option<ItineraryRequest>
    var isGenerating: bool

    /** The initial state: no trips, the search view. */
    constructor ()
      ensures trips == [] && selectedTrip == None && currentView == SearchView
      ensures generatedItinerary == None && currentPreferences == None && !isGenerating
    {
      trips := [];
      selectedTrip := None;
      currentView := SearchView;
      generatedItinerary := None;
      currentPreferences := None;
      isGenerating := false;
    }

    /** `handleGenerateItinerary`: the service never fails, so the
        itinerary and the preferences are stored and the view switches to
        the itinerary; the flag is down again afterwards. */
    method HandleGenerateItinerary(destination: string, preferences: ItineraryRequest, backend: Backend)
      modifies this
      ensures generatedItinerary == Some(GenerateItinerary(backend, preferences))
      ensures currentPreferences == Some(preferences)
      ensures currentView == ItineraryView && !isGenerating
      ensures trips == old(trips) && selectedTrip == old(selectedTrip)
    {
      isGenerating := true;
      currentPreferences := Some(preferences);
      var response := GenerateItinerary(backend, preferences);
      generatedItinerary := Some(response);
      currentView := ItineraryView;
      isGenerating := false;
    }

    /** `handleCreateTripFromItinerary`: nothing happens unless both an
        itinerary and its preferences are present; otherwise one trip is
        appended and selected, the view switches to its details, and the
        itinerary and preferences are cleared. */
    method HandleCreateTripFromItinerary(tripName: string, now: nat)
      modifies this
      ensures old(generatedItinerary).None? || old(currentPreferences).None? ==>
        trips == old(trips) && selectedTrip == old(selectedTrip) && currentView == old(currentView)
        && generatedItinerary == old(generatedItinerary) && currentPreferences == old(currentPreferences)
      ensures old(generatedItinerary).Some? && old(currentPreferences).Some? ==>
        var created := TripFromItinerary(tripName, old(generatedItinerary).value, old(currentPreferences).value, now);
        && trips == old(trips) + [created]
        && selectedTrip == Some(created)
        && currentView == TripDetailsView
        && generatedItinerary == None && currentPreferences == None
      ensures isGenerating == old(isGenerating)
    {
      if generatedItinerary.None? || currentPreferences.None? {
        return;
      }
      var created := TripFromItinerary(tripName, generatedItinerary.value, currentPreferences.value, now);
      trips := trips + [created];
      selectedTrip := Some(created);
      currentView := TripDetailsView;
      generatedItinerary := None;
      currentPreferences := None;
    }

    /** `addTrip`: appends the trip under a fresh id, leaving the others. */
    method AddTrip(tripData: Trip, now: nat)
      modifies this`trips
      ensures trips == old(trips) + [tripData.(id := NatToString(now))]
    {
      trips := trips + [tripData.(id := NatToString(now))];
    }

    /** `updateTrip`: replaces the trips with the same id and selects the
        updated trip. */
    method UpdateTrip(updated: Trip)
      modifies this`trips, this`selectedTrip
      ensures trips == ReplaceByKey(old(trips), updated, TripKey)
      ensures selectedTrip == Some(updated)
    {
      trips := ReplaceByKey(trips, updated, TripKey);
      selectedTrip := Some(updated);
    }

    /** `selectTrip`. */
    method SelectTrip(trip: Trip)
      modifies this`selectedTrip, this`currentView
      ensures selectedTrip == Some(trip) && currentView == TripDetailsView
    {
      selectedTrip := Some(trip);
      currentView := TripDetailsView;
    }

    /** `goBackToTrips`. */
    method GoBackToTrips()
      modifies this`selectedTrip, this`currentView
      ensures selectedTrip == None && currentView == TripsView
    {
      selectedTrip := None;
      currentView := TripsView;
    }

    /** `goBackToSearch`: clears the itinerary, the preferences and the
        selection. */
    method GoBackToSearch()
      modifies this`currentView, this`generatedItinerary, this`currentPreferences, this`selectedTrip
      ensures currentView == SearchView
      ensures generatedItinerary == None && currentPreferences == None && selectedTrip == None
    {
      currentView := SearchView;
      generatedItinerary := None;
      currentPreferences := None;
      selectedTrip := None;
    }

    /** `goToTrips`: clears the itinerary and the preferences but keeps
        the selection. */
    method GoToTrips()
      modifies this`currentView, this`generatedItinerary, this`currentPreferences
      ensures currentView == TripsView
      ensures generatedItinerary == None && currentPreferences == None
    {
      currentView := TripsView;
      generatedItinerary := None;
      currentPreferences := None;
    }

    /** `renderCurrentView`: the itinerary view without its data falls
        back to search, the details view without a selected trip falls
        back to the list; both render nothing this time. */
    method RenderCurrentView() returns (screen: Screen)
      modifies this`currentView
      ensures old(currentView) == SearchView ==> screen == SearchScreen && currentView == SearchView
      ensures old(currentView) == TripsView ==> screen == TripsScreen && currentView == TripsView
      ensures old(currentView) == ItineraryView ==>
        if generatedItinerary.Some? && currentPreferences.Some?
        then screen == ItineraryScreen && currentView == ItineraryView
        else screen == Nothing && currentView == SearchView
      ensures old(currentView) == TripDetailsView ==>
        if selectedTrip.Some?
        then screen == TripDetailsScreen && currentView == TripDetailsView
        else screen == Nothing && currentView == TripsView
    {
      match currentView
      case SearchView =>
        screen := SearchScreen;
      case ItineraryView =>
        if generatedItinerary.None? || currentPreferences.None? {
          currentView := SearchView;
          screen := Nothing;
        } else {
          screen := ItineraryScreen;
        }
      case TripsView =>
        screen := TripsScreen;
      case TripDetailsView =>
        if selectedTrip.None? {
          currentView := TripsView;
          screen := Nothing;
        } else {
          screen := TripDetailsScreen;
        }
    }
  }
}
