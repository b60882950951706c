/** The page of one trip in src/components/TripDetails.tsx: the
    add-destination dialog (by hand or through the AI generator and its
    preview), and the updates it hands to its parent. The trip is the
    component's input; a handler returns the trip it passes to
    `onUpdateTrip`, or `None` when it does not call it. */
module TripDetails {
  import opened Wrappers
  import opened Types
  import opened Text
  import opened Seqs
  import opened AIService
  import opened ItineraryConversion
  import opened TripStats

  /** The dialog's fields, all plain strings. */
  datatype DestinationForm = DestinationForm(name: string, description: string, arrivalDate: string, departureDate: string)

  const EmptyForm := DestinationForm("", "", "", "")

  /** The destination `addDestination` builds: trimmed name and
      description, the dates as typed, and no activities, notes or
      accommodations. */
  function ManualDestination(form: DestinationForm, now: nat): (d: Destination)
    ensures d.id == NatToString(now) && d.name == Trim(form.name) && d.description == Some(Trim(form.description))
    ensures d.arrivalDate == Some(form.arrivalDate) && d.departureDate == Some(form.departureDate)
    ensures d.activities == [] && d.notes == [] && d.accommodations == []
    ensures !IsSet(d.aiItineraryGenerated) && !IsSet(d.itineraryFinalized)
  {
    Destination(NatToString(now), Trim(form.name), Some(Trim(form.description)), [], [], [],
      Some(form.arrivalDate), Some(form.departureDate), None, None)
  }

  /** The destination accepting (finalized) or customising (not
      finalized) a generated itinerary builds. */
  function GeneratedDestination(
    name: string, itinerary: ItineraryResponse, form: DestinationForm, now: nat, finalized: bool): Destination
  {
    FromItinerary(name, itinerary, Some(form.arrivalDate), Some(form.departureDate), now, finalized)
  }

  function DestinationKey(d: Destination): string
  {
    d.id
  }

  /** `updateDestination`: the trip with the destinations of the same id
      replaced, everything else as it was. */
  function UpdateDestination(trip: Trip, updated: Destination): (r: Trip)
    ensures r == trip.(destinations := ReplaceByKey(trip.destinations, updated, DestinationKey))
    ensures |r.destinations| == |trip.destinations|
  {
    trip.(destinations := ReplaceByKey(trip.destinations, updated, DestinationKey))
  }

  /** Adding a generated destination adds all its activities to the
      trip's total, none of them to the completed count, and one
      destination to the AI-generated count. */
  lemma {:induction false} GeneratedDestinationStats(
    dests: seq<Destination>, name: string, itinerary: ItineraryResponse, form: DestinationForm, now: nat, finalized: bool)
    ensures var d := GeneratedDestination(name, itinerary, form, now, finalized);
      && TotalActivities(dests + [d]) == TotalActivities(dests) + |itinerary.activities|
      && CompletedActivities(dests + [d]) == CompletedActivities(dests)
      && AIGeneratedCount(dests + [d]) == AIGeneratedCount(dests) + 1
  {
    var d := GeneratedDestination(name, itinerary, form, now, finalized);
    StatsAppend(dests, d);
    assert Count(d.activities, IsDone) == 0;
    CountAppend(dests, [d], IsAIGenerated);
    assert Count([d], IsAIGenerated) == 1;
  }

  /** Accepting and customising build the same destination except for
      the finalized flag. */
  lemma AcceptAndCustomizeDiffer(name: string, itinerary: ItineraryResponse, form: DestinationForm, now: nat)
    ensures GeneratedDestination(name, itinerary, form, now, false)
      == GeneratedDestination(name, itinerary, form, now, true).(itineraryFinalized := Some(false))
  {
  }

  class DetailsState {
    const trip: Trip
    var showAddDestination: bool
    var showAIGenerator: bool
    var isGeneratingAI: bool
    var aiItinerary: Option<ItineraryResponse>
    var currentDestinationForAI: string
    var newDestination: DestinationForm

    /** The page of `t` with the dialog closed and empty. */
    constructor (t: Trip)
      ensures trip == t && !showAddDestination && !showAIGenerator && !isGeneratingAI
      ensures aiItinerary == None && currentDestinationForAI == "" && newDestination == EmptyForm
    {
      trip := t;
      showAddDestination := false;
      showAIGenerator := false;
      isGeneratingAI := false;
      aiItinerary := None;
      currentDestinationForAI := "";
      newDestination := EmptyForm;
    }

    /** `addDestination`: a blank name does nothing; otherwise the
        destination is appended, the form is emptied and the dialog
        closes. */
    method AddDestination(now: nat) returns (update: Option<Trip>)
      modifies this`newDestination, this`showAddDestination
      ensures IsBlank(old(newDestination).name) ==>
        update == None && newDestination == old(newDestination) && showAddDestination == old(showAddDestination)
      ensures !IsBlank(old(newDestination).name) ==>
        && update == Some(trip.(destinations := trip.destinations + [ManualDestination(old(newDestination), now)]))
        && newDestination == EmptyForm && !showAddDestination
    {
      if IsBlank(newDestination.name) {
        return None;
      }
      update := Some(trip.(destinations := trip.destinations + [ManualDestination(newDestination, now)]));
      newDestination := EmptyForm;
      showAddDestination := false;
    }

    /** `handleGenerateAIItinerary`: a non-blank name, trimmed, becomes the
        destination to plan and the generator opens. */
    method HandleGenerateAIItinerary()
      modifies this`currentDestinationForAI, this`showAIGenerator
      ensures IsBlank(newDestination.name) ==>
        currentDestinationForAI == old(currentDestinationForAI) && showAIGenerator == old(showAIGenerator)
      ensures !IsBlank(newDestination.name) ==>
        currentDestinationForAI == Trim(newDestination.name) && showAIGenerator
    {
      if !IsBlank(newDestination.name) {
        currentDestinationForAI := Trim(newDestination.name);
        showAIGenerator := true;
      }
    }

    /** `handleAIGeneration`: the service never fails, so its itinerary
        is stored; the flag is down again afterwards. */
    method HandleAIGeneration(request: ItineraryRequest, backend: Backend)
      modifies this`isGeneratingAI, this`aiItinerary
      ensures aiItinerary == Some(GenerateItinerary(backend, request)) && !isGeneratingAI
    {
      isGeneratingAI := true;
      aiItinerary := Some(GenerateItinerary(backend, request));
      isGeneratingAI := false;
    }

    /** The common part of accepting and customising: nothing happens
        without an itinerary or a destination name; otherwise the
        destination is appended and the dialog is reset and closed. */
    method AddGenerated(now: nat, finalized: bool) returns (update: Option<Trip>)
      modifies this`aiItinerary, this`showAIGenerator, this`showAddDestination,
        this`currentDestinationForAI, this`newDestination
      ensures old(aiItinerary).None? || old(currentDestinationForAI) == "" ==>
        && update == None && aiItinerary == old(aiItinerary)
        && showAIGenerator == old(showAIGenerator) && showAddDestination == old(showAddDestination)
        && currentDestinationForAI == old(currentDestinationForAI) && newDestination == old(newDestination)
      ensures old(aiItinerary).Some? && old(currentDestinationForAI) != "" ==>
        && update == Some(trip.(destinations := trip.destinations + [GeneratedDestination(
             old(currentDestinationForAI), old(aiItinerary).value, old(newDestination), now, finalized)]))
        && aiItinerary == None && !showAIGenerator && !showAddDestination
        && currentDestinationForAI == "" && newDestination == EmptyForm
    {
      if aiItinerary.None? || currentDestinationForAI == "" {
        return None;
      }
      var d := GeneratedDestination(currentDestinationForAI, aiItinerary.value, newDestination, now, finalized);
      update := Some(trip.(destinations := trip.destinations + [d]));
      aiItinerary := None;
      showAIGenerator := false;
      showAddDestination := false;
      currentDestinationForAI := "";
      newDestination := EmptyForm;
    }

    /** `handleAcceptAIItinerary`: the destination is finalized. */
    method AcceptAIItinerary(now: nat) returns (update: Option<Trip>)
      modifies this`aiItinerary, this`showAIGenerator, this`showAddDestination,
        this`currentDestinationForAI, this`newDestination
      ensures old(aiItinerary).None? || old(currentDestinationForAI) == "" ==>
        && update == None && aiItinerary == old(aiItinerary)
        && showAIGenerator == old(showAIGenerator) && showAddDestination == old(showAddDestination)
        && currentDestinationForAI == old(currentDestinationForAI) && newDestination == old(newDestination)
      ensures old(aiItinerary).Some? && old(currentDestinationForAI) != "" ==>
        && update == Some(trip.(destinations := trip.destinations + [GeneratedDestination(
             old(currentDestinationForAI), old(aiItinerary).value, old(newDestination), now, true)]))
        && aiItinerary == None && !showAIGenerator && !showAddDestination
        && currentDestinationForAI == "" && newDestination == EmptyForm
    {
      update := AddGenerated(now, true);
    }

    /** `handleCustomizeAIItinerary`: the same, left open for editing. */
    method CustomizeAIItinerary(now: nat) returns (update: Option<Trip>)
      modifies this`aiItinerary, this`showAIGenerator, this`showAddDestination,
        this`currentDestinationForAI, this`newDestination
      ensures old(aiItinerary).None? || old(currentDestinationForAI) == "" ==>
        && update == None && aiItinerary == old(aiItinerary)
        && showAIGenerator == old(showAIGenerator) && showAddDestination == old(showAddDestination)
        && currentDestinationForAI == old(currentDestinationForAI) && newDestination == old(newDestination)
      ensures old(aiItinerary).Some? && old(currentDestinationForAI) != "" ==>
        && update == Some(trip.(destinations := trip.destinations + [GeneratedDestination(
             old(currentDestinationForAI), old(aiItinerary).value, old(newDestination), now, false)]))
        && aiItinerary == None && !showAIGenerator && !showAddDestination
        && currentDestinationForAI == "" && newDestination == EmptyForm
    {
      update := AddGenerated(now, false);
    }

    /** `handleRejectAIItinerary`: only the itinerary is dropped; the
        generator stays open for another attempt. */
    method RejectAIItinerary()
      modifies this`aiItinerary
      ensures aiItinerary == None
    {
      aiItinerary := None;
    }
  }
}
