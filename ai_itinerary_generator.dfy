/** The preferences form of src/components/AIItineraryGenerator.tsx, shown
    inside the add-destination dialog: budget, travelers and interests
    for a destination whose name and dates come from the dialog. */
module AIItineraryGenerator {
  import opened Wrappers
  import opened Types
  import opened Text
  import opened Seqs
  import opened Dates
  import opened AIService

  datatype GeneratorPreferences = GeneratorPreferences(budget: string, travelers: int, interests: seq<string>)

  /** The form starts with no budget, one traveler and no interests. */
  const InitialPreferences := GeneratorPreferences("", 1, [])

  /** The budget buttons. */
  const BudgetOptions: seq<string> := ["Budget ($)", "Mid-range ($$)", "Luxury ($$$)", "No preference"]

  /** `handleGenerate`: the destination and dates as given, the form's
      fields as set. */
  function RequestFor(
    destination: string, arrival: Option<string>, departure: Option<string>, p: GeneratorPreferences): (r: ItineraryRequest)
    ensures r.destination == destination && r.arrivalDate == arrival && r.departureDate == departure
    ensures r.budget == Some(p.budget) && r.travelers == Some(p.travelers) && r.interests == Some(p.interests)
  {
    ItineraryRequest(destination, arrival, departure, Some(p.budget), Some(p.travelers), Some(p.interests))
  }

  /** What the service's prompt makes of a request from this form: the
      travelers as typed (the input never holds zero), the budget unless
      none was picked, the interests unless none were picked, and the day
      count the form shows when both dates are set; without them the form
      shows no day count but the prompt plans three days. */
  lemma PromptFromForm(
    destination: string, arrival: Option<string>, departure: Option<string>,
    p: GeneratorPreferences, parse: DateParser)
    requires p.travelers != 0
    ensures var prompt := CreatePrompt(RequestFor(destination, arrival, departure, p), parse);
      && prompt.destination == destination
      && prompt.travelers == p.travelers
      && (p.budget == "" ==> prompt.budget == "No preference")
      && (p.budget != "" ==> prompt.budget == p.budget)
      && (p.interests == [] ==> prompt.interests == "General tourism")
      && (Truthy(arrival) && Truthy(departure) ==> prompt.days == PlannedDays(arrival, departure, parse))
      && (!(Truthy(arrival) && Truthy(departure)) ==> prompt.days == 3 && PlannedDays(arrival, departure, parse) == 0)
  {
    var r := RequestFor(destination, arrival, departure, p);
    if Truthy(arrival) && Truthy(departure) {
      CeilDaysUnique(parse(departure.value) - parse(arrival.value), TripDays(r, parse));
    }
  }

  class GeneratorState {
    var preferences: GeneratorPreferences

    constructor ()
      ensures preferences == InitialPreferences
    {
      preferences := InitialPreferences;
    }

    /** A budget button. */
    method SetBudget(option: string)
      modifies this
      ensures preferences == old(preferences).(budget := option)
    {
      preferences := preferences.(budget := option);
    }

    /** The travelers input. */
    method SetTravelers(parsed: Option<int>)
      modifies this
      ensures preferences == old(preferences).(travelers := IntOrOne(parsed))
    {
      preferences := preferences.(travelers := IntOrOne(parsed));
    }

    /** `toggleInterest`. */
    method ToggleInterest(interest: string)
      modifies this
      ensures preferences == old(preferences).(interests := Toggle(old(preferences).interests, interest))
    {
      preferences := preferences.(interests := Toggle(preferences.interests, interest));
    }

    /** `handleGenerate`: the request passed to `onGenerate`; the form is
        left as it is. */
    method HandleGenerate(destination: string, arrival: Option<string>, departure: Option<string>)
      returns (request: ItineraryRequest)
      ensures request == RequestFor(destination, arrival, departure, preferences)
    {
      request := RequestFor(destination, arrival, departure, preferences);
    }
  }
}
