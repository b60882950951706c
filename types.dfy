/** The records of src/types/index.ts. Optional TypeScript properties are
    `Option`s; category and accommodation type stay strings because values
    parsed from a provider's reply are not checked against the declared
    unions. Date fields are the ISO date strings the forms produce. */
module Types {
  import opened Wrappers

  /** JavaScript truthiness of an optional string: present and not empty. */
  predicate Truthy(o: Option<string>)
  {
    o.Some? && o.value != ""
  }

  /** JavaScript `o || d` on an optional string. */
  function OrElse(o: Option<string>, d: string): (r: string)
    ensures Truthy(o) ==> r == o.value
    ensures !Truthy(o) ==> r == d
  {
    if Truthy(o) then o.value else d
  }

  /** JavaScript truthiness of an optional flag. */
  predicate IsSet(o: Option<bool>)
  {
    o == Some(true)
  }

  /** `parseInt(value) || 1` on a number input: `None` stands for a value
      that does not parse (NaN); NaN and zero fall back to one. */
  function IntOrOne(parsed: Option<int>): (n: int)
    ensures n != 0
    ensures parsed.Some? && parsed.value != 0 ==> n == parsed.value
    ensures parsed.None? || parsed == Some(0) ==> n == 1
  {
    if parsed.None? || parsed.value == 0 then 1 else parsed.value
  }

  datatype Activity = Activity(
    id: string,
    name: string,
    description: Option<string>,
    time: Option<string>,
    duration: Option<string>,
    category: string,
    completed: bool,
    cost: Option<string>,
    location: Option<string>,
    aiGenerated: Option<bool>)

  /** A note; `timestamp` is the creation time in milliseconds. */
  datatype Note = Note(id: string, content: string, timestamp: int)

  datatype Accommodation = Accommodation(
    id: string,
    name: string,
    kind: string,
    priceRange: string,
    rating: Option<real>,
    description: Option<string>,
    aiGenerated: Option<bool>)

  /** A destination. A destination added by hand has no `accommodations`
      property in the source; here that is the empty list, which every
      reader of the field treats the same way. */
  datatype Destination = Destination(
    id: string,
    name: string,
    description: Option<string>,
    activities: seq<Activity>,
    notes: seq<Note>,
    accommodations: seq<Accommodation>,
    arrivalDate: Option<string>,
    departureDate: Option<string>,
    aiItineraryGenerated: Option<bool>,
    itineraryFinalized: Option<bool>)

  datatype Trip = Trip(
    id: string,
    name: string,
    description: Option<string>,
    destinations: seq<Destination>,
    startDate: Option<string>,
    endDate: Option<string>,
    coverImage: Option<string>,
    budget: Option<string>,
    travelers: Option<int>)

  datatype ItineraryRequest = ItineraryRequest(
    destination: string,
    arrivalDate: Option<string>,
    departureDate: Option<string>,
    budget: Option<string>,
    travelers: Option<int>,
    interests: Option<seq<string>>)

  /** An activity of a generated itinerary: an `Activity` without `id`
      and `completed`. */
  datatype ItineraryActivity = ItineraryActivity(
    name: string,
    description: Option<string>,
    time: Option<string>,
    duration: Option<string>,
    category: string,
    cost: Option<string>,
    location: Option<string>,
    aiGenerated: Option<bool>)

  /** An accommodation of a generated itinerary: an `Accommodation`
      without `id`. */
  datatype ItineraryAccommodation = ItineraryAccommodation(
    name: string,
    kind: string,
    priceRange: string,
    rating: Option<real>,
    description: Option<string>,
    aiGenerated: Option<bool>)

  /** A generated itinerary. `overview` is whatever the reply carried: the
      service does not check that it is present. */
  datatype ItineraryResponse = ItineraryResponse(
    activities: seq<ItineraryActivity>,
    accommodations: seq<ItineraryAccommodation>,
    overview: Option<string>)
}
