/** The itinerary generation service (`AIItineraryService`): builds the
    prompt, dispatches it to one of four providers, parses the reply and
    stamps every item as AI-generated, falling back to a fixed sample
    itinerary whenever anything goes wrong.

    The environment is a parameter: the provider configuration, the
    network (a function from the request to the provider's reply or a
    failure), `JSON.parse` (a function from text to a parsed reply or a
    failure) and date parsing. */
module AIService {
  import opened Wrappers
  import opened Types
  import opened Text
  import opened Dates

  datatype Provider = OpenAI | Anthropic | Google | Custom | Unsupported(name: string)

  datatype Config = Config(provider: Provider, apiKey: string, model: string, baseUrl: Option<string>)

  /** `AI_CONFIG`, given the two environment variables it reads. */
  function DefaultConfig(envApiKey: Option<string>, envBaseUrl: Option<string>): (c: Config)
    ensures c.provider == OpenAI && c.model == "gpt-4" && c.baseUrl == envBaseUrl
    ensures c.apiKey == "" <==> !Truthy(envApiKey)
    ensures Truthy(envApiKey) ==> c.apiKey == envApiKey.value
  {
    Config(OpenAI, OrElse(envApiKey, ""), "gpt-4", envBaseUrl)
  }

  /** The prompt, as the values substituted into its template. */
  datatype Prompt = Prompt(
    destination: string,
    days: int,
    travelers: int,
    budget: string,
    interests: string,
    arrival: string,
    departure: string,
    activityCount: int)

  /** The trip length the prompt asks for: the day span when both dates
      are given, three days otherwise. */
  function TripDays(request: ItineraryRequest, parseDate: DateParser): (d: int)
    ensures !(Truthy(request.arrivalDate) && Truthy(request.departureDate)) ==> d == 3
    ensures Truthy(request.arrivalDate) && Truthy(request.departureDate) ==>
      var span := parseDate(request.departureDate.value) - parseDate(request.arrivalDate.value);
      (d - 1) * MsPerDay < span <= d * MsPerDay
  {
    if Truthy(request.arrivalDate) && Truthy(request.departureDate) then
      DaysBetween(request.arrivalDate.value, request.departureDate.value, parseDate)
    else 3
  }

  /** `Math.max(6, days * 2)`. */
  function ActivityTarget(days: int): (n: int)
    ensures n >= 6 && n >= 2 * days
    ensures n == 6 || n == 2 * days
  {
    if 2 * days > 6 then 2 * days else 6
  }

  /** `interests?.join(', ') || 'General tourism'`. */
  function InterestsText(interests: Option<seq<string>>): (t: string)
    ensures interests.None? ==> t == "General tourism"
    ensures interests.Some? ==>
      var xs := interests.value;
      (|xs| == 0 || (|xs| == 1 && xs[0] == "") ==> t == "General tourism") &&
      (|xs| >= 2 || (|xs| == 1 && xs[0] != "") ==> t == Join(xs, ", "))
  {
    if interests.None? then "General tourism"
    else
      JoinEmptyIff(interests.value, ", ");
      var joined := Join(interests.value, ", ");
      if joined == "" then "General tourism" else joined
  }

  /** `createPrompt`: the values of the prompt, defaults filled in. */
  function CreatePrompt(request: ItineraryRequest, parseDate: DateParser): (p: Prompt)
    ensures p.destination == request.destination
    ensures p.days == TripDays(request, parseDate)
    ensures p.activityCount >= 6 && p.activityCount >= 2 * p.days
    ensures request.travelers.None? || request.travelers == Some(0) ==> p.travelers == 1
    ensures request.travelers.Some? && request.travelers.value != 0 ==> p.travelers == request.travelers.value
    ensures !Truthy(request.budget) ==> p.budget == "No preference"
    ensures Truthy(request.budget) ==> p.budget == request.budget.value
    ensures p.interests == InterestsText(request.interests)
    ensures p.arrival == OrElse(request.arrivalDate, "Flexible")
    ensures p.departure == OrElse(request.departureDate, "Flexible")
  {
    var days := TripDays(request, parseDate);
    Prompt(
      request.destination,
      days,
      if request.travelers.Some? && request.travelers.value != 0 then request.travelers.value else 1,
      OrElse(request.budget, "No preference"),
      InterestsText(request.interests),
      OrElse(request.arrivalDate, "Flexible"),
      OrElse(request.departureDate, "Flexible"),
      ActivityTarget(days))
  }

  const OpenAIUrl: string := "https://api.openai.com/v1/chat/completions"
  const AnthropicUrl: string := "https://api.anthropic.com/v1/messages"

  /** The Google endpoint: model and key are part of the URL. */
  function GoogleUrl(model: string, apiKey: string): string
  {
    "https://generativelanguage.googleapis.com/v1beta/models/" + model + ":generateContent?key=" + apiKey
  }

  /** One POST to a provider. */
  datatype ProviderRequest = ProviderRequest(
    provider: Provider, url: string, apiKey: string, model: string, prompt: Prompt)

  /** What a provider call yields: the text extracted from the reply
      (absent when the extracted property is missing), or a failure
      (a non-2xx status or any exception on the way). */
  datatype ProviderResult = Replied(content: Option<string>) | Failed

  /** `fetch` followed by the provider's reply extraction. */
  type Network = ProviderRequest -> ProviderResult

  /** The errors raised before any request is sent. */
  datatype DispatchError = UnsupportedProvider(name: string) | MissingBaseUrl

  /** The `switch` of `callAI`: which request each provider sends, or why
      none is sent. */
  function Route(c: Config, prompt: Prompt): (r: Result<ProviderRequest, DispatchError>)
    ensures r.Failure? <==> c.provider.Unsupported? || (c.provider == Custom && !Truthy(c.baseUrl))
    ensures r.Success? ==>
      && r.value.provider == c.provider && r.value.prompt == prompt
      && r.value.apiKey == c.apiKey && r.value.model == c.model
    ensures r.Success? && c.provider == OpenAI ==> r.value.url == OrElse(c.baseUrl, OpenAIUrl)
    ensures r.Success? && c.provider == Anthropic ==> r.value.url == AnthropicUrl
    ensures r.Success? && c.provider == Google ==> r.value.url == GoogleUrl(c.model, c.apiKey)
    ensures r.Success? && c.provider == Custom ==> r.value.url == c.baseUrl.value
    ensures c.provider.Unsupported? ==> r == Failure(UnsupportedProvider(c.provider.name))
  {
    match c.provider
    case OpenAI => Success(ProviderRequest(OpenAI, OrElse(c.baseUrl, OpenAIUrl), c.apiKey, c.model, prompt))
    case Anthropic => Success(ProviderRequest(Anthropic, AnthropicUrl, c.apiKey, c.model, prompt))
    case Google => Success(ProviderRequest(Google, GoogleUrl(c.model, c.apiKey), c.apiKey, c.model, prompt))
    case Custom =>
      if !Truthy(c.baseUrl) then Failure(MissingBaseUrl)
      else Success(ProviderRequest(Custom, c.baseUrl.value, c.apiKey, c.model, prompt))
    case Unsupported(name) => Failure(UnsupportedProvider(name))
  }

  /** What `callAI` resolves to: the provider's text, `undefined` (the
      extracted property was missing), or the sample reply. */
  datatype AIReply = ProviderText(text: string) | NoText | MockText

  /** `callAI`: without a key the sample reply, without a request being
      sent; otherwise the routed provider's text, and the sample reply
      when routing or the call fails. */
  function CallAI(c: Config, prompt: Prompt, network: Network): (r: AIReply)
    ensures c.apiKey == "" ==> r == MockText
    ensures r == MockText <==>
      c.apiKey == "" || Route(c, prompt).Failure? || network(Route(c, prompt).value).Failed?
    ensures r.ProviderText? ==>
      c.apiKey != "" && Route(c, prompt).Success?
      && network(Route(c, prompt).value) == Replied(Some(r.text))
    ensures r == NoText ==>
      c.apiKey != "" && Route(c, prompt).Success? && network(Route(c, prompt).value) == Replied(None)
  {
    if c.apiKey == "" then MockText
    else
      match Route(c, prompt)
      case Failure(_) => MockText
      case Success(request) =>
        match network(request)
        case Failed => MockText
        case Replied(None) => NoText
        case Replied(Some(text)) => ProviderText(text)
  }

  /** The result of `JSON.parse` as far as the service reads it: each of
      the three properties, when it is an array (or, for `overview`, a
      string). */
  datatype ParsedReply = ParsedReply(
    activities: Option<seq<ItineraryActivity>>,
    accommodations: Option<seq<ItineraryAccommodation>>,
    overview: Option<string>)

  /** `JSON.parse`: a parsed reply, or `None` when it throws. */
  type ReplyParser = string -> Option<ParsedReply>

  /** The sample object `getMockResponse` serialises. */
  const SampleReply: ParsedReply := ParsedReply(
    Some([
      ItineraryActivity("Explore Historic City Center",
        Some("Walk through the charming old town and discover local architecture"),
        Some("09:00"), Some("2-3 hours"), "sightseeing", Some("Free"), Some("City Center"), None),
      ItineraryActivity("Local Food Market Tour",
        Some("Experience authentic local cuisine and fresh ingredients"),
        Some("11:30"), Some("1-2 hours"), "dining", Some("$20-40"), Some("Central Market"), None),
      ItineraryActivity("Cultural Museum Visit",
        Some("Learn about local history and cultural heritage"),
        Some("14:00"), Some("2 hours"), "cultural", Some("$15-25"), Some("Museum District"), None)
    ]),
    Some([
      ItineraryAccommodation("City Center Hotel", "hotel", "$120-180/night", Some(4.3),
        Some("Modern hotel with excellent location and amenities"), None),
      ItineraryAccommodation("Cozy Local Guesthouse", "guesthouse", "$60-90/night", Some(4.1),
        Some("Family-run guesthouse with authentic local experience"), None)
    ]),
    Some("A wonderful itinerary combining cultural exploration, local cuisine, and comfortable accommodations."))

  /** `getMockResponse`, as the object it serialises: three activities,
      two accommodations and an overview. */
  function MockReply(): (p: ParsedReply)
    ensures p.activities.Some? && |p.activities.value| == 3
    ensures p.accommodations.Some? && |p.accommodations.value| == 2
    ensures p.overview.Some? && p.overview.value != ""
  {
    SampleReply
  }

  /** `JSON.parse` applied to what `callAI` resolved to. Parsing the
      serialised sample gives the sample back; parsing `undefined` throws. */
  function Decode(reply: AIReply, parse: ReplyParser): (p: Option<ParsedReply>)
    ensures reply == MockText ==> p == Some(MockReply())
    ensures reply == NoText ==> p == None
    ensures reply.ProviderText? ==> p == parse(reply.text)
  {
    match reply
    case MockText => Some(MockReply())
    case NoText => None
    case ProviderText(text) => parse(text)
  }

  /** Every activity carries `aiGenerated: true`. */
  predicate ActivitiesStamped(s: seq<ItineraryActivity>)
  {
    forall k :: 0 <= k < |s| ==> s[k].aiGenerated == Some(true)
  }

  /** Every accommodation carries `aiGenerated: true`. */
  predicate AccommodationsStamped(s: seq<ItineraryAccommodation>)
  {
    forall k :: 0 <= k < |s| ==> s[k].aiGenerated == Some(true)
  }

  /** `activities.map(a => ({...a, aiGenerated: true}))`: the flag is
      written after the spread, so it overrides whatever the reply said;
      every other property is kept, and so are length and order. */
  function StampActivities(s: seq<ItineraryActivity>): (r: seq<ItineraryActivity>)
    ensures |r| == |s| && ActivitiesStamped(r)
    ensures forall k :: 0 <= k < |s| ==> r[k].(aiGenerated := s[k].aiGenerated) == s[k]
  {
    seq(|s|, k requires 0 <= k < |s| => s[k].(aiGenerated := Some(true)))
  }

  /** The same stamping on accommodations. */
  function StampAccommodations(s: seq<ItineraryAccommodation>): (r: seq<ItineraryAccommodation>)
    ensures |r| == |s| && AccommodationsStamped(r)
    ensures forall k :: 0 <= k < |s| ==> r[k].(aiGenerated := s[k].aiGenerated) == s[k]
  {
    seq(|s|, k requires 0 <= k < |s| => s[k].(aiGenerated := Some(true)))
  }

  /** The body of `generateItinerary` after parsing: both lists must be
      arrays (otherwise `.map` throws); `overview` is passed on unchecked. */
  function Assemble(p: ParsedReply): (r: Option<ItineraryResponse>)
    ensures r.Some? <==> p.activities.Some? && p.accommodations.Some?
    ensures r.Some? ==>
      && r.value.activities == StampActivities(p.activities.value)
      && r.value.accommodations == StampAccommodations(p.accommodations.value)
      && r.value.overview == p.overview
  {
    if p.activities.Some? && p.accommodations.Some? then
      Some(ItineraryResponse(
        StampActivities(p.activities.value),
        StampAccommodations(p.accommodations.value),
        p.overview))
    else None
  }

  /** The itinerary of the `catch` block: the sample reply, stamped. */
  function MockItinerary(): (r: ItineraryResponse)
    ensures |r.activities| == 3 && |r.accommodations| == 2
    ensures r.overview.Some? && r.overview.value != ""
    ensures ActivitiesStamped(r.activities) && AccommodationsStamped(r.accommodations)
    ensures r.activities[0].name == "Explore Historic City Center"
  {
    var m := MockReply();
    ItineraryResponse(
      StampActivities(m.activities.value),
      StampAccommodations(m.accommodations.value),
      m.overview)
  }

  /** Everything `generateItinerary` depends on besides the request. */
  datatype Backend = Backend(
    config: Config,
    network: Network,
    parse: ReplyParser,
    parseDate: DateParser)

  /** `generateItinerary`. It never fails: a missing key, an unknown
      provider, a custom provider without URL, a failed call, an
      unparsable reply or a reply without both arrays all give the sample
      itinerary. Whatever it returns has every item stamped. */
  function GenerateItinerary(backend: Backend, request: ItineraryRequest): (r: ItineraryResponse)
    ensures ActivitiesStamped(r.activities) && AccommodationsStamped(r.accommodations)
    ensures backend.config.apiKey == "" ==> r == MockItinerary()
    ensures var prompt := CreatePrompt(request, backend.parseDate);
      Route(backend.config, prompt).Failure? ==> r == MockItinerary()
    ensures var prompt := CreatePrompt(request, backend.parseDate);
      var reply := CallAI(backend.config, prompt, backend.network);
      r == MockItinerary() || (reply.ProviderText? && backend.parse(reply.text).Some?
        && Assemble(backend.parse(reply.text).value) == Some(r))
    ensures var prompt := CreatePrompt(request, backend.parseDate);
      var reply := CallAI(backend.config, prompt, backend.network);
      reply.ProviderText? && backend.parse(reply.text).Some?
        && Assemble(backend.parse(reply.text).value).Some? ==>
        Assemble(backend.parse(reply.text).value) == Some(r)
  {
    var prompt := CreatePrompt(request, backend.parseDate);
    var reply := CallAI(backend.config, prompt, backend.network);
    match Decode(reply, backend.parse)
    case None => MockItinerary()
    case Some(parsed) =>
      match Assemble(parsed)
      case None => MockItinerary()
      case Some(itinerary) => itinerary
  }

  /** A reply that parses to a value without an `activities` array lands
      in the `catch`, whatever else it carries. */
  lemma MissingActivitiesFallsBack(backend: Backend, request: ItineraryRequest, text: string)
    requires CallAI(backend.config, CreatePrompt(request, backend.parseDate), backend.network) == ProviderText(text)
    requires backend.parse(text).Some? && backend.parse(text).value.activities.None?
    ensures GenerateItinerary(backend, request) == MockItinerary()
  {
  }

  /** A provider that marks an item `aiGenerated: false` is overridden:
      the item comes back with the flag set and nothing else changed. */
  lemma ProviderFlagOverridden(backend: Backend, request: ItineraryRequest, text: string, k: nat)
    requires CallAI(backend.config, CreatePrompt(request, backend.parseDate), backend.network) == ProviderText(text)
    requires backend.parse(text).Some? && Assemble(backend.parse(text).value).Some?
    requires k < |backend.parse(text).value.activities.value|
    ensures var a := backend.parse(text).value.activities.value[k];
      var r := GenerateItinerary(backend, request);
      k < |r.activities| && r.activities[k] == a.(aiGenerated := Some(true))
  {
  }
}
