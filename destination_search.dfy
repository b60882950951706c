/** The landing page of src/components/DestinationSearch.tsx: the catalogue
    of popular destinations with its text and category filter, the
    preferences form, and the hand-off of a request to the application. */
module DestinationSearch {
  import opened Wrappers
  import opened Types
  import opened Text
  import opened Seqs

  /** A catalogue entry; the image, rating, activity list, season and cost
      are display-only and not modelled. */
  datatype PopularDestination = PopularDestination(
    id: string, name: string, country: string, description: string, category: string)

  const Catalogue: seq<PopularDestination> := [
    PopularDestination("1", "Paris", "France",
      "The City of Light with iconic landmarks, world-class museums, and romantic atmosphere", "city"),
    PopularDestination("2", "Bali", "Indonesia",
      "Tropical paradise with stunning beaches, ancient temples, and vibrant culture", "beach"),
    PopularDestination("3", "Tokyo", "Japan",
      "Modern metropolis blending traditional culture with cutting-edge technology", "city"),
    PopularDestination("4", "Santorini", "Greece",
      "Stunning Greek island with white-washed buildings and breathtaking sunsets", "beach"),
    PopularDestination("5", "Swiss Alps", "Switzerland",
      "Majestic mountain ranges perfect for skiing, hiking, and scenic train rides", "mountain"),
    PopularDestination("6", "Marrakech", "Morocco",
      "Vibrant imperial city with bustling souks, palaces, and rich cultural heritage", "cultural"),
    PopularDestination("7", "New York City", "USA",
      "The city that never sleeps with iconic skyline, Broadway shows, and world-class dining", "city"),
    PopularDestination("8", "Maldives", "Maldives",
      "Pristine coral islands with crystal-clear waters and luxury overwater bungalows", "beach"),
    Rome,
    PopularDestination("10", "Dubai", "UAE",
      "Futuristic city with luxury shopping, modern architecture, and desert adventures", "city"),
    PopularDestination("11", "Iceland", "Iceland",
      "Land of fire and ice with dramatic landscapes, geysers, and Northern Lights", "adventure"),
    PopularDestination("12", "Thailand", "Thailand",
      "Exotic kingdom with golden temples, tropical beaches, and delicious street food", "cultural")
  ]

  const RomeDescription := "Eternal city with ancient " + "ruins, Renaissance art, " + "and incredible Italian cuisine"
  const Rome := PopularDestination("9", "Rome", "Italy", RomeDescription, "cultural")

  /** The interests the preferences form offers. */
  const InterestOptions: seq<string> := [
    "Culture & History", "Food & Dining", "Nightlife", "Nature & Outdoors",
    "Shopping", "Art & Museums", "Adventure Sports", "Relaxation"
  ]

  /** The name, country or description contains `needle`, ignoring ASCII
      case. */
  predicate MentionedIn(d: PopularDestination, needle: string)
  {
    Includes(Lower(d.name), needle) || Includes(Lower(d.country), needle)
    || Includes(Lower(d.description), needle)
  }

  /** The text test as the component writes it: a blank query matches
      everything, any other query is lowered but not trimmed before it is
      searched for. */
  predicate MatchesSearchAsWritten(d: PopularDestination, query: string)
  {
    Trim(query) == "" || MentionedIn(d, Lower(query))
  }

  /** The text test with the query trimmed before the search, as the
      blank test and `handleCustomSearch` already trim it. */
  predicate MatchesSearch(d: PopularDestination, query: string)
  {
    Trim(query) == "" || MentionedIn(d, Lower(Trim(query)))
  }

  /** `selectedCategory === 'all' || dest.category === selectedCategory`. */
  predicate MatchesCategory(d: PopularDestination, category: string)
  {
    category == "all" || d.category == category
  }

  /** The filter's test, with the trimmed text test. */
  function Visible(query: string, category: string): PopularDestination -> bool
  {
    d => MatchesSearch(d, query) && MatchesCategory(d, category)
  }

  /** The filter's test as written. */
  function VisibleAsWritten(query: string, category: string): PopularDestination -> bool
  {
    d => MatchesSearchAsWritten(d, query) && MatchesCategory(d, category)
  }

  /** `filteredDestinations`, with the trimmed text test. */
  function FilteredDestinations(query: string, category: string): (r: seq<PopularDestination>)
    ensures IsSubsequence(r, Catalogue)
    ensures forall d :: d in r <==> d in Catalogue && MatchesSearch(d, query) && MatchesCategory(d, category)
  {
    FilterIsSubsequence(Catalogue, Visible(query, category));
    Filter(Catalogue, Visible(query, category))
  }

  /** `filteredDestinations` exactly as written. */
  function FilteredDestinationsAsWritten(query: string, category: string): (r: seq<PopularDestination>)
    ensures IsSubsequence(r, Catalogue)
    ensures forall d :: d in r <==> d in Catalogue && MatchesSearchAsWritten(d, query) && MatchesCategory(d, category)
  {
    FilterIsSubsequence(Catalogue, VisibleAsWritten(query, category));
    Filter(Catalogue, VisibleAsWritten(query, category))
  }

  /** With a blank query and every category, the whole catalogue is shown
      in its own order. */
  lemma BlankQueryShowsAll(query: string)
    requires IsBlank(query)
    ensures FilteredDestinations(query, "all") == Catalogue
    ensures FilteredDestinationsAsWritten(query, "all") == Catalogue
  {
    BlankQueryKeepsAll(Catalogue, query);
  }

  /** The blank-query argument for any list of destinations, so that the
      catalogue's entries need not be looked at. */
  lemma BlankQueryKeepsAll(ds: seq<PopularDestination>, query: string)
    requires IsBlank(query)
    ensures Filter(ds, Visible(query, "all")) == ds
    ensures Filter(ds, VisibleAsWritten(query, "all")) == ds
  {
    FilterAll(ds, Visible(query, "all"));
    FilterAll(ds, VisibleAsWritten(query, "all"));
  }

  /** As written, a trailing space hides the destination that was typed:
      "Rome " does not list Rome, although the blank test and the custom
      search both read it as "Rome". */
  lemma TrailingSpaceHidesRome(d: PopularDestination, query: string)
    requires d == Rome && query == "Rome "
    ensures d in Catalogue
    ensures !MatchesSearchAsWritten(d, query)
    ensures MatchesSearch(d, query)
  {
    assert Catalogue[8] == Rome;
    TrimOfTrailingSpace();
    RomeNotMentioned(d, query);
    assert OccursAt(Lower(d.name), Lower(Trim(query)), 0);
  }

  /** None of Rome's texts contains "rome ": the name is too short, the
      country has no r and the description no o. */
  lemma RomeNotMentioned(d: PopularDestination, query: string)
    requires d == Rome && query == "Rome "
    ensures !MentionedIn(d, Lower(query))
  {
    var needle := Lower(query);
    assert needle == "rome ";
    assert Lower(d.name) == "rome";
    assert Lower(d.country) == "italy";
    assert 'r' !in "italy";
    IncludesNeedsChar("italy", needle, 'r');
    RomeLacksO(d.description);
    IncludesNeedsChar(Lower(d.description), needle, 'o');
  }

  /** Rome's description has no letter o in either case. */
  lemma RomeLacksO(description: string)
    requires description == RomeDescription
    ensures 'o' !in Lower(description)
  {
    assert 'o' !in description && 'O' !in description;
    LowerKeepsAbsence(description, 'o', 'O');
  }

  lemma TrimOfTrailingSpace()
    ensures Trim("Rome ") == "Rome"
  {
    var s := "Rome ";
    assert s[0] == 'R' && !IsSpace(s[0]);
    assert TrimStart(s) == s;
    assert s[4] == ' ' && s[..4] == "Rome";
    assert "Rome"[3] == 'e' && !IsSpace('e');
    assert TrimEnd("Rome") == "Rome";
    assert TrimEnd(s) == "Rome";
  }

  /** A lower-case letter absent from `s`, together with its upper-case
      form, is absent from `Lower(s)`. */
  lemma LowerKeepsAbsence(s: string, lower: char, upper: char)
    requires 'a' <= lower <= 'z' && upper == UpperChar(lower)
    requires lower !in s && upper !in s
    ensures lower !in Lower(s)
  {
  }

  /** With the trimmed test, surrounding white space never changes what is
      listed, and a query naming a destination up to ASCII case always
      lists it. */
  lemma MatchesSearchProperties(d: PopularDestination, query: string)
    ensures MatchesSearch(d, query) == MatchesSearch(d, Trim(query))
    ensures Lower(Trim(query)) == Lower(d.name) ==> MatchesSearch(d, query)
  {
    TrimIdempotent(query);
    if Lower(Trim(query)) == Lower(d.name) {
      assert OccursAt(Lower(d.name), Lower(Trim(query)), 0);
    }
  }

  /** The category shown on the filter chips. */
  datatype CategoryIcon = Globe | Building | Waves | Mountain | Camera | TrendingUp

  /** The chip ids of the filter bar and the icon each one carries. */
  const ChipIcons: map<string, CategoryIcon> := map[
    "all" := Globe,
    "city" := Building,
    "beach" := Waves,
    "mountain" := Mountain,
    "cultural" := Camera,
    "adventure" := TrendingUp
  ]

  /** `getCategoryIcon`: the icon of the chip with that id, the globe when
      no chip has it. */
  function CategoryIconOf(category: string): (r: CategoryIcon)
    ensures category in ChipIcons ==> r == ChipIcons[category]
    ensures category !in ChipIcons ==> r == Globe
    ensures r == Globe <==> category !in {"city", "beach", "mountain", "cultural", "adventure"}
  {
    match category
    case "all" => Globe
    case "city" => Building
    case "beach" => Waves
    case "mountain" => Mountain
    case "cultural" => Camera
    case "adventure" => TrendingUp
    case _ => Globe
  }

  /** Two different chips never show the same icon, so each chip's icon
      identifies it. */
  lemma ChipIconsDistinct(a: string, b: string)
    requires a in ChipIcons && b in ChipIcons && a != b
    ensures CategoryIconOf(a) != CategoryIconOf(b)
  {
  }

  /** The preferences form; every field is a plain string or number. */
  datatype Preferences = Preferences(
    budget: string, travelers: int, interests: seq<string>, arrivalDate: string, departureDate: string)

  const InitialPreferences := Preferences("", 2, [], "", "")

  /** The request handed to the application: every form field is passed
      through as set. */
  function RequestOf(destination: string, p: Preferences): (r: ItineraryRequest)
    ensures r.destination == destination
    ensures r.travelers == Some(p.travelers) && r.interests == Some(p.interests)
    ensures r.budget == Some(p.budget)
    ensures r.arrivalDate == Some(p.arrivalDate) && r.departureDate == Some(p.departureDate)
  {
    ItineraryRequest(destination, Some(p.arrivalDate), Some(p.departureDate), Some(p.budget),
      Some(p.travelers), Some(p.interests))
  }

  class SearchState {
    var searchQuery: string
    var selectedCategory: string
    var showPreferences: bool
    var selectedDestination: string
    var preferences: Preferences

    constructor ()
      ensures searchQuery == "" && selectedCategory == "all" && !showPreferences
      ensures selectedDestination == "" && preferences == InitialPreferences
    {
      searchQuery := "";
      selectedCategory := "all";
      showPreferences := false;
      selectedDestination := "";
      preferences := InitialPreferences;
    }

    /** `toggleInterest`. */
    method ToggleInterest(interest: string)
      modifies this`preferences
      ensures preferences == old(preferences).(interests := Toggle(old(preferences).interests, interest))
    {
      preferences := preferences.(interests := Toggle(preferences.interests, interest));
    }

    /** The travelers input. */
    method SetTravelers(parsed: Option<int>)
      modifies this`preferences
      ensures preferences == old(preferences).(travelers := IntOrOne(parsed))
    {
      preferences := preferences.(travelers := IntOrOne(parsed));
    }

    /** `handleDestinationSelect`: picks a catalogue entry and opens the
        preferences. */
    method HandleDestinationSelect(name: string)
      modifies this`selectedDestination, this`showPreferences
      ensures selectedDestination == name && showPreferences
    {
      selectedDestination := name;
      showPreferences := true;
    }

    /** `handleCustomSearch`: a non-blank query, trimmed, becomes the
        destination and opens the preferences; a blank one does nothing. */
    method HandleCustomSearch()
      modifies this`selectedDestination, this`showPreferences
      ensures IsBlank(searchQuery) ==>
        selectedDestination == old(selectedDestination) && showPreferences == old(showPreferences)
      ensures !IsBlank(searchQuery) ==> selectedDestination == Trim(searchQuery) && showPreferences
    {
      if !IsBlank(searchQuery) {
        selectedDestination := Trim(searchQuery);
        showPreferences := true;
      }
    }

    /** `handleGenerateItinerary`: a blank destination is refused (the
        alert) and nothing changes; otherwise the preferences close, the
        form resets, and the destination, untrimmed, is handed on with a
        request built from the form as it was. */
    method HandleGenerateItinerary() returns (handOff: Option<(string, ItineraryRequest)>)
      modifies this`showPreferences, this`selectedDestination, this`preferences
      ensures IsBlank(old(selectedDestination)) ==>
        handOff == None && showPreferences == old(showPreferences)
        && selectedDestination == old(selectedDestination) && preferences == old(preferences)
      ensures !IsBlank(old(selectedDestination)) ==>
        && handOff == Some((old(selectedDestination), RequestOf(old(selectedDestination), old(preferences))))
        && !showPreferences && selectedDestination == "" && preferences == InitialPreferences
    {
      if IsBlank(selectedDestination) {
        return None;
      }
      var request := RequestOf(selectedDestination, preferences);
      handOff := Some((selectedDestination, request));
      showPreferences := false;
      selectedDestination := "";
      preferences := InitialPreferences;
    }
  }
}
