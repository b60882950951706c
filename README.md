# Travel planner core — a Dafny model

This project models the core of a single-page travel planner written in React
and TypeScript. A traveller does four things:

1. They pick or type a destination and fill in preferences: dates, budget,
   number of travellers and interests.
2. They ask an AI service for an itinerary. Without an API key, or after any
   failure, the service answers with a built-in mock.
3. They preview the itinerary and turn it into a trip.
4. They then manage trips: add destinations by hand or from a generated
   itinerary, tick activities off, and add and remove activities and notes.

The app also shows statistics (progress, AI share, upcoming trips), a small
progress tracker that animates the generation steps, and a user profile kept
in browser storage.

The model has one module per source file:

| module | source |
|---|---|
| `AIService` | `src/services/aiService.ts` |
| `App` | `src/App.tsx` |
| `TripDetails`, `DestinationCard`, `DestinationSearch`, `TripCard`, `TripsList`, `AIItineraryGenerator`, `ItineraryPreview`, `AIItineraryPreview`, `ProcessingTracker`, `UserProfile` | the component of the same name |
| `Types` | `src/types/index.ts` |

A few shared modules hold code that the source repeats in several places:

- `Text` holds JavaScript's `trim`, `toLowerCase`, `includes`, `join` and the
  decimal `toString` used for ids.
- `Seqs` holds `filter`, filter-and-count, toggling membership, and replacing
  an element by key.
- `Dates` holds the `Math.ceil` day count.
- `TripStats` holds the activity totals that three components compute.
- `ItineraryConversion` holds the itinerary-to-destination conversion that
  `App.tsx` and `TripDetails.tsx` both write out.
- `Icons` holds the emoji tables that three components repeat.

Each component that keeps state with `useState` is a `class`. Its fields are
the state variables and its methods are the event handlers. A handler that
calls a parent callback (`onUpdateTrip`, `onGenerateItinerary`,
`onCreateTrip`) returns what it would pass to that callback as an `Option`.
`None` means the callback is not called.

The outside world is passed in as parameters:

- `Backend` bundles the configuration, the network (a function from a
  provider request to a provider result), the JSON parser and the date
  parser.
- `now` stands for `Date.now()`; `nowIso` stands for
  `new Date().toISOString()`.

Where the written description of the system and the code disagree, the model
follows the code:

- The response's `overview` is never validated. `generateItinerary` only
  checks `activities` and `accommodations`, so `overview` stays optional.
- The accommodation kind `riad` does not appear in the code's icon tables, so
  it falls back to the hotel icon like any unknown kind.
- An activity added by hand in `DestinationCard` has no category. The model
  uses the empty string.
- Every failure of the AI call falls back to the mock itinerary, and
  `generateItinerary` never throws. The error branches in `App.tsx` and
  `TripDetails.tsx` therefore cannot be reached, and the model has none.

## Model

| member | source | states |
|---|---|---|
| Types.OrElse | src/services/aiService.ts:225-228 | `x \|\| d` on an optional string: the value when it is non-empty, otherwise the default |
| Types.IntOrOne | src/components/DestinationSearch.tsx:588 | `parseInt(v) \|\| 1`: never 0; a non-zero parse is kept; NaN (None) and 0 both give 1 |
| Text.Trim | src/components/DestinationCard.tsx:21-24 | `trim()`: the result is a slice of the input, only white space is cut from both ends, neither end of a non-empty result is white space, and the result is empty iff the input is blank |
| Text.TrimIdempotent | src/components/DestinationSearch.tsx:232-233 | trimming twice is trimming once |
| Text.Lower | src/components/DestinationSearch.tsx:210-212 | `toLowerCase()`: same length, every character mapped by the ASCII lower-case map |
| Text.Includes | src/components/DestinationSearch.tsx:210-212 | `includes(needle)` holds iff the needle occurs at some offset |
| Text.IncludesNeedsChar | src/components/DestinationSearch.tsx:210-212 | a needle holding a character the haystack lacks is not included |
| Text.JoinEmptyIff | src/services/aiService.ts:226 | `join(', ')` is empty iff there are no items or exactly one empty item |
| Text.NatToString | src/components/DestinationCard.tsx:23 | `Date.now().toString()`: a non-empty string of decimal digits, one digit iff below 10 |
| Text.NatToStringInjective | src/App.tsx:39 | different clock readings give different ids |
| Seqs.Filter | src/components/DestinationCard.tsx:70 | `filter`: no longer than the input, keeps exactly the elements that pass |
| Seqs.FilterIsSubsequence | src/components/DestinationCard.tsx:77 | `filter` keeps the input's order |
| Seqs.FilterAll | src/components/DestinationSearch.tsx:208-215 | a filter everything passes is the identity |
| Seqs.FilterAppend | src/components/DestinationSearch.tsx:208-215 | filtering distributes over concatenation |
| Seqs.FilterMultiplicity | src/components/DestinationCard.tsx:67-79 | `filter` keeps every copy of an element that passes and none of one that fails |
| Seqs.FilterShorter | src/components/DestinationCard.tsx:67-72 | removing an element that is present shortens the list |
| Seqs.Count | src/components/ProcessingTracker.tsx:111-112 | `filter(p).length`: at most the length; 0 iff nothing passes; the length iff everything passes |
| Seqs.CountAppend | src/components/TripCard.tsx:21-23 | the count distributes over concatenation |
| Seqs.CountPrefix | src/components/ProcessingTracker.tsx:111-112 | when exactly the first m elements pass, the count is min(m, length) |
| Seqs.CountIsFilterLength | src/components/TripCard.tsx:22 | the count is the length of the filtered list |
| Seqs.Toggle | src/components/AIItineraryGenerator.tsx:37-44 | the toggled item is present afterwards iff it was absent before; other items are kept; a new item goes at the end; removing is the filter that drops every copy of the item, so every other item keeps its multiplicity and order |
| Seqs.ToggleTwice | src/components/DestinationSearch.tsx:217-224 | toggling the same item twice gives back the same set of items |
| Seqs.ReplaceByKey | src/App.tsx:84-89 | `map(t => t.id === u.id ? u : t)`: same length and keys; elements with another key unchanged; elements with the same key replaced |
| Seqs.ReplaceByKeyProperties | src/components/TripDetails.tsx:160-167 | an unknown key leaves the list unchanged; replacing twice is replacing once |
| Dates.CeilDays | src/components/AIItineraryGenerator.tsx:59 | `Math.ceil(ms / 86400000)`: the least d with ms <= d days |
| Dates.CeilDaysUnique | src/components/AIItineraryGenerator.tsx:59 | that bound pins the day count down |
| Dates.CeilDaysWhole | src/services/aiService.ts:216 | a whole number of days rounds to itself |
| Dates.DaysBetween | src/services/aiService.ts:215-217 | the day count between two parsed dates lies within one day of the difference, rounded up |
| Dates.PlannedDays | src/components/AIItineraryGenerator.tsx:57-60 | `getDays()`: 0 unless both dates are set, otherwise the rounded-up day count |
| Dates.PlannedDaysPositive | src/components/ItineraryPreview.tsx:87 | the day count is shown (positive) iff both dates are set and departure is after arrival |
| AIService.DefaultConfig | src/services/aiService.ts:12-17 | provider openai, model gpt-4, base URL from the environment, an empty key iff the environment key is unset or empty |
| AIService.TripDays | src/services/aiService.ts:215-217 | 3 days unless both dates are set, otherwise the day count |
| AIService.ActivityTarget | src/services/aiService.ts:255 | `Math.max(days * 2, 6)`: at least 6 and at least twice the days, and one of the two |
| AIService.InterestsText | src/services/aiService.ts:226 | "General tourism" when no interests are given, otherwise the joined list or the fallback when that is empty |
| AIService.CreatePrompt | src/services/aiService.ts:214-256 | the prompt carries the destination, the day count, the activity target, travellers defaulting to 1, budget defaulting to "No preference", interests, and dates defaulting to "Flexible" |
| AIService.Route | src/services/aiService.ts:29-40 | dispatch by provider: fails iff the provider is unsupported or a custom provider has no base URL; each provider's URL, with the OpenAI base-URL override |
| AIService.CallAI | src/services/aiService.ts:20-46 | an empty key gives the mock; the mock is returned iff the key is empty, routing fails or the network call fails; otherwise the provider's text |
| AIService.MockReply | src/services/aiService.ts:163-212 | the mock has 3 activities, 2 accommodations and a non-empty overview |
| AIService.Decode | src/services/aiService.ts:264 | the mock text parses back to the mock, undefined text fails to parse, provider text goes through the parser |
| AIService.StampActivities | src/services/aiService.ts:267-271 | same length, every activity marked AI-generated, nothing else changed |
| AIService.StampAccommodations | src/services/aiService.ts:272-275 | same length, every accommodation marked AI-generated, nothing else changed |
| AIService.Assemble | src/services/aiService.ts:266-281 | a response is built iff both lists are present, from those lists stamped |
| AIService.MockItinerary | src/services/aiService.ts:282-298 | the fallback response: 3 stamped activities, 2 stamped accommodations, a non-empty overview |
| AIService.GenerateItinerary | src/services/aiService.ts:258-299 | always stamped; the mock without a key; the assembled provider reply when it parses with both lists; the mock otherwise |
| AIService.MissingActivitiesFallsBack | src/services/aiService.ts:266-298 | a reply without activities gives the mock itinerary |
| AIService.ProviderFlagOverridden | src/services/aiService.ts:267-271 | a provider that marks an activity as not AI-generated is overruled |
| ItineraryConversion.SamePrefixSameRest | src/App.tsx:46 | two ids with the same prefix and the same text are the same suffix |
| ItineraryConversion.ActivityIdsDistinct | src/App.tsx:44-48 | the ids `${now}-${index}` are distinct for distinct indices |
| ItineraryConversion.ToActivity | src/App.tsx:44-48 | an activity keeps every described field, gets the given id and is not completed |
| ItineraryConversion.ToAccommodation | src/App.tsx:49-52 | an accommodation keeps every described field and gets the given id |
| ItineraryConversion.ToActivities | src/App.tsx:44-48 | one activity per itinerary activity, with id `${now}-${k}` |
| ItineraryConversion.ToAccommodations | src/App.tsx:49-52 | one accommodation per itinerary accommodation, with id `${now}-acc-${k}` |
| ItineraryConversion.FromItinerary | src/App.tsx:38-56 | a destination with the clock id, the overview as description, the given dates, converted lists, no notes, and both AI flags |
| ItineraryConversion.DescribeToActivities | src/components/TripDetails.tsx:76-80 | converting the activities and describing them again gives back the itinerary's activities |
| App.TripFromItinerary | src/App.tsx:35-65 | the new trip: clock id, given name, description "AI-generated trip to …", the preference dates, exactly one destination, the one built from the itinerary as finalized, so AI-generated and finalized with all activities open |
| App.AppState.constructor | src/App.tsx:9-15 | starts on the search view with no trips, no selection, no itinerary, not generating |
| App.AppState.HandleGenerateItinerary | src/App.tsx:17-33 | stores the preferences and the generated itinerary, switches to the itinerary view, clears the busy flag; trips untouched |
| App.AppState.HandleCreateTripFromItinerary | src/App.tsx:35-74 | does nothing without an itinerary and preferences; otherwise appends the new trip, selects it, shows its details and clears the itinerary and preferences |
| App.AppState.AddTrip | src/App.tsx:76-82 | appends the trip with the clock id |
| App.AppState.UpdateTrip | src/App.tsx:84-89 | replaces the trips with the same id and selects the updated trip |
| App.AppState.SelectTrip | src/App.tsx:91-94 | selects the trip and shows its details |
| App.AppState.GoBackToTrips | src/App.tsx:96-99 | clears the selection and shows the list |
| App.AppState.GoBackToSearch | src/App.tsx:101-106 | shows the search view and clears the itinerary, preferences and selection |
| App.AppState.GoToTrips | src/App.tsx:108-112 | shows the list and clears the itinerary and preferences |
| App.AppState.RenderCurrentView | src/App.tsx:115-173 | picks the screen for the view; the itinerary view without data falls back to search, the details view without a selection falls back to the list |
| Icons.CategoryIcon | src/components/DestinationCard.tsx:81-92 | the table's icon for a known category, and the pin iff the category is unknown |
| Icons.AccommodationIcon | src/components/DestinationCard.tsx:94-103 | the table's icon for a known kind; the hotel iff the kind is "hotel" or unknown |
| Icons.CategoryIconInjective | src/components/ItineraryPreview.tsx:26-37 | different known categories get different icons |
| Icons.AccommodationIconInjective | src/components/AIItineraryPreview.tsx:32-42 | different known accommodation kinds get different icons |
| TripStats.TotalActivities | src/components/TripCard.tsx:20 | the sum of list lengths; 0 iff every destination has no activities |
| TripStats.CompletedActivities | src/components/TripCard.tsx:21-23 | at most the total, and equal to it iff every activity is done |
| TripStats.StatsAppend | src/components/TripsList.tsx:19-26 | both totals grow by exactly the added destination's share |
| TripStats.StatsIgnoreOtherFields | src/components/TripDetails.tsx:179-182 | changing a destination without touching its activities leaves both totals alone |
| TripStats.Percent | src/components/TripDetails.tsx:336 | the share r of a positive whole satisfies r × whole = 100 × part, so it lies in [0, 100] and is 100 iff the part is the whole |
| TripStats.Progress | src/components/TripCard.tsx:24 | 0 without activities, otherwise the percentage of completed activities among all; in [0, 100] and 100 iff there are activities and all are done |
| TripStats.AIGeneratedCount | src/components/TripDetails.tsx:184 | the number of destinations with an AI-generation stamp; at most all of them, equal iff all are AI-generated |
| TripStats.FinalizedCount | src/components/TripDetails.tsx:185 | the number of destinations with a finalization stamp; at most all of them, 0 iff none is finalized |
| TripStats.AIShare | src/components/TripDetails.tsx:336 | the percentage of AI-generated destinations among max(count, 1) destinations; 0 for none, in [0, 100] and 100 iff there are destinations and all are AI-generated |
| TripCard.CompletedMeansAllDone | src/components/TripCard.tsx:27 | a trip is completed iff it has activities and all are done |
| TripCard.StatusColorOf | src/components/TripCard.tsx:30-34 | green iff completed; blue iff upcoming and not completed |
| TripCard.FooterLabelOf | src/components/TripCard.tsx:121 | "Upcoming" iff upcoming; "Completed" iff completed and not upcoming |
| TripCard.ColorAndLabelOrder | src/components/TripCard.tsx:30-34 | a trip both completed and upcoming is coloured completed but labelled upcoming |
| TripCard.PluralIffNotOne | src/components/TripCard.tsx:83 | "destinations" and "activities" end in the plural form iff the count is not 1 |
| TripCard.Initial | src/components/TripCard.tsx:111 | `charAt(0).toUpperCase()`: empty for an empty name, else the upper-cased first letter |
| TripCard.Initials | src/components/TripCard.tsx:105-113 | at most three avatars, each the initial of the destination at that position |
| TripCard.Overflow | src/components/TripCard.tsx:114-118 | the "+n" badge appears iff there are more than three destinations |
| TripCard.AvatarsCoverDestinations | src/components/TripCard.tsx:105-118 | avatars plus the badge count equal the number of destinations |
| TripsList.TotalDestinations | src/components/TripsList.tsx:18 | 0 iff no trip has a destination |
| TripsList.AllActivities | src/components/TripsList.tsx:19-21 | 0 iff no trip has an activity |
| TripsList.AllCompleted | src/components/TripsList.tsx:22-26 | completed activities never exceed all activities |
| TripsList.InsightsOf | src/components/TripsList.tsx:18-29 | the figures are the trip count, all destinations, all activities, all completed activities and the number of upcoming trips; upcoming at most all trips, completed at most all activities, none upcoming iff no trip starts after now |
| TripsList.InsightsShown | src/components/TripsList.tsx:65 | the panel is shown iff there is a trip, and always after adding one |
| TripsList.InsightsAppend | src/components/TripsList.tsx:18-26 | adding a trip adds exactly its destinations, activities and completed activities |
| DestinationCard.ManualActivity | src/components/DestinationCard.tsx:22-27 | a new activity has the clock id, the given name, is open and has no category |
| DestinationCard.FlipMatching | src/components/DestinationCard.tsx:56-65 | only the `completed` flag changes, and it flips exactly for matching ids |
| DestinationCard.ToggleActivity | src/components/DestinationCard.tsx:56-65 | the destination changes only in its activities |
| DestinationCard.ToggleActivityTwice | src/components/DestinationCard.tsx:56-65 | toggling twice gives back the destination |
| DestinationCard.ToggleMovesCountByOne | src/components/DestinationCard.tsx:56-65 | toggling a unique id moves the done count by exactly one |
| DestinationCard.RemoveActivity | src/components/DestinationCard.tsx:67-72 | the activities become the filter dropping the id: none with the id remains, every other one keeps its multiplicity and order, nothing else changes |
| DestinationCard.RemoveNote | src/components/DestinationCard.tsx:74-79 | the notes become the filter dropping the id: none with the id remains, every other one keeps its multiplicity and order, nothing else changes |
| DestinationCard.BadgesExclusive | src/components/DestinationCard.tsx:107-123 | the AI badge and the finalized badge never show together; for AI destinations exactly one shows |
| DestinationCard.CardState.constructor | src/components/DestinationCard.tsx:13-18 | empty inputs, all forms closed |
| DestinationCard.CardState.AddActivity | src/components/DestinationCard.tsx:20-36 | a blank input changes nothing; otherwise appends the trimmed activity, clears the input and closes the form |
| DestinationCard.CardState.AddNote | src/components/DestinationCard.tsx:38-54 | a blank input changes nothing; otherwise appends the trimmed note, clears the input and closes the form |
| DestinationCard.AddedActivityIsClean | src/components/DestinationCard.tsx:20-27 | an added activity's name is non-blank and already trimmed |
| DestinationSearch.FilteredDestinations | src/components/DestinationSearch.tsx:208-215 | corrected filter: keeps catalogue order and holds exactly the entries matching the trimmed query and the category |
| DestinationSearch.FilteredDestinationsAsWritten | src/components/DestinationSearch.tsx:208-215 | filter as written: keeps catalogue order and holds exactly the entries matching the untrimmed query and the category |
| DestinationSearch.BlankQueryShowsAll | src/components/DestinationSearch.tsx:209 | a blank query with category "all" shows the whole catalogue, in both versions |
| DestinationSearch.BlankQueryKeepsAll | src/components/DestinationSearch.tsx:208-215 | with a blank query and category "all", the filter keeps any list of destinations whole, in both versions |
| DestinationSearch.TrailingSpaceHidesRome | src/components/DestinationSearch.tsx:208-215 | the query "Rome " hides Rome as written, and the corrected filter shows it |
| DestinationSearch.RomeNotMentioned | src/components/DestinationSearch.tsx:139-149 | "rome " occurs in neither the name, the country nor the description of Rome |
| DestinationSearch.RomeLacksO | src/components/DestinationSearch.tsx:144 | Rome's description has no letter o in either case |
| DestinationSearch.TrimOfTrailingSpace | src/components/DestinationSearch.tsx:209 | "Rome " trims to "Rome" |
| DestinationSearch.LowerKeepsAbsence | src/components/DestinationSearch.tsx:212 | lower-casing cannot create a letter absent in both cases |
| DestinationSearch.MatchesSearchProperties | src/components/DestinationSearch.tsx:208-215 | the corrected match ignores surrounding white space, and a query equal to the name always matches |
| DestinationSearch.CategoryIconOf | src/components/DestinationSearch.tsx:280-283 | the icon of the chip whose id is the category (all→globe, city→building, beach→waves, mountain→mountain, cultural→camera, adventure→trending-up), the globe for any other category; so the globe iff it is none of the five named chips |
| DestinationSearch.ChipIconsDistinct | src/components/DestinationSearch.tsx:189-196 | two different chips carry different icons |
| DestinationSearch.RequestOf | src/components/DestinationSearch.tsx:253-260 | the request carries the destination and every preference |
| DestinationSearch.SearchState.constructor | src/components/DestinationSearch.tsx:27-39 | empty query, category "all", no selection, default preferences with two travellers |
| DestinationSearch.SearchState.ToggleInterest | src/components/DestinationSearch.tsx:217-224 | toggles the interest and changes nothing else |
| DestinationSearch.SearchState.SetTravelers | src/components/DestinationSearch.tsx:588 | sets travellers to the parsed value or 1 |
| DestinationSearch.SearchState.HandleDestinationSelect | src/components/DestinationSearch.tsx:226-229 | selects the name and opens the preferences |
| DestinationSearch.SearchState.HandleCustomSearch | src/components/DestinationSearch.tsx:231-236 | a blank query changes nothing; otherwise selects the trimmed query and opens the preferences |
| DestinationSearch.SearchState.HandleGenerateItinerary | src/components/DestinationSearch.tsx:244-278 | a blank selection hands nothing off and changes nothing; otherwise hands off the untrimmed selection and its request, then resets the form |
| AIItineraryGenerator.RequestFor | src/components/AIItineraryGenerator.tsx:46-55 | the request carries the destination, both dates and every preference |
| AIItineraryGenerator.PromptFromForm | src/components/AIItineraryGenerator.tsx:46-60 | the prompt built from the form has its destination, travellers and budget; its day count is the form's day count when both dates are set, while the form shows 0 and the prompt assumes 3 otherwise |
| AIItineraryGenerator.GeneratorState.constructor | src/components/AIItineraryGenerator.tsx:20-24 | no budget, one traveller, no interests |
| AIItineraryGenerator.GeneratorState.SetBudget | src/components/AIItineraryGenerator.tsx:93-96 | sets the budget only |
| AIItineraryGenerator.GeneratorState.SetTravelers | src/components/AIItineraryGenerator.tsx:119 | sets travellers to the parsed value or 1 |
| AIItineraryGenerator.GeneratorState.ToggleInterest | src/components/AIItineraryGenerator.tsx:37-44 | toggles the interest and changes nothing else |
| AIItineraryGenerator.GeneratorState.HandleGenerate | src/components/AIItineraryGenerator.tsx:46-55 | hands off the request built from the form |
| AIItineraryPreview.LayoutOf | src/components/AIItineraryPreview.tsx:59-105 | the first six activities in order, a "+n more" line iff there are more, shown plus hidden equals all, every accommodation |
| ItineraryPreview.DefaultTripName | src/components/ItineraryPreview.tsx:24 | "<destination> Adventure": never blank and starts with the destination |
| ItineraryPreview.SummaryOf | src/components/ItineraryPreview.tsx:87-108 | the day count shows iff positive; activity, accommodation and traveller counts; the budget row iff a budget is set |
| ItineraryPreview.SummaryMatchesCreatedTrip | src/App.tsx:35-65 | the trip created from a preview has as many activities and accommodations as the preview counts |
| ItineraryPreview.PreviewState.constructor | src/components/ItineraryPreview.tsx:24 | the name field starts at the default name |
| ItineraryPreview.PreviewState.SetTripName | src/components/ItineraryPreview.tsx:24 | sets the name |
| ItineraryPreview.PreviewState.CreateTrip | src/components/ItineraryPreview.tsx:275-276 | hands off the name iff it is not blank |
| TripDetails.ManualDestination | src/components/TripDetails.tsx:28-40 | clock id, trimmed name and description, the form's dates, empty lists, no AI flags |
| TripDetails.UpdateDestination | src/components/TripDetails.tsx:160-167 | replaces the destinations with the same id and keeps their number |
| TripDetails.GeneratedDestinationStats | src/components/TripDetails.tsx:67-106 | adding a generated destination adds its activities to the total, leaves the completed count, and adds one AI-generated destination |
| TripDetails.AcceptAndCustomizeDiffer | src/components/TripDetails.tsx:67-147 | accepting and customising give the same destination except for the finalized flag |
| TripDetails.DetailsState.constructor | src/components/TripDetails.tsx:16-26 | all panels closed, no itinerary, empty form |
| TripDetails.DetailsState.AddDestination | src/components/TripDetails.tsx:28-53 | a blank name hands nothing off; otherwise hands off the trip with the new destination appended, and resets and closes the form |
| TripDetails.DetailsState.HandleGenerateAIItinerary | src/components/TripDetails.tsx:153-158 | a blank name changes nothing; otherwise remembers the trimmed name and opens the generator |
| TripDetails.DetailsState.HandleAIGeneration | src/components/TripDetails.tsx:55-65 | stores the generated itinerary and clears the busy flag |
| TripDetails.DetailsState.AddGenerated | src/components/TripDetails.tsx:67-106 | the shared body of accept and customise: without an itinerary or name nothing happens; otherwise the generated destination is appended and all generation state is cleared |
| TripDetails.DetailsState.AcceptAIItinerary | src/components/TripDetails.tsx:67-106 | without an itinerary or a destination name nothing changes; otherwise appends the generated destination marked finalized |
| TripDetails.DetailsState.CustomizeAIItinerary | src/components/TripDetails.tsx:108-147 | without an itinerary or a destination name nothing changes; otherwise appends the generated destination marked not finalized |
| TripDetails.DetailsState.RejectAIItinerary | src/components/TripDetails.tsx:149-151 | drops the itinerary |
| ProcessingTracker.CompletedWhileRunning | src/components/ProcessingTracker.tsx:111-112 | while step k runs, exactly k steps are completed |
| ProcessingTracker.CompletedWhenDone | src/components/ProcessingTracker.tsx:111-112 | after m steps, min(m, 4) steps are completed |
| ProcessingTracker.TotalDurationAppend | src/components/ProcessingTracker.tsx:24-53 | the total duration grows by the added step's duration |
| ProcessingTracker.Tracker.constructor | src/components/ProcessingTracker.tsx:24-53 | the four pending steps, nothing scheduled |
| ProcessingTracker.Tracker.Hide | src/components/ProcessingTracker.tsx:55-61 | resets to step 0 with every step pending |
| ProcessingTracker.Tracker.ProcessStep | src/components/ProcessingTracker.tsx:66-97 | past the last step, completes every step and schedules the completion callback if there is one; otherwise marks the current step as processing |
| ProcessingTracker.Tracker.StepTimeout | src/components/ProcessingTracker.tsx:86-96 | completes the current step, moves to the next, and advances the clock by the step's duration plus the 300 ms gap |
| ProcessingTracker.Tracker.Run | src/components/ProcessingTracker.tsx:66-97 | running the chain completes every step and takes the sum of the durations plus a 300 ms gap per step |
| ProcessingTracker.ChainDuration | src/components/ProcessingTracker.tsx:24-97 | the whole chain, completion delay included, takes 11200 ms |
| UserProfile.Or | src/components/UserProfile.tsx:34-37 | `x \|\| fallback`: the value when it is non-empty, otherwise the fallback |
| UserProfile.LoadProfile | src/components/UserProfile.tsx:24-43 | the guest user without stored data; stored fields when present; the empty bio and location, the current time and the default preferences otherwise |
| UserProfile.SaveProfile | src/components/UserProfile.tsx:80-91 | stores name and email, then bio, location, join date and preferences |
| UserProfile.SaveLoadRoundTrip | src/components/UserProfile.tsx:24-91 | loading what was saved gives back the profile, except the avatar and an empty join date |
| UserProfile.LoadSaveLoad | src/components/UserProfile.tsx:24-91 | loading, saving and loading again, at any later time, gives the first load back without the avatar |
| UserProfile.ProfileState.constructor | src/components/UserProfile.tsx:24-45 | loads the profile and starts editing a copy of it |
| UserProfile.ProfileState.Save | src/components/UserProfile.tsx:80-95 | stores the edits, adopts them and leaves editing |
| UserProfile.ProfileState.Cancel | src/components/UserProfile.tsx:97-100 | drops the edits and leaves editing |
| UserProfile.ProfileState.ToggleEditing | src/components/UserProfile.tsx:161-162 | flips the editing flag and keeps any unsaved edits |
| UserProfile.ProfileState.ToggleInterest | src/components/UserProfile.tsx:102-112 | toggles the interest in the edited preferences only |

## Left out

- The HTTP calls to each provider are not modelled: request bodies, headers and response shapes (`src/services/aiService.ts:48-161`). The network is one function from a provider request to a text or a failure, so a malformed response is just a failure.
- JSON parsing and serialisation are parameters. The mock text is taken to parse back to the mock reply.
- The Vite environment variables are parameters of `DefaultConfig`.
- `new Date(...)` parsing is a parameter that returns a number. An unparseable date (NaN) is not modelled: the parsed value is always a number.
- Percentages (`TripStats.Percent`, `TripStats.Progress`, `TripStats.AIShare`) are exact reals. The source computes them in IEEE doubles, so rounding of the division is not modelled; the `=== 100` test agrees with the real one for any count a trip realistically holds.
- `toLocaleDateString`, `Math.round` and other display-only formatting are not modelled.
- The text of the prompt template is not modelled. The prompt is a record of the values it interpolates.
- `localStorage` is a value of type `Storage` that the profile methods read and replace.
- Timers and `async` are not modelled. Each handler runs to completion, and a pending timer is a step a method takes later.
- `ProcessingTracker`'s cleanup clears only the last timer it set. The model has no cancellation, so an earlier timer that is still pending is not captured.
- JSX, CSS, `alert` and `console` are not modelled. `Navigation`, `Logo` and the sign-in dialog are not part of this model.
- Upper- and lower-casing map ASCII letters only. Unicode case mapping, and `charAt(0).toUpperCase()` producing two characters, are not modelled.
- Each handler reads the clock once. The source calls `Date.now()` several times per handler, and those calls could differ.
- The per-field `onChange` setters that only assign a field are not modelled. The exceptions are the traveller count and the budget buttons.
- ItineraryPreview's Regenerate button is not modelled. It is enabled iff no generation is running, and clicking it repeats `App.AppState.HandleGenerateItinerary` with the same preferences.
- Catalogue fields shown only on screen are not modelled: image, rating, popular activities, best time and average cost.
- Icons.CategoryIcon: lookups of JavaScript prototype keys such as `constructor` in the icon tables are not modelled.
- DestinationSearch.SearchState.HandleGenerateItinerary: the request keeps the untrimmed destination, as the source does. No property depends on it being trimmed.
- DestinationSearch.SearchState.SetTravelers: a negative traveller count passes through as in the source. No bound is stated for it.

## Findings

| source | as written | input that shows it | evidently intended | confidence | as-written member | corrected member |
|---|---|---|---|---|---|---|
| src/components/DestinationSearch.tsx:208-215 | the blank test trims the query, but the match against name, country and description uses the untrimmed query | the query "Rome " (a trailing space) with category "all" hides Rome, whose name is "Rome" | the search matches the trimmed query, as the custom-search handler at lines 231-236 already trims it | not executed | DestinationSearch.TrailingSpaceHidesRome | DestinationSearch.MatchesSearchProperties |
