/** The in-dialog preview of src/components/AIItineraryPreview.tsx: at
    most six activities are listed, the rest are summarised as a count,
    and every accommodation is listed. */
module AIItineraryPreview {
  import opened Wrappers
  import opened Types

  const ListedActivities: nat := 6

  /** What the preview lists. */
  datatype Layout = Layout(
    activities: seq<ItineraryActivity>, more: Option<nat>, accommodations: seq<ItineraryAccommodation>)

  /** `activities.slice(0, 6)`, the `+N more` line when there are more
      than six, and all the accommodations. */
  function LayoutOf(itinerary: ItineraryResponse): (l: Layout)
    ensures l.activities <= itinerary.activities
    ensures |l.activities| == if |itinerary.activities| < ListedActivities then |itinerary.activities| else ListedActivities
    ensures l.more.Some? <==> |itinerary.activities| > ListedActivities
    ensures |l.activities| + (if l.more.Some? then l.more.value else 0) == |itinerary.activities|
    ensures l.accommodations == itinerary.accommodations
  {
    var n := |itinerary.activities|;
    var shown := if n < ListedActivities then itinerary.activities else itinerary.activities[..ListedActivities];
    Layout(shown, if n > ListedActivities then Some(n - ListedActivities) else None, itinerary.accommodations)
  }
}
