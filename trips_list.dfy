/** The insights dashboard of src/components/TripsList.tsx: totals over
    all trips. */
module TripsList {
  import opened Types
  import opened Seqs
  import opened Dates
  import opened TripStats
  import opened TripCard

  datatype Insights = Insights(
    trips: nat, destinations: nat, activities: nat, completed: nat, upcoming: nat)

  /** `trips.reduce((sum, trip) => sum + trip.destinations.length, 0)`. */
  function TotalDestinations(trips: seq<Trip>): (n: nat)
    ensures n == 0 <==> forall i :: 0 <= i < |trips| ==> trips[i].destinations == []
  {
    if trips == [] then 0 else |trips[0].destinations| + TotalDestinations(trips[1..])
  }

  /** The activities of every destination of every trip: none exactly
      when no trip has an activity. */
  function AllActivities(trips: seq<Trip>): (n: nat)
    ensures n == 0 <==> forall i :: 0 <= i < |trips| ==> TotalActivities(trips[i].destinations) == 0
  {
    if trips == [] then 0 else TotalActivities(trips[0].destinations) + AllActivities(trips[1..])
  }

  /** The completed activities of every trip: never more than all
      activities. */
  function AllCompleted(trips: seq<Trip>): (n: nat)
    ensures n <= AllActivities(trips)
  {
    if trips == [] then 0 else CompletedActivities(trips[0].destinations) + AllCompleted(trips[1..])
  }

  /** The test `trip => trip.startDate && new Date(trip.startDate) > new Date()`. */
  function Upcoming(parse: DateParser, now: int): Trip -> bool
  {
    t => IsUpcoming(t, parse, now)
  }

  /** The dashboard figures. The upcoming trips are counted with the same
      test as the trip card's, so they never outnumber the trips. */
  function InsightsOf(trips: seq<Trip>, parse: DateParser, now: int): (r: Insights)
    ensures r.trips == |trips| && r.destinations == TotalDestinations(trips)
    ensures r.activities == AllActivities(trips) && r.completed == AllCompleted(trips)
    ensures r.upcoming == Count(trips, Upcoming(parse, now))
    ensures r.upcoming <= r.trips
    ensures r.completed <= r.activities
    ensures r.upcoming == 0 <==> forall i :: 0 <= i < |trips| ==> !IsUpcoming(trips[i], parse, now)
  {
    Insights(|trips|, TotalDestinations(trips), AllActivities(trips), AllCompleted(trips),
      Count(trips, Upcoming(parse, now)))
  }

  /** `trips.length > 0 && (...)`: the dashboard is shown. */
  predicate ShowInsights(trips: seq<Trip>)
  {
    |trips| > 0
  }

  /** The dashboard is shown exactly when it would count a trip, and it
      stays shown once a trip has been added. */
  lemma InsightsShown(trips: seq<Trip>, t: Trip, parse: DateParser, now: int)
    ensures ShowInsights(trips) <==> InsightsOf(trips, parse, now).trips > 0
    ensures ShowInsights(trips + [t])
  {
  }

  /** A trip appended to the list adds its own figures to the totals. */
  lemma {:induction false} InsightsAppend(trips: seq<Trip>, t: Trip)
    ensures TotalDestinations(trips + [t]) == TotalDestinations(trips) + |t.destinations|
    ensures AllActivities(trips + [t]) == AllActivities(trips) + TotalActivities(t.destinations)
    ensures AllCompleted(trips + [t]) == AllCompleted(trips) + CompletedActivities(t.destinations)
  {
    if trips == [] {
      assert trips + [t] == [t];
    } else {
      assert (trips + [t])[1..] == trips[1..] + [t];
      InsightsAppend(trips[1..], t);
    }
  }
}
