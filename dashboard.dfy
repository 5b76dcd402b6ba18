/** src/components/Dashboard.jsx: the statistics cards and the recent-alerts list. */
module Dashboard {
  import opened Wrappers

  /** The list shows at most this many of the feed's alerts. */
  const RecentLimit: nat := 10

  /** `alerts.slice(0, 10)` */
  function RecentAlerts<A>(alerts: seq<A>): (shown: seq<A>)
    ensures |shown| == Min(RecentLimit, |alerts|)
    ensures shown <= alerts
  {
    alerts[..Min(RecentLimit, |alerts|)]
  }

  /** `x?.length || 0`: a missing list counts as 0. */
  function ListCount<T>(list: Option<seq<T>>): (n: nat)
    ensures list.Some? ==> n == |list.value|
    ensures list.None? ==> n == 0
  {
    match list
    case Some(xs) => |xs|
    case None => 0
  }

  /** `total_count || 0`: a missing total counts as 0. */
  function TotalCount(total: Option<int>): (n: int)
    ensures total.Some? ==> n == total.value
    ensures total.None? ==> n == 0
  {
    match total
    case Some(t) => t
    case None => 0
  }

  datatype Stats = Stats(geofences: int, vehicles: int, activeAlerts: int, violations: int)

  /** The cards before any response has arrived, and after a failed fetch. */
  const InitialStats: Stats := Stats(0, 0, 0, 0)

  /** `setStats({...})` after the four responses. */
  function StatsFrom<G, V, R>(
    geofences: Option<seq<G>>, vehicles: Option<seq<V>>, alerts: Option<seq<R>>, total: Option<int>)
    : (s: Stats)
    ensures s.geofences == ListCount(geofences) && s.vehicles == ListCount(vehicles)
    ensures s.activeAlerts == ListCount(alerts) && s.violations == TotalCount(total)
    ensures geofences.None? && vehicles.None? && alerts.None? && total.None? ==> s == InitialStats
  {
    Stats(ListCount(geofences), ListCount(vehicles), ListCount(alerts), TotalCount(total))
  }

  /** `{alert.event_type === 'entry' ? 'Entered' : 'Exited'}` */
  function EventLabel(eventType: string): (s: string)
    ensures s == "Entered" <==> eventType == "entry"
    ensures s == "Exited" <==> eventType != "entry"
  {
    if eventType == "entry" then "Entered" else "Exited"
  }

  datatype Tone = Red | Green | Blue

  /** Left border of an alert card: red for an entry, green for anything else. */
  function BorderTone(eventType: string): (t: Tone)
    ensures t == Red <==> eventType == "entry"
    ensures t == Green <==> eventType != "entry"
  {
    if eventType == "entry" then Red else Green
  }

  /** Category badge of an alert card: red for a restricted zone, blue otherwise. */
  function CategoryTone(category: string): (t: Tone)
    ensures t == Red <==> category == "restricted_zone"
    ensures t == Blue <==> category != "restricted_zone"
  {
    if category == "restricted_zone" then Red else Blue
  }
}
