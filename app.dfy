/** src/App.jsx: the live alert feed kept by the top-level component, the
    navigation badge that counts it, and the active-link test. */
module App {
  import opened Wrappers
  import Text

  /** `.slice(0, 50)`: the feed never holds more than this many alerts. */
  const FeedCapacity: nat := 50

  /** `(prev) => [alert, ...prev].slice(0, 50)`: a new sequence, newest first,
      capped at FeedCapacity. `prev` itself is a value and is not changed. */
  function Record<A>(prev: seq<A>, alert: A): (feed: seq<A>)
    ensures |feed| == Min(|prev| + 1, FeedCapacity)
    ensures feed[0] == alert
    ensures feed[1..] == prev[..|feed| - 1]
  {
    ([alert] + prev)[..Min(|prev| + 1, FeedCapacity)]
  }

  /** Below the cap nothing is evicted: the alert is simply prepended. */
  lemma RecordBelowCapacity<A>(prev: seq<A>, alert: A)
    requires |prev| < FeedCapacity
    ensures Record(prev, alert) == [alert] + prev
    ensures |Record(prev, alert)| == |prev| + 1
  {
  }

  /** At the cap the oldest alert (the tail) is the one that goes. */
  lemma RecordAtCapacity<A>(prev: seq<A>, alert: A)
    requires |prev| == FeedCapacity
    ensures Record(prev, alert) == [alert] + prev[..FeedCapacity - 1]
  {
  }

  /** No deduplication: the same alert recorded twice occupies two slots. */
  lemma RecordKeepsDuplicates<A>(prev: seq<A>, alert: A)
    ensures var feed := Record(Record(prev, alert), alert);
      |feed| >= 2 && feed[0] == alert && feed[1] == alert
  {
  }

  /** The feed after recording `arrivals` (oldest first) into an empty feed. */
  function Replay<A>(arrivals: seq<A>): (feed: seq<A>)
    ensures |feed| <= FeedCapacity
  {
    if arrivals == [] then [] else Record(Replay(arrivals[..|arrivals| - 1]), arrivals[|arrivals| - 1])
  }

  function Reversed<A>(s: seq<A>): (r: seq<A>)
    ensures |r| == |s|
  {
    if s == [] then [] else [s[|s| - 1]] + Reversed(s[..|s| - 1])
  }

  lemma {:induction false} ReversedAt<A>(s: seq<A>, k: nat)
    requires k < |s|
    ensures Reversed(s)[k] == s[|s| - 1 - k]
    decreases |s|
  {
    if k > 0 {
      ReversedAt(s[..|s| - 1], k - 1);
    }
  }

  /** Whatever the arrivals, the feed is the newest FeedCapacity of them in
      reverse arrival order (not ordered by timestamp). */
  lemma {:induction false} ReplayIsNewestFirst<A>(arrivals: seq<A>)
    ensures Replay(arrivals) == Reversed(arrivals)[..Min(|arrivals|, FeedCapacity)]
    decreases |arrivals|
  {
    if arrivals != [] {
      var init, last := arrivals[..|arrivals| - 1], arrivals[|arrivals| - 1];
      ReplayIsNewestFirst(init);
      var m := Min(|init|, FeedCapacity);
      var k := Min(|arrivals|, FeedCapacity);
      assert Reversed(arrivals) == [last] + Reversed(init);
      calc {
        Replay(arrivals);
        Record(Reversed(init)[..m], last);
        ([last] + Reversed(init)[..m])[..k];
        { assert [last] + Reversed(init)[..m] == ([last] + Reversed(init))[..m + 1]; }
        ([last] + Reversed(init))[..k];
      }
    }
  }

  /** Position i of the feed holds the (i+1)-th most recent arrival. */
  lemma FeedPosition<A>(arrivals: seq<A>, i: nat)
    requires i < |Replay(arrivals)|
    ensures i < |arrivals| && Replay(arrivals)[i] == arrivals[|arrivals| - 1 - i]
  {
    ReplayIsNewestFirst(arrivals);
    ReversedAt(arrivals, i);
  }

  /** `{alerts.length > 0 && ... {alerts.length} Active Alert{alerts.length !== 1 ? 's' : ''}}` */
  function BadgeText(alertCount: nat): Option<string>
  {
    Text.ShownCountPhrase(alertCount, "Active Alert", "")
  }

  /** The badge is shown exactly while the feed is non-empty; when shown it reads
      back as the feed length, and its noun is plural exactly when that length is
      not 1. */
  lemma BadgeReadsBack(alertCount: nat)
    ensures BadgeText(alertCount).None? <==> alertCount == 0
    ensures alertCount > 0 ==>
      var text := BadgeText(alertCount).value;
      var d := Text.LeadingDigits(text);
      Text.DigitsValue(d) == alertCount &&
      text[|d|..] == (if alertCount == 1 then " Active Alert" else " Active Alerts")
  {
    if alertCount > 0 {
      Text.CountPhraseReadsBackAs(alertCount, "Active Alert", "", " Active Alert", " Active Alerts");
    }
  }

  /** `isActive = (path) => location.pathname === path` */
  function IsActive(pathname: string, path: string): (active: bool)
    ensures active <==> pathname == path
  {
    pathname == path
  }

  /** The `to` targets of the six navigation links. */
  const NavPaths: seq<string> := ["/", "/geofences", "/vehicles", "/locations", "/alerts", "/violations"]

  /** Since the link targets are distinct, at most one link is highlighted. */
  lemma AtMostOneActiveLink(pathname: string, i: nat, j: nat)
    requires i < |NavPaths| && j < |NavPaths|
    requires IsActive(pathname, NavPaths[i]) && IsActive(pathname, NavPaths[j])
    ensures i == j
  {
  }
}
