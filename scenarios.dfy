/** How the pieces behave together: the alert channel feeding the App's feed and
    the dashboard, and what the channel's cleanup does and does not prevent. */
module Scenarios {
  import opened Wrappers
  import opened Alerts
  import opened WebSocket
  import App
  import Dashboard

  /** The dashboard lists the newest arrivals, newest first: its entry i is the
      (i+1)-th most recent alert the consumer received. */
  lemma {:induction false} DashboardShowsNewestFirst(arrivals: seq<Alert>, i: nat)
    requires i < Min(Dashboard.RecentLimit, |arrivals|)
    ensures |Dashboard.RecentAlerts(App.Replay(arrivals))| == Min(Dashboard.RecentLimit, |arrivals|)
    ensures Dashboard.RecentAlerts(App.Replay(arrivals))[i] == arrivals[|arrivals| - 1 - i]
  {
    App.ReplayIsNewestFirst(arrivals);
    App.FeedPosition(arrivals, i);
  }

  /** The toast and the dashboard card classify an alert the same way. */
  lemma NoticeAgreesWithCard(alert: Alert)
    requires NoticeFor(alert).Some?
    ensures NoticeFor(alert).value.icon == Siren <==> Dashboard.EventLabel(alert.eventType) == "Entered"
    ensures Verb(alert.eventType) == "entered" <==> Dashboard.BorderTone(alert.eventType) == Dashboard.Red
  {
  }

  lemma ReplayOfTwo<A>(first: A, second: A)
    ensures App.Replay([first, second]) == [second, first]
  {
    assert [first, second][..1] == [first] && [first][..0] == [];
    assert App.Replay([first]) == App.Record([], first) == [first];
    assert App.Replay([first, second]) == App.Record([first], second);
  }

  /** Two decoded alerts that each have a toast, after a log that delivered
      nothing: the consumer gets both in order, and both toasts follow in order. */
  lemma TwoMessagesLog(start: seq<Effect>, first: Alert, second: Alert)
    requires Delivered(start) == [] && Notified(start) == []
    requires NoticeFor(first).Some? && NoticeFor(second).Some?
    ensures var es := start + MessageEffects(Some(first)) + MessageEffects(Some(second));
      Delivered(es) == [first, second] &&
      Notified(es) == [NoticeFor(first).value, NoticeFor(second).value]
  {
    MessageDelivers(start, Some(first));
    MessageDelivers(start + MessageEffects(Some(first)), Some(second));
  }

  /** A vehicle enters and then leaves a geofence: the consumer receives the two
      alerts in arrival order, the feed lists them newest first, and two toasts
      follow in the same order. */
  method EnterThenExit(
    decode: string -> Option<Alert>, entryMessage: string, exitMessage: string,
    vehicle: Vehicle, geofence: Geofence, entryTime: string, exitTime: string)
    returns (delivered: seq<Alert>, feed: seq<Alert>, notices: seq<Notice>)
    requires decode(entryMessage) == Some(Alert(Some(vehicle), Some(geofence), "entry", entryTime))
    requires decode(exitMessage) == Some(Alert(Some(vehicle), Some(geofence), "exit", exitTime))
    ensures var entry := Alert(Some(vehicle), Some(geofence), "entry", entryTime);
      var exit := Alert(Some(vehicle), Some(geofence), "exit", exitTime);
      delivered == [entry, exit] && feed == [exit, entry]
    ensures |notices| == 2 && notices[0].icon == Siren && notices[1].icon == CheckMark
  {
    var entry := Alert(Some(vehicle), Some(geofence), "entry", entryTime);
    var exit := Alert(Some(vehicle), Some(geofence), "exit", exitTime);
    var channel := new AlertSocket(decode);
    ghost var socket := channel.nextHandle;
    channel.Connect(false);
    channel.Open();
    ghost var before := channel.effects;
    assert Delivered(before) == [] && Notified(before) == [] by {
      assert before == [CreateSocket(socket)];
      assert before[..0] == [];
    }
    channel.Message(entryMessage);
    channel.Message(exitMessage);
    assert channel.effects == before + MessageEffects(Some(entry)) + MessageEffects(Some(exit));
    TwoMessagesLog(before, entry, exit);
    delivered := Delivered(channel.effects);
    notices := Notified(channel.effects);
    feed := App.Replay(delivered);
    ReplayOfTwo(entry, exit);
  }

  /** Cleanup does not end the reconnect cycle: closing the socket later delivers
      its close event, and the still-attached `onclose` arms a fresh retry. */
  method CloseAfterTeardownRearms(decode: string -> Option<Alert>)
    returns (last: Effect, retrySlotted: bool)
    ensures last.ArmRetry? && last.delayMs == RetryDelayMs
    ensures retrySlotted
  {
    var channel := new AlertSocket(decode);
    channel.Connect(false);
    var socket := channel.ws.value;
    channel.Open();
    channel.Teardown();
    channel.Close(socket);
    last := channel.effects[|channel.effects| - 1];
    retrySlotted := channel.reconnectTimeout.Some?;
  }

  /** Cleanup is not guarded against running twice: each run closes the slotted
      socket again. */
  method TeardownTwiceClosesTwice(decode: string -> Option<Alert>)
    returns (closes: seq<Effect>)
    ensures |closes| == 2 && closes[0] == closes[1] && closes[0].CloseSocket?
  {
    var channel := new AlertSocket(decode);
    channel.Connect(false);
    var socket := channel.ws.value;
    channel.Open();
    var start := |channel.effects|;
    channel.Teardown();
    channel.Teardown();
    closes := channel.effects[start..];
    assert closes == [CloseSocket(socket), CloseSocket(socket)];
  }

  function RetriesArmed(es: seq<Effect>): nat
  {
    if es == [] then 0
    else RetriesArmed(es[..|es| - 1]) + (if es[|es| - 1].ArmRetry? then 1 else 0)
  }

  lemma RetriesArmedSnoc(es: seq<Effect>, e: Effect)
    ensures RetriesArmed(es + [e]) == RetriesArmed(es) + (if e.ArmRetry? then 1 else 0)
  {
    assert (es + [e])[..|es|] == es;
  }

  /** Constructing the socket throws on every attempt (as `new WebSocket(url)`
      does for a malformed URL or a blocked port; an unreachable server instead
      shows up as `error` and `close` events, the `Close` path). Each failure arms
      exactly one 3000 ms retry, the one pending retry is always the slotted one,
      and the retrying goes on for as many attempts as there are. */
  method ConstructionAlwaysFails(decode: string -> Option<Alert>, attempts: nat)
    returns (retries: nat)
    ensures retries == attempts + 1
  {
    var channel := new AlertSocket(decode);
    ghost var first := channel.nextHandle;
    channel.Connect(true);
    assert channel.effects == [] + [ArmRetry(first, RetryDelayMs)];
    RetriesArmedSnoc([], ArmRetry(first, RetryDelayMs));
    var i := 0;
    while i < attempts
      invariant 0 <= i <= attempts
      invariant channel.Valid()
      invariant channel.reconnectTimeout.Some? && channel.armed == {channel.reconnectTimeout.value}
      invariant RetriesArmed(channel.effects) == i + 1
    {
      ghost var es := channel.effects;
      channel.RetryFires(channel.reconnectTimeout.value, true);
      RetriesArmedSnoc(es, ArmRetry(channel.reconnectTimeout.value, RetryDelayMs));
      i := i + 1;
    }
    retries := RetriesArmed(channel.effects);
  }
}
