/** src/hooks/useWebSocket.js: the reconnecting alert channel.

    The hook keeps two slots, `wsRef.current` (the latest socket) and
    `reconnectTimeoutRef.current` (the latest retry timer). The browser's side of
    the story is abstract: a socket or timer is a handle number, what the hook
    asks of the browser (create a socket, arm or cancel a 3000 ms retry, close a
    socket) and of its consumer (`onMessage`, the toast) is appended to an effect
    log, and two ghost sets record which sockets may still deliver their close
    event and which retries are still armed. Each handler becomes a method. */
module WebSocket {
  import opened Wrappers
  import opened Alerts

  /** `setTimeout(..., 3000)`: a fixed delay, no backoff and no retry limit. */
  const RetryDelayMs: nat := 3000

  type Handle = nat

  datatype Icon = Siren | CheckMark

  /** `toast.success(text, {duration: 5000, icon})` */
  datatype Notice = Notice(text: string, icon: Icon)

  datatype Effect =
    | CreateSocket(socket: Handle)              // `new WebSocket(wsUrl)`
    | ArmRetry(timer: Handle, delayMs: nat)     // `setTimeout(() => connect(), 3000)`
    | CancelRetry(timer: Handle)                // `clearTimeout(...)`
    | CloseSocket(socket: Handle)               // `wsRef.current.close()`
    | Deliver(alert: Alert)                     // `onMessage(alert)`
    | Notify(notice: Notice)                    // the toast

  /** The toast for a decoded alert. Building it reads `alert.vehicle.vehicle_number`
      and `alert.geofence.geofence_name`, which throws when either object is
      missing; that exception is caught and only logged. */
  function NoticeFor(alert: Alert): (n: Option<Notice>)
    ensures n.Some? <==> alert.vehicle.Some? && alert.geofence.Some?
    ensures n.Some? ==> (n.value.icon == Siren <==> alert.eventType == "entry")
    ensures n.Some? ==>
      n.value.text == alert.vehicle.value.vehicleNumber + " " + Verb(alert.eventType) + " " + alert.geofence.value.geofenceName
  {
    match (alert.vehicle, alert.geofence)
    case (Some(v), Some(g)) =>
      Some(Notice(v.vehicleNumber + " " + Verb(alert.eventType) + " " + g.geofenceName,
                  if alert.eventType == "entry" then Siren else CheckMark))
    case _ => None
  }

  /** The verb of the toast text. */
  function Verb(eventType: string): (w: string)
    ensures w == "entered" <==> eventType == "entry"
    ensures w == "entered" || w == "exited"
  {
    if eventType == "entry" then "entered" else "exited"
  }

  /** What one inbound message causes: nothing if it does not decode; otherwise the
      consumer is called once with the decoded alert and then, if it can be built,
      the toast is shown. */
  function MessageEffects(decoded: Option<Alert>): (es: seq<Effect>)
    ensures decoded.None? ==> es == []
    ensures decoded.Some? ==> |es| >= 1 && es[0] == Deliver(decoded.value)
    ensures decoded.Some? ==> |es| == (if NoticeFor(decoded.value).Some? then 2 else 1)
    ensures decoded.Some? && |es| == 2 ==> es[1] == Notify(NoticeFor(decoded.value).value)
    ensures forall i :: 1 <= i < |es| ==> es[i].Notify?
  {
    match decoded
    case None => []
    case Some(a) =>
      [Deliver(a)] + match NoticeFor(a) { case Some(n) => [Notify(n)] case None => [] }
  }

  function SlotSet(slot: Option<Handle>): set<Handle>
  {
    if slot.Some? then {slot.value} else {}
  }

  /** The cleanup closure's calls: cancel the slotted timer if there is one, close
      the slotted socket if there is one. */
  function TeardownEffects(timer: Option<Handle>, socket: Option<Handle>): (es: seq<Effect>)
    ensures |es| == (if timer.Some? then 1 else 0) + (if socket.Some? then 1 else 0)
    ensures timer.Some? ==> es[0] == CancelRetry(timer.value)
    ensures socket.Some? ==> es[|es| - 1] == CloseSocket(socket.value)
  {
    (if timer.Some? then [CancelRetry(timer.value)] else []) +
    (if socket.Some? then [CloseSocket(socket.value)] else [])
  }

  class AlertSocket {
    /** `JSON.parse`, seen as a partial decoder from message text to alerts. */
    const decode: string -> Option<Alert>

    var ws: Option<Handle>                // wsRef.current
    var reconnectTimeout: Option<Handle>  // reconnectTimeoutRef.current
    var effects: seq<Effect>
    var nextHandle: Handle

    /** Sockets created whose close event has not been delivered yet. A socket
        the cleanup has asked to close stays here until that event, so the model
        still admits `open` and `message` events for it, which a browser no
        longer delivers once `close()` has been called. */
    ghost var live: set<Handle>
    /** Retries armed that have neither fired nor been cancelled. */
    ghost var armed: set<Handle>

    /** A live socket is the one in the socket slot and an armed retry is the one
        in the timer slot; and never is a socket live while a retry is armed, so
        there is at most one connection attempt or pending retry at any time. */
    ghost predicate Valid()
      reads this
    {
      (ws.Some? ==> ws.value < nextHandle) &&
      (reconnectTimeout.Some? ==> reconnectTimeout.value < nextHandle) &&
      live <= SlotSet(ws) &&
      armed <= SlotSet(reconnectTimeout) &&
      (live == {} || armed == {})
    }

    /** The channel is still trying: a socket is live or a retry is armed. Every
        event keeps this until the cleanup closure runs. */
    ghost predicate Attempting()
      reads this
    {
      live != {} || armed != {}
    }

    /** `useRef(null)` twice: the state the first run of the effect starts from.
        The refs belong to the component, so later runs of the effect start from
        whatever the previous run left in them. */
    constructor (decode: string -> Option<Alert>)
      ensures Valid() && this.decode == decode
      ensures ws == None && reconnectTimeout == None && effects == []
      ensures live == {} && armed == {}
    {
      this.decode := decode;
      ws, reconnectTimeout := None, None;
      effects, nextHandle := [], 1;
      live, armed := {}, {};
    }

    /** `connect()`. It runs when the effect mounts and when a retry fires, with
        no attempt in flight. If constructing the socket throws, one retry is
        armed and slotted; otherwise the new socket is slotted. Neither branch
        touches the other slot. */
    method Connect(constructionThrows: bool)
      requires Valid() && live == {} && armed == {}
      modifies this
      ensures Valid() && Attempting()
      ensures nextHandle == old(nextHandle) + 1
      ensures constructionThrows ==>
        ws == old(ws) && reconnectTimeout == Some(old(nextHandle)) &&
        live == {} && armed == {old(nextHandle)} &&
        effects == old(effects) + [ArmRetry(old(nextHandle), RetryDelayMs)]
      ensures !constructionThrows ==>
        ws == Some(old(nextHandle)) && reconnectTimeout == old(reconnectTimeout) &&
        live == {old(nextHandle)} && armed == {} &&
        effects == old(effects) + [CreateSocket(old(nextHandle))]
    {
      var h := nextHandle;
      nextHandle := nextHandle + 1;
      if constructionThrows {
        reconnectTimeout := Some(h);
        armed := {h};
        effects := effects + [ArmRetry(h, RetryDelayMs)];
      } else {
        ws := Some(h);
        live := {h};
        effects := effects + [CreateSocket(h)];
      }
    }

    /** `ws.onopen`, a handler of the slotted socket, which is still live: cancel
        the slotted retry, if any, and empty the timer slot. Nothing else changes. */
    method Open()
      requires Valid() && ws.Some? && ws.value in live
      modifies this
      ensures Valid() && Attempting()
      ensures reconnectTimeout == None && armed == {}
      ensures effects == old(effects) + (if old(reconnectTimeout).Some? then [CancelRetry(old(reconnectTimeout).value)] else [])
      ensures ws == old(ws) && live == old(live) && nextHandle == old(nextHandle)
    {
      if reconnectTimeout.Some? {
        effects := effects + [CancelRetry(reconnectTimeout.value)];
        armed := armed - {reconnectTimeout.value};
        reconnectTimeout := None;
      }
    }

    /** `ws.onmessage`, a handler of the slotted, live socket: decoding failures
        (and toast failures) are caught and logged; neither slot and no retry is
        touched either way. */
    method Message(data: string)
      requires Valid() && ws.Some? && ws.value in live
      modifies this
      ensures Valid() && Attempting()
      ensures effects == old(effects) + MessageEffects(decode(data))
      ensures ws == old(ws) && reconnectTimeout == old(reconnectTimeout)
      ensures live == old(live) && armed == old(armed) && nextHandle == old(nextHandle)
    {
      effects := effects + MessageEffects(decode(data));
    }

    /** `ws.onerror` only logs. */
    method Error()
      requires Valid()
      modifies this
      ensures Valid()
      ensures unchanged(this)
    {
    }

    /** `ws.onclose`, whatever the cause: slot and arm a fresh 3000 ms retry. */
    method Close(socket: Handle)
      requires Valid() && socket in live
      modifies this
      ensures Valid() && Attempting()
      ensures nextHandle == old(nextHandle) + 1
      ensures reconnectTimeout == Some(old(nextHandle)) && armed == {old(nextHandle)}
      ensures effects == old(effects) + [ArmRetry(old(nextHandle), RetryDelayMs)]
      ensures ws == old(ws) && live == {}
    {
      live := live - {socket};
      var h := nextHandle;
      nextHandle := nextHandle + 1;
      reconnectTimeout := Some(h);
      armed := {h};
      effects := effects + [ArmRetry(h, RetryDelayMs)];
    }

    /** An armed retry fires and calls `connect()`. The timer slot still names the
        retry that just fired until something overwrites or empties it. */
    method RetryFires(timer: Handle, constructionThrows: bool)
      requires Valid() && timer in armed
      modifies this
      ensures Valid() && Attempting()
      ensures nextHandle == old(nextHandle) + 1
      ensures constructionThrows ==>
        ws == old(ws) && reconnectTimeout == Some(old(nextHandle)) &&
        live == {} && armed == {old(nextHandle)} &&
        effects == old(effects) + [ArmRetry(old(nextHandle), RetryDelayMs)]
      ensures !constructionThrows ==>
        ws == Some(old(nextHandle)) && reconnectTimeout == old(reconnectTimeout) &&
        live == {old(nextHandle)} && armed == {} &&
        effects == old(effects) + [CreateSocket(old(nextHandle))]
    {
      armed := armed - {timer};
      Connect(constructionThrows);
    }

    /** The effect's cleanup closure. It cancels the slotted retry and asks the
        slotted socket to close, but empties neither slot; the socket's close event
        is still to come (its `onclose` is still attached), so a socket that was
        live stays live. */
    method Teardown()
      requires Valid()
      modifies this
      ensures Valid()
      ensures effects == old(effects) + TeardownEffects(old(reconnectTimeout), old(ws))
      ensures armed == {}
      ensures Attempting() <==> old(live) != {}
      ensures ws == old(ws) && reconnectTimeout == old(reconnectTimeout)
      ensures live == old(live) && nextHandle == old(nextHandle)
    {
      if reconnectTimeout.Some? {
        effects := effects + [CancelRetry(reconnectTimeout.value)];
        armed := armed - {reconnectTimeout.value};
      }
      if ws.Some? {
        effects := effects + [CloseSocket(ws.value)];
      }
    }
  }

  /** The alerts handed to the consumer, in the order of the calls. */
  function Delivered(es: seq<Effect>): (alerts: seq<Alert>)
    ensures |alerts| <= |es|
  {
    if es == [] then []
    else Delivered(es[..|es| - 1]) + (if es[|es| - 1].Deliver? then [es[|es| - 1].alert] else [])
  }

  /** The toasts shown, in order. */
  function Notified(es: seq<Effect>): (notices: seq<Notice>)
    ensures |notices| <= |es|
  {
    if es == [] then []
    else Notified(es[..|es| - 1]) + (if es[|es| - 1].Notify? then [es[|es| - 1].notice] else [])
  }

  lemma {:induction false} DeliveredAppend(a: seq<Effect>, b: seq<Effect>)
    ensures Delivered(a + b) == Delivered(a) + Delivered(b)
    ensures Notified(a + b) == Notified(a) + Notified(b)
    decreases |b|
  {
    if b == [] {
      assert a + b == a;
    } else {
      var init := b[..|b| - 1];
      assert (a + b)[..|a + b| - 1] == a + init;
      DeliveredAppend(a, init);
    }
  }

  /** Deliveries are in message order, one per decodable message and none for a
      message that does not decode; the toast, when there is one, is the alert's. */
  lemma MessageDelivers(es: seq<Effect>, decoded: Option<Alert>)
    ensures Delivered(es + MessageEffects(decoded)) ==
      Delivered(es) + (if decoded.Some? then [decoded.value] else [])
    ensures Notified(es + MessageEffects(decoded)) ==
      Notified(es) + (if decoded.Some? && NoticeFor(decoded.value).Some? then [NoticeFor(decoded.value).value] else [])
  {
    var m := MessageEffects(decoded);
    DeliveredAppend(es, m);
    if decoded.Some? {
      var a := decoded.value;
      if NoticeFor(a).Some? {
        assert m == [Deliver(a)] + [Notify(NoticeFor(a).value)];
        DeliveredAppend([Deliver(a)], [Notify(NoticeFor(a).value)]);
        assert [Deliver(a)][..0] == [];
        assert [Notify(NoticeFor(a).value)][..0] == [];
      } else {
        assert m == [Deliver(a)];
        assert m[..0] == [];
      }
    }
  }

  /** At most one retry is ever pending, and a channel that is still trying has
      exactly one socket live or one retry armed. */
  lemma AtMostOnePendingRetry(channel: AlertSocket)
    requires channel.Valid()
    ensures |channel.armed| <= 1
    ensures |channel.armed| + |channel.live| <= 1
    ensures channel.Attempting() <==> |channel.armed| + |channel.live| == 1
  {
    SubsetOfSlotSet(channel.armed, channel.reconnectTimeout);
    SubsetOfSlotSet(channel.live, channel.ws);
  }

  lemma SubsetOfSlotSet(s: set<Handle>, slot: Option<Handle>)
    requires s <= SlotSet(slot)
    ensures |s| <= 1
  {
    if slot.Some? && s != {} {
      assert s == {slot.value};
    }
  }
}
