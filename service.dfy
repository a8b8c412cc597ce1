/**
 * `BackgroundBLEService`: the connection flags driven by the GATT callbacks,
 * the start command and the reconnect timer; the packet buffer fed by
 * characteristic notifications; and the stored latest record and history.
 * Outbound traffic is logged: `events` for what goes to the app (the Flutter
 * event sink, cross-process broadcasts, the reminder notification) and
 * `requests` for what goes to the Bluetooth stack.
 */
module Service {
  import opened Wrappers
  import opened Text
  import opened FrameDecoder
  import opened Interpreter
  import opened History

  /** `BluetoothProfile.STATE_DISCONNECTED` and `STATE_CONNECTED`. */
  const StateDisconnected: int := 0
  const StateConnected: int := 2
  /** `BluetoothGatt.GATT_SUCCESS`. */
  const GattSuccess: int := 0
  const RequestedMtu: int := 512
  /** The default of the stored `service_version_code`: nothing stored yet. */
  const UnsetVersion: Int64 := -1

  datatype Payload =
    | ConnectionStatus(connected: bool)
    | HealthDataReceived(record: HealthRecord)
    | NotificationReceived(message: string)

  /** Delivered to the Flutter event sink, sent as a broadcast, or posted as the band reminder notification. */
  datatype Event = ToBridge(payload: Payload) | Broadcast(payload: Payload) | WearBandAlert

  /** Calls made on the Bluetooth stack. */
  datatype Request =
    | ConnectGatt(address: string, autoConnect: bool)
    | RequestMtu(size: int)
    | DiscoverServices
    | EnableNotifications
    | WriteCccd
    | Disconnect
    | Close

  /** How `getRemoteDevice(...).connectGatt(...)` turned out: a handle, `null`, or an exception. */
  datatype ConnectOutcome = Opened | NullHandle | Failed

  /** `START_STICKY` / `START_NOT_STICKY`. */
  datatype StartMode = Sticky | NotSticky

  /** What the decoder path changes: the stored record, the history and the outbound events. */
  datatype Outputs = Outputs(latest: Option<HealthRecord>, lastUpdate: Option<Int64>,
                             history: seq<HealthRecord>, events: seq<Event>)

  /** What the connection path changes (and the decoder path never does). */
  datatype Link = Link(isConnected: bool, gattOpen: bool, pendingReconnects: nat, scopeActive: bool,
                       requests: seq<Request>, bridgeAttached: bool, running: bool,
                       savedVersion: Int64, savedAddress: Option<string>, stopped: bool)

  function ToBridgeIf(attached: bool, p: Payload): seq<Event> {
    if attached then [ToBridge(p)] else []
  }

  /** A connection status goes to the event sink (when one is attached) and to a broadcast. */
  function StatusEvents(attached: bool, connected: bool): seq<Event> {
    ToBridgeIf(attached, ConnectionStatus(connected)) + [Broadcast(ConnectionStatus(connected))]
  }

  /**
   * Which call of a status announcement throws, if any.  Neither the sink
   * call nor the broadcast in `onConnectionStateChange` and `onMtuChanged`
   * sits in a `try`, so an exception leaves the callback at that point.
   */
  datatype StatusFault = Delivered | SinkThrows | BroadcastThrows

  /** The events a status announcement gets out, and whether it ran to its end. */
  datatype Announcement = Announcement(events: seq<Event>, completed: bool)

  function Announce(attached: bool, connected: bool, f: StatusFault): Announcement {
    if attached && f == SinkThrows then Announcement([], false)
    else if f == BroadcastThrows then Announcement(ToBridgeIf(attached, ConnectionStatus(connected)), false)
    else Announcement(StatusEvents(attached, connected), true)
  }

  /**
   * An announcement emits a prefix of the full status events; it completes
   * exactly when no call throws (a detached sink is never called), and an
   * interrupted one never gets the broadcast out.
   */
  lemma AnnouncementStopsAtFault(attached: bool, connected: bool, f: StatusFault)
    ensures var a := Announce(attached, connected, f);
      a.events <= StatusEvents(attached, connected)
      && (a.completed <==> f == Delivered || (f == SinkThrows && !attached))
      && (a.completed ==> a.events == StatusEvents(attached, connected))
      && (!a.completed ==> Broadcast(ConnectionStatus(connected)) !in a.events)
  {
  }

  datatype StepResult = StepResult(out: Outputs, sent: nat, threw: bool)

  /**
   * The loop body for one frame's interpretation.  `sent` counts the records
   * already broadcast in this call; `fault == Some(k)` says that the
   * broadcast of record number `k` throws, the only call in the loop that
   * is not guarded by a `try` of its own.
   */
  function Step(o: Outputs, it: Interpretation, sent: nat, fault: Option<nat>, attached: bool, now: Int64): StepResult {
    match it
    case Sample(r) =>
      var saved := o.(latest := Some(r), lastUpdate := Some(now), history := Saved(o.history, r),
                      events := o.events + ToBridgeIf(attached, HealthDataReceived(r)));
      if fault == Some(sent) then StepResult(saved, sent, true)
      else StepResult(saved.(events := saved.events + [Broadcast(HealthDataReceived(r))]), sent + 1, false)
    case WearReminder =>
      StepResult(o.(events := o.events + [WearBandAlert] + ToBridgeIf(attached, NotificationReceived(WearReminderText))),
                 sent, false)
    case _ => StepResult(o, sent, false)
  }

  datatype Delivery = Delivery(out: Outputs, threw: bool)

  /** All the frames of one call, in order, stopping at the first exception. */
  function Deliver(o: Outputs, its: seq<Interpretation>, sent: nat, fault: Option<nat>, attached: bool, now: Int64): Delivery
    decreases |its|
  {
    if its == [] then Delivery(o, false)
    else
      var st := Step(o, its[0], sent, fault, attached, now);
      if st.threw then Delivery(st.out, true) else Deliver(st.out, its[1..], st.sent, fault, attached, now)
  }

  function Outcomes(frames: seq<string>, parse: string -> Option<JsonObject>, now: Int64): (its: seq<Interpretation>)
    ensures |its| == |frames|
    ensures forall i :: 0 <= i < |frames| ==> its[i] == ParseHealthData(frames[i], parse, now)
  {
    if frames == [] then [] else [ParseHealthData(frames[0], parse, now)] + Outcomes(frames[1..], parse, now)
  }

  /** The records among the interpretations, in order. */
  function SamplesOf(its: seq<Interpretation>): seq<HealthRecord> {
    if its == [] then []
    else (if its[0].Sample? then [its[0].record] else []) + SamplesOf(its[1..])
  }

  /**
   * Without an exception, every record among the frames is stored once, in
   * frame order, and the last one becomes the latest record.
   */
  lemma {:induction false} DeliverStoresEachRecordOnce(o: Outputs, its: seq<Interpretation>, sent: nat,
                                                     attached: bool, now: Int64)
    ensures var d := Deliver(o, its, sent, None, attached, now);
      !d.threw
      && d.out.history == SaveAll(o.history, SamplesOf(its))
      && (SamplesOf(its) == [] ==> d.out.latest == o.latest)
      && (SamplesOf(its) != [] ==> d.out.latest == Some(SamplesOf(its)[|SamplesOf(its)| - 1]))
    decreases |its|
  {
    if its != [] {
      var st := Step(o, its[0], sent, None, attached, now);
      DeliverStoresEachRecordOnce(st.out, its[1..], st.sent, attached, now);
      if its[0].Sample? {
        assert SamplesOf(its) == [its[0].record] + SamplesOf(its[1..]);
        assert ([its[0].record] + SamplesOf(its[1..]))[1..] == SamplesOf(its[1..]);
      } else {
        assert SamplesOf(its) == SamplesOf(its[1..]);
      }
    }
  }

  /** The records an event log carries to the event sink (`bridge`) or in broadcasts (`!bridge`), in order. */
  function RecordsTo(es: seq<Event>, bridge: bool): seq<HealthRecord> {
    if es == [] then []
    else
      (match es[0]
       case ToBridge(HealthDataReceived(r)) => if bridge then [r] else []
       case Broadcast(HealthDataReceived(r)) => if bridge then [] else [r]
       case _ => [])
      + RecordsTo(es[1..], bridge)
  }

  /** The number of band reminders posted in an event log. */
  function Alerts(es: seq<Event>): nat {
    if es == [] then 0 else (if es[0] == WearBandAlert then 1 else 0) + Alerts(es[1..])
  }

  /** The number of reminder frames among the interpretations. */
  function Reminders(its: seq<Interpretation>): nat {
    if its == [] then 0 else (if its[0].WearReminder? then 1 else 0) + Reminders(its[1..])
  }

  lemma {:induction false} EventLogAppend(a: seq<Event>, b: seq<Event>)
    ensures RecordsTo(a + b, true) == RecordsTo(a, true) + RecordsTo(b, true)
    ensures RecordsTo(a + b, false) == RecordsTo(a, false) + RecordsTo(b, false)
    ensures Alerts(a + b) == Alerts(a) + Alerts(b)
    decreases |a|
  {
    if a == [] {
      assert a + b == b;
    } else {
      assert (a + b)[1..] == a[1..] + b;
      EventLogAppend(a[1..], b);
    }
  }

  /**
   * Without an exception, a call broadcasts every record among its frames
   * exactly once, in frame order, and nothing else as health data; an
   * attached event sink receives the same records, a detached one none;
   * and one band reminder is posted per reminder frame.
   */
  lemma DeliverAnnouncesEachRecordOnce(o: Outputs, its: seq<Interpretation>, sent: nat,
                                       attached: bool, now: Int64)
    ensures var d := Deliver(o, its, sent, None, attached, now);
      RecordsTo(d.out.events, false) == RecordsTo(o.events, false) + SamplesOf(its)
      && RecordsTo(d.out.events, true) == RecordsTo(o.events, true) + (if attached then SamplesOf(its) else [])
      && Alerts(d.out.events) == Alerts(o.events) + Reminders(its)
  {
    DeliverRecordsTo(o, its, sent, attached, now, false);
    DeliverRecordsTo(o, its, sent, attached, now, true);
    DeliverAlerts(o, its, sent, attached, now);
  }

  /** The records a call without an exception hands to the sink (`bridge`) or broadcasts (`!bridge`). */
  lemma {:induction false} DeliverRecordsTo(o: Outputs, its: seq<Interpretation>, sent: nat,
                                            attached: bool, now: Int64, bridge: bool)
    ensures RecordsTo(Deliver(o, its, sent, None, attached, now).out.events, bridge)
            == RecordsTo(o.events, bridge) + (if !bridge || attached then SamplesOf(its) else [])
    decreases |its|
  {
    if its != [] {
      var st := Step(o, its[0], sent, None, attached, now);
      StepAnnounces(o, its[0], sent, attached, now);
      assert Deliver(o, its, sent, None, attached, now) == Deliver(st.out, its[1..], st.sent, None, attached, now);
      DeliverRecordsTo(st.out, its[1..], st.sent, attached, now, bridge);
      var mine := if its[0].Sample? then [its[0].record] else [];
      assert SamplesOf(its) == mine + SamplesOf(its[1..]);
      if !bridge || attached {
        assert RecordsTo(st.out.events, bridge) == RecordsTo(o.events, bridge) + mine;
      } else {
        assert RecordsTo(st.out.events, bridge) == RecordsTo(o.events, bridge);
      }
    }
  }

  /** A call without an exception posts one band reminder per reminder frame. */
  lemma {:induction false} DeliverAlerts(o: Outputs, its: seq<Interpretation>, sent: nat, attached: bool, now: Int64)
    ensures Alerts(Deliver(o, its, sent, None, attached, now).out.events) == Alerts(o.events) + Reminders(its)
    decreases |its|
  {
    if its != [] {
      var st := Step(o, its[0], sent, None, attached, now);
      StepAnnounces(o, its[0], sent, attached, now);
      assert Deliver(o, its, sent, None, attached, now) == Deliver(st.out, its[1..], st.sent, None, attached, now);
      DeliverAlerts(st.out, its[1..], st.sent, attached, now);
    }
  }

  /** One interpretation's events, without an exception. */
  lemma StepAnnounces(o: Outputs, it: Interpretation, sent: nat, attached: bool, now: Int64)
    ensures var st := Step(o, it, sent, None, attached, now);
      var mine := if it.Sample? then [it.record] else [];
      !st.threw
      && RecordsTo(st.out.events, false) == RecordsTo(o.events, false) + mine
      && RecordsTo(st.out.events, true) == RecordsTo(o.events, true) + (if attached then mine else [])
      && Alerts(st.out.events) == Alerts(o.events) + (if it.WearReminder? then 1 else 0)
  {
    match it
    case Sample(r) => RecordEvents(o.events, r, attached);
    case WearReminder => ReminderEvents(o.events, attached);
    case _ =>
  }

  lemma RecordEvents(es: seq<Event>, r: HealthRecord, attached: bool)
    ensures var es' := es + ToBridgeIf(attached, HealthDataReceived(r)) + [Broadcast(HealthDataReceived(r))];
      RecordsTo(es', false) == RecordsTo(es, false) + [r]
      && RecordsTo(es', true) == RecordsTo(es, true) + (if attached then [r] else [])
      && Alerts(es') == Alerts(es)
  {
    var p := HealthDataReceived(r);
    var sink := ToBridgeIf(attached, p);
    EventLogAppend(es, sink);
    EventLogAppend(es + sink, [Broadcast(p)]);
    assert RecordsTo([Broadcast(p)], false) == [r] && RecordsTo([Broadcast(p)], true) == [];
    assert Alerts([Broadcast(p)]) == 0;
    if attached {
      assert RecordsTo(sink, true) == [r] && RecordsTo(sink, false) == [] && Alerts(sink) == 0;
    }
  }

  lemma ReminderEvents(es: seq<Event>, attached: bool)
    ensures var es' := es + [WearBandAlert] + ToBridgeIf(attached, NotificationReceived(WearReminderText));
      RecordsTo(es', false) == RecordsTo(es, false) && RecordsTo(es', true) == RecordsTo(es, true)
      && Alerts(es') == Alerts(es) + 1
  {
    var p := NotificationReceived(WearReminderText);
    EventLogAppend(es, [WearBandAlert]);
    EventLogAppend(es + [WearBandAlert], ToBridgeIf(attached, p));
  }

  /**
   * With the broadcast of record number `k` failing, a call throws exactly
   * when it gets that far: when `k` lies among the records its frames yield.
   */
  lemma {:induction false} DeliverThrowsAtFault(o: Outputs, its: seq<Interpretation>, sent: nat, k: nat,
                                               attached: bool, now: Int64)
    ensures Deliver(o, its, sent, Some(k), attached, now).threw <==> sent <= k < sent + |SamplesOf(its)|
    decreases |its|
  {
    if its != [] {
      var st := Step(o, its[0], sent, Some(k), attached, now);
      DeliverThrowsAtFault(st.out, its[1..], st.sent, k, attached, now);
      if its[0].Sample? {
        assert |SamplesOf(its)| == 1 + |SamplesOf(its[1..])|;
      } else {
        assert SamplesOf(its) == SamplesOf(its[1..]);
      }
    }
  }

  /** A disconnect schedules one retry, as long as the coroutine scope is alive. */
  function Rescheduled(l: Link): Link {
    l.(pendingReconnects := l.pendingReconnects + if l.scopeActive then 1 else 0)
  }

  /** `connectToLastDevice` on the connection state. */
  function AfterConnect(l: Link, bluetoothEnabled: bool, outcome: ConnectOutcome): Link {
    if l.savedAddress.Some? && bluetoothEnabled then
      match outcome
      case Opened => l.(gattOpen := true, requests := l.requests + [ConnectGatt(l.savedAddress.value, true)])
      case NullHandle => l.(gattOpen := false, requests := l.requests + [ConnectGatt(l.savedAddress.value, true)])
      case Failed => Rescheduled(l)
    else Rescheduled(l)
  }

  /** `cleanup`: the scope is cancelled (with every pending timer) and the GATT handle closed and dropped. */
  function Cleaned(l: Link): Link {
    l.(scopeActive := false, pendingReconnects := 0, gattOpen := false,
       requests := l.requests + if l.gattOpen then [Disconnect, Close] else [])
  }

  /** `STATE_CONNECTED`: the flag is set, and a 512-byte MTU is requested, falling back to discovery when the request does not start. */
  function OnConnected(l: Link, mtuRequestStarted: bool): Link {
    l.(isConnected := true,
       requests := l.requests + ([RequestMtu(RequestedMtu)] + if mtuRequestStarted then [] else [DiscoverServices]))
  }

  /** `STATE_DISCONNECTED`: the flag is cleared, and a retry scheduled when the announcement before it completed. */
  function OnDisconnected(l: Link, announced: bool): Link {
    var k := l.(isConnected := false);
    if announced then Rescheduled(k) else k
  }

  /** A disconnect schedules a retry exactly when its announcement completed and the scope is alive. */
  lemma DisconnectRetriesOnlyAfterAnnouncing(l: Link, f: StatusFault)
    ensures var n := OnDisconnected(l, Announce(l.bridgeAttached, false, f).completed);
      !n.isConnected && n.scopeActive == l.scopeActive
      && (n.pendingReconnects > l.pendingReconnects <==>
            l.scopeActive && (f == Delivered || (f == SinkThrows && !l.bridgeAttached)))
      && (n.pendingReconnects <= l.pendingReconnects ==> n.pendingReconnects == l.pendingReconnects)
  {
  }

  /** `onMtuChanged`, whatever its status: discovery starts. */
  function OnMtu(l: Link): Link {
    l.(requests := l.requests + [DiscoverServices])
  }

  /** `onServicesDiscovered`: subscribe when discovery succeeded and the characteristic is there; otherwise nothing. */
  function OnDiscovered(l: Link, status: int, characteristicFound: bool): Link {
    if status == GattSuccess && characteristicFound then l.(requests := l.requests + [EnableNotifications, WriteCccd])
    else l
  }

  /**
   * Discovery subscribes, with the notification switch and the descriptor
   * write in that order, exactly on success with the characteristic found;
   * otherwise the link is left as it was.
   */
  lemma DiscoverySubscribesOnlyOnSuccess(l: Link, status: int, characteristicFound: bool)
    ensures var n := OnDiscovered(l, status, characteristicFound);
      (n != l <==> status == GattSuccess && characteristicFound)
      && (n != l ==> n == l.(requests := l.requests + [EnableNotifications, WriteCccd]))
  {
    if status == GattSuccess && characteristicFound {
      assert |OnDiscovered(l, status, characteristicFound).requests| == |l.requests| + 2;
    }
  }

  /** The stored version belongs to another build of the app. */
  predicate IsOutdated(saved: Int64, current: Int64) {
    saved != UnsetVersion && saved != current
  }

  datatype Start = Start(link: Link, mode: StartMode)

  /** `onStartCommand`: an outdated instance records the new version, marks itself stopped and shuts down; otherwise it connects unless already connected or connecting. */
  function Started(l: Link, currentVersion: Int64, bluetoothEnabled: bool, outcome: ConnectOutcome): Start {
    if IsOutdated(l.savedVersion, currentVersion) then
      Start(Cleaned(l.(savedVersion := currentVersion, running := false)).(stopped := true), NotSticky)
    else
      var k := l.(savedVersion := currentVersion);
      Start(if !k.isConnected && !k.gattOpen then AfterConnect(k, bluetoothEnabled, outcome) else k, Sticky)
  }

  /** One pending reconnect timer runs out: it connects when the link is still down. */
  function TimerFired(l: Link, bluetoothEnabled: bool, outcome: ConnectOutcome): Link
    requires l.pendingReconnects > 0
  {
    var k := l.(pendingReconnects := l.pendingReconnects - 1);
    if !k.isConnected then AfterConnect(k, bluetoothEnabled, outcome) else k
  }

  /** `onDestroy`. */
  function Destroyed(l: Link): Link {
    Cleaned(l.(running := false))
  }

  /** Callbacks and commands that reach the connection state. */
  datatype Signal =
    | StateChange(newState: int, mtuRequestStarted: bool, fault: StatusFault)
    | MtuChanged
    | ServicesDiscovered(status: int, characteristicFound: bool)
    | StartCommand(currentVersion: Int64, bluetoothEnabled: bool, outcome: ConnectOutcome)
    | TimerElapsed(bluetoothEnabled: bool, outcome: ConnectOutcome)
    | Destroy

  /** One signal on the connection state; a timer cannot elapse when none is pending. */
  function Apply(l: Link, s: Signal): Link {
    match s
    case StateChange(st, started, f) =>
      if st == StateConnected then OnConnected(l, started)
      else if st == StateDisconnected then OnDisconnected(l, Announce(l.bridgeAttached, false, f).completed)
      else l
    case MtuChanged => OnMtu(l)
    case ServicesDiscovered(status, found) => OnDiscovered(l, status, found)
    case StartCommand(v, bt, out) => Started(l, v, bt, out).link
    case TimerElapsed(bt, out) => if l.pendingReconnects > 0 then TimerFired(l, bt, out) else l
    case Destroy => Destroyed(l)
  }

  function Replay(l: Link, ss: seq<Signal>): Link
    decreases |ss|
  {
    if ss == [] then l else Replay(Apply(l, ss[0]), ss[1..])
  }

  /** No timer outlives the coroutine scope. */
  predicate TimersNeedScope(l: Link) {
    !l.scopeActive ==> l.pendingReconnects == 0
  }

  /**
   * Once the scope is cancelled it stays cancelled and nothing is ever
   * scheduled again, whatever arrives afterwards; and every state reached
   * keeps timers within a live scope.
   */
  lemma {:induction false} ReplayKeepsTimersInScope(l: Link, ss: seq<Signal>)
    requires TimersNeedScope(l)
    ensures TimersNeedScope(Replay(l, ss))
    ensures !l.scopeActive ==> !Replay(l, ss).scopeActive && Replay(l, ss).pendingReconnects == 0
    decreases |ss|
  {
    if ss != [] {
      ApplyKeepsTimersInScope(l, ss[0]);
      ReplayKeepsTimersInScope(Apply(l, ss[0]), ss[1..]);
    }
  }

  lemma ApplyKeepsTimersInScope(l: Link, s: Signal)
    requires TimersNeedScope(l)
    ensures TimersNeedScope(Apply(l, s)) && (!l.scopeActive ==> !Apply(l, s).scopeActive)
  {
    match s
    case StartCommand(v, bt, out) =>
      if !IsOutdated(l.savedVersion, v) {
        AfterConnectKeepsScope(l.(savedVersion := v), bt, out);
      }
    case TimerElapsed(bt, out) =>
      if l.pendingReconnects > 0 {
        AfterConnectKeepsScope(l.(pendingReconnects := l.pendingReconnects - 1), bt, out);
      }
    case _ =>
  }

  lemma AfterConnectKeepsScope(l: Link, bluetoothEnabled: bool, outcome: ConnectOutcome)
    requires TimersNeedScope(l)
    ensures var n := AfterConnect(l, bluetoothEnabled, outcome);
      TimersNeedScope(n) && n.scopeActive == l.scopeActive && n.isConnected == l.isConnected
  {
  }

  /** Only a connection state change moves `isConnected`: starts, timers, discovery and shutdown leave it alone. */
  lemma {:induction false} OnlyStateChangesMoveTheFlag(l: Link, ss: seq<Signal>)
    requires forall i :: 0 <= i < |ss| ==> !ss[i].StateChange?
    ensures Replay(l, ss).isConnected == l.isConnected
    decreases |ss|
  {
    if ss != [] {
      ApplyKeepsFlag(l, ss[0]);
      OnlyStateChangesMoveTheFlag(Apply(l, ss[0]), ss[1..]);
    }
  }

  lemma ApplyKeepsFlag(l: Link, s: Signal)
    requires !s.StateChange?
    ensures Apply(l, s).isConnected == l.isConnected
  {
    match s
    case StartCommand(v, bt, out) =>
      StartedKeepsFlag(l, v, bt, out);
    case TimerElapsed(bt, out) =>
      if l.pendingReconnects > 0 {
        AfterConnectKeepsFlag(l.(pendingReconnects := l.pendingReconnects - 1), bt, out);
      }
    case _ =>
  }

  lemma StartedKeepsFlag(l: Link, currentVersion: Int64, bluetoothEnabled: bool, outcome: ConnectOutcome)
    ensures Started(l, currentVersion, bluetoothEnabled, outcome).link.isConnected == l.isConnected
  {
    if !IsOutdated(l.savedVersion, currentVersion) {
      AfterConnectKeepsFlag(l.(savedVersion := currentVersion), bluetoothEnabled, outcome);
    }
  }

  lemma AfterConnectKeepsFlag(l: Link, bluetoothEnabled: bool, outcome: ConnectOutcome)
    ensures AfterConnect(l, bluetoothEnabled, outcome).isConnected == l.isConnected
  {
  }

  /** The number of `connectGatt` calls in a request log. */
  function ConnectCalls(rs: seq<Request>): nat {
    if rs == [] then 0 else (if rs[0].ConnectGatt? then 1 else 0) + ConnectCalls(rs[1..])
  }

  lemma {:induction false} ConnectCallsAppend(a: seq<Request>, b: seq<Request>)
    ensures ConnectCalls(a + b) == ConnectCalls(a) + ConnectCalls(b)
    decreases |a|
  {
    if a == [] {
      assert a + b == b;
    } else {
      assert (a + b)[1..] == a[1..] + b;
      ConnectCallsAppend(a[1..], b);
    }
  }

  /** The number of signals that may open a GATT connection: start commands and elapsed timers. */
  function ConnectOpportunities(ss: seq<Signal>): nat {
    if ss == [] then 0
    else (if ss[0].StartCommand? || ss[0].TimerElapsed? then 1 else 0) + ConnectOpportunities(ss[1..])
  }

  /** Each start command or elapsed timer calls `connectGatt` at most once; no other signal calls it. */
  lemma {:induction false} ConnectsOnlyOnStartOrTimer(l: Link, ss: seq<Signal>)
    ensures ConnectCalls(Replay(l, ss).requests) <= ConnectCalls(l.requests) + ConnectOpportunities(ss)
    decreases |ss|
  {
    if ss != [] {
      ApplyConnectCalls(l, ss[0]);
      ConnectsOnlyOnStartOrTimer(Apply(l, ss[0]), ss[1..]);
    }
  }

  lemma ApplyConnectCalls(l: Link, s: Signal)
    ensures ConnectCalls(Apply(l, s).requests)
            <= ConnectCalls(l.requests) + if s.StartCommand? || s.TimerElapsed? then 1 else 0
  {
    match s
    case StateChange(st, started, f) =>
      OnConnectedNeverDials(l, started);
    case MtuChanged =>
      NoConnectCalls([DiscoverServices]);
      ConnectCallsAppend(l.requests, [DiscoverServices]);
    case ServicesDiscovered(status, found) =>
      NoConnectCalls([EnableNotifications, WriteCccd]);
      ConnectCallsAppend(l.requests, [EnableNotifications, WriteCccd]);
    case StartCommand(v, bt, out) =>
      StartedConnectCalls(l, v, bt, out);
    case TimerElapsed(bt, out) =>
      if l.pendingReconnects > 0 {
        AfterConnectDials(l.(pendingReconnects := l.pendingReconnects - 1), bt, out);
      }
    case Destroy =>
      CleanedConnectCalls(l.(running := false));
  }

  lemma OnConnectedNeverDials(l: Link, mtuRequestStarted: bool)
    ensures ConnectCalls(OnConnected(l, mtuRequestStarted).requests) == ConnectCalls(l.requests)
  {
    var added := [RequestMtu(RequestedMtu)] + if mtuRequestStarted then [] else [DiscoverServices];
    NoConnectCalls(added);
    ConnectCallsAppend(l.requests, added);
  }

  lemma StartedConnectCalls(l: Link, currentVersion: Int64, bluetoothEnabled: bool, outcome: ConnectOutcome)
    ensures ConnectCalls(Started(l, currentVersion, bluetoothEnabled, outcome).link.requests) <= ConnectCalls(l.requests) + 1
  {
    if IsOutdated(l.savedVersion, currentVersion) {
      CleanedConnectCalls(l.(savedVersion := currentVersion, running := false));
    } else {
      AfterConnectDials(l.(savedVersion := currentVersion), bluetoothEnabled, outcome);
    }
  }

  lemma CleanedConnectCalls(l: Link)
    ensures ConnectCalls(Cleaned(l).requests) == ConnectCalls(l.requests)
  {
    NoConnectCalls([Disconnect, Close]);
    ConnectCallsAppend(l.requests, if l.gattOpen then [Disconnect, Close] else []);
  }

  lemma {:induction false} NoConnectCalls(rs: seq<Request>)
    requires forall i :: 0 <= i < |rs| ==> !rs[i].ConnectGatt?
    ensures ConnectCalls(rs) == 0
    decreases |rs|
  {
    if rs != [] {
      assert forall i :: 0 <= i < |rs[1..]| ==> rs[1..][i] == rs[i + 1];
      NoConnectCalls(rs[1..]);
    }
  }

  /** Whether `connectGatt` is called at all: a saved address, the adapter on, and no exception before the call returns. */
  predicate Dials(l: Link, bluetoothEnabled: bool, outcome: ConnectOutcome) {
    l.savedAddress.Some? && bluetoothEnabled && outcome != Failed
  }

  lemma AfterConnectDials(l: Link, bluetoothEnabled: bool, outcome: ConnectOutcome)
    ensures ConnectCalls(AfterConnect(l, bluetoothEnabled, outcome).requests)
            == ConnectCalls(l.requests) + if Dials(l, bluetoothEnabled, outcome) then 1 else 0
  {
    if Dials(l, bluetoothEnabled, outcome) {
      ConnectCallsAppend(l.requests, [ConnectGatt(l.savedAddress.value, true)]);
      assert [ConnectGatt(l.savedAddress.value, true)][1..] == [];
    }
  }

  /**
   * The connect guard of `onStartCommand`: a start command calls
   * `connectGatt` exactly when the instance is current, neither connected nor
   * holding a GATT handle, and the attempt gets as far as the call.
   */
  lemma StartConnectsOnlyWhenIdle(l: Link, currentVersion: Int64, bluetoothEnabled: bool, outcome: ConnectOutcome)
    ensures ConnectCalls(Started(l, currentVersion, bluetoothEnabled, outcome).link.requests) > ConnectCalls(l.requests)
            <==> !IsOutdated(l.savedVersion, currentVersion) && !l.isConnected && !l.gattOpen
                 && Dials(l, bluetoothEnabled, outcome)
  {
    if IsOutdated(l.savedVersion, currentVersion) {
      CleanedConnectCalls(l.(savedVersion := currentVersion, running := false));
    } else if !l.isConnected && !l.gattOpen {
      AfterConnectDials(l.(savedVersion := currentVersion), bluetoothEnabled, outcome);
    }
  }

  /**
   * The version check: an instance left over from an older build shuts
   * down (not sticky, marked not running, scope and handle gone) and records
   * the new version, so a second start of the same build proceeds normally;
   * a current instance always returns sticky with the version recorded.
   */
  lemma OutdatedInstanceStopsOnce(l: Link, currentVersion: Int64, bluetoothEnabled: bool, outcome: ConnectOutcome)
    ensures var st := Started(l, currentVersion, bluetoothEnabled, outcome);
      st.link.savedVersion == currentVersion
      && (st.mode == NotSticky <==> IsOutdated(l.savedVersion, currentVersion))
      && (st.mode == NotSticky ==>
            st.link.stopped && !st.link.running && !st.link.scopeActive && st.link.pendingReconnects == 0
            && !st.link.gattOpen && st.link.isConnected == l.isConnected
            && Started(st.link, currentVersion, bluetoothEnabled, outcome).mode == Sticky)
  {
    if !IsOutdated(l.savedVersion, currentVersion) {
      AfterConnectKeepsVersion(l.(savedVersion := currentVersion), bluetoothEnabled, outcome);
    }
  }

  lemma AfterConnectKeepsVersion(l: Link, bluetoothEnabled: bool, outcome: ConnectOutcome)
    ensures AfterConnect(l, bluetoothEnabled, outcome).savedVersion == l.savedVersion
  {
  }

  /**
   * A reconnect timer calls `connectGatt` exactly when the link is down and
   * the attempt gets as far as the call; unlike the start command it does not
   * look at whether a GATT handle is already open.
   */
  lemma TimerConnectsOnlyWhenDown(l: Link, bluetoothEnabled: bool, outcome: ConnectOutcome)
    requires l.pendingReconnects > 0
    ensures var n := TimerFired(l, bluetoothEnabled, outcome);
      n.isConnected == l.isConnected
      && (ConnectCalls(n.requests) > ConnectCalls(l.requests) <==> !l.isConnected && Dials(l, bluetoothEnabled, outcome))
  {
    var k := l.(pendingReconnects := l.pendingReconnects - 1);
    if !l.isConnected {
      AfterConnectDials(k, bluetoothEnabled, outcome);
    }
  }

  /** A status change reaches the event sink (when attached) and exactly one broadcast, both carrying the new status. */
  lemma StatusAnnouncedOnce(attached: bool, connected: bool)
    ensures var es := StatusEvents(attached, connected);
      |es| == (if attached then 2 else 1)
      && es[|es| - 1] == Broadcast(ConnectionStatus(connected))
      && (forall i :: 0 <= i < |es| - 1 ==> es[i] == ToBridge(ConnectionStatus(connected)))
  {
  }

  /**
   * A connect attempt never touches `isConnected`; it ends with a handle, a
   * retry scheduled, or (when `connectGatt` returns null) neither.
   */
  lemma ConnectEndsInHandleOrRetry(l: Link, bluetoothEnabled: bool, outcome: ConnectOutcome)
    requires l.scopeActive
    ensures var n := AfterConnect(l, bluetoothEnabled, outcome);
      n.isConnected == l.isConnected
      && (n.gattOpen || n.pendingReconnects == l.pendingReconnects + 1
          || (outcome == NullHandle && l.savedAddress.Some? && bluetoothEnabled))
      && (n.pendingReconnects == l.pendingReconnects + 1 <==> l.savedAddress.None? || !bluetoothEnabled || outcome == Failed)
  {
  }

  class BackgroundBleService {
    var isConnected: bool
    /** `bluetoothGatt != null`. */
    var gattOpen: bool
    var packetBuffer: string
    /** Reconnect coroutines launched and still waiting out their 15 seconds. */
    var pendingReconnects: nat
    /** `serviceScope` has not been cancelled. */
    var scopeActive: bool
    var requests: seq<Request>
    var events: seq<Event>
    /** `MainActivity.eventSink != null`. */
    var bridgeAttached: bool
    // Kept in the `health_data` shared preferences.
    var running: bool
    var savedVersion: Int64
    var savedAddress: Option<string>
    var latest: Option<HealthRecord>
    var lastUpdate: Option<Int64>
    var history: seq<HealthRecord>
    /** `stopSelf()` has been called. */
    var stopped: bool

    ghost predicate Valid()
      reads this
    {
      AllPrintable(packetBuffer) && |packetBuffer| <= BufferCap
      && (!scopeActive ==> pendingReconnects == 0)
    }

    function Out(): Outputs
      reads this`latest, this`lastUpdate, this`history, this`events
    {
      Outputs(latest, lastUpdate, history, events)
    }

    function LinkState(): Link
      reads this`isConnected, this`gattOpen, this`pendingReconnects, this`scopeActive, this`requests,
            this`bridgeAttached, this`running, this`savedVersion, this`savedAddress, this`stopped
    {
      Link(isConnected, gattOpen, pendingReconnects, scopeActive, requests, bridgeAttached, running,
           savedVersion, savedAddress, stopped)
    }

    /** `onCreate`, over the preferences a previous instance left behind. */
    constructor (storedVersion: Int64, storedAddress: Option<string>, storedLatest: Option<HealthRecord>,
                 storedUpdate: Option<Int64>, storedHistory: seq<HealthRecord>, attached: bool)
      ensures Valid()
      ensures LinkState() == Link(false, false, 0, true, [], attached, true, storedVersion, storedAddress, false)
      ensures Out() == Outputs(storedLatest, storedUpdate, storedHistory, []) && packetBuffer == []
    {
      isConnected, gattOpen, packetBuffer := false, false, [];
      pendingReconnects, scopeActive := 0, true;
      requests, events, bridgeAttached := [], [], attached;
      running, savedVersion, savedAddress := true, storedVersion, storedAddress;
      latest, lastUpdate, history := storedLatest, storedUpdate, storedHistory;
      stopped := false;
    }

    /** The app attaching or detaching its event stream. */
    method SetEventSink(attached: bool)
      requires Valid()
      modifies this
      ensures Valid()
      ensures LinkState() == old(LinkState()).(bridgeAttached := attached)
      ensures Out() == old(Out()) && packetBuffer == old(packetBuffer)
    {
      bridgeAttached := attached;
    }

    /** The app storing the paired device's address. */
    method SaveDeviceAddress(address: string)
      requires Valid()
      modifies this
      ensures Valid()
      ensures LinkState() == old(LinkState()).(savedAddress := Some(address))
      ensures Out() == old(Out()) && packetBuffer == old(packetBuffer)
    {
      savedAddress := Some(address);
    }

    /** `saveHealthData`: overwrite the latest record, append to the history, keep the newest 2000. */
    method SaveHealthData(r: HealthRecord, now: Int64)
      modifies this
      ensures latest == Some(r) && lastUpdate == Some(now) && history == Saved(old(history), r)
      ensures events == old(events) && packetBuffer == old(packetBuffer) && LinkState() == old(LinkState())
    {
      latest := Some(r);
      lastUpdate := Some(now);
      var appended := history + [r];
      var trimmed := TrimHistory(appended);
      history := trimmed;
    }

    /** What `processHealthData` does with one interpreted frame. */
    method HandleOutcome(outcome: Interpretation, sent: nat, fault: Option<nat>, now: Int64)
      returns (sent': nat, threw: bool)
      modifies this
      ensures var st := Step(old(Out()), outcome, sent, fault, bridgeAttached, now);
        Out() == st.out && sent' == st.sent && threw == st.threw
      ensures packetBuffer == old(packetBuffer) && LinkState() == old(LinkState())
    {
      sent', threw := sent, false;
      match outcome
      case Sample(r) =>
        SaveHealthData(r, now);
        if bridgeAttached {
          events := events + [ToBridge(HealthDataReceived(r))];
        }
        if fault == Some(sent) {
          threw := true;
        } else {
          events := events + [Broadcast(HealthDataReceived(r))];
          sent' := sent + 1;
        }
      case WearReminder =>
        events := events + [WearBandAlert];
        if bridgeAttached {
          events := events + [ToBridge(NotificationReceived(WearReminderText))];
        }
      case _ =>
    }

    /**
     * `processHealthData` for one notification payload (`data`, already
     * decoded to text), reading the clock once (`now`).
     */
    method ProcessHealthData(data: string, parse: string -> Option<JsonObject>, now: Int64, fault: Option<nat>)
      requires Valid()
      modifies this
      ensures Valid()
      ensures LinkState() == old(LinkState())
      ensures Sanitize(data) == [] ==> packetBuffer == old(packetBuffer) && Out() == old(Out())
      ensures Sanitize(data) != [] ==>
        var d := Extract(old(packetBuffer) + Sanitize(data));
        var res := Deliver(old(Out()), Outcomes(FramesOf(d.pieces), parse, now), 0, fault, bridgeAttached, now);
        Out() == res.out && packetBuffer == (if res.threw || |d.rest| > BufferCap then [] else d.rest)
      ensures fault.None? ==> packetBuffer == NextBuffer(old(packetBuffer), data)
    {
      NextBufferInvariant(packetBuffer, data);
      var chunk := Sanitize(data);
      if chunk == [] {
        return;
      }
      packetBuffer := packetBuffer + chunk;
      if fault.None? {
        DeliverStoresEachRecordOnce(Out(), Outcomes(FramesOf(Extract(packetBuffer).pieces), parse, now), 0, bridgeAttached, now);
      }
      RunIsExtractThenDeliver(Out(), packetBuffer, parse, now, 0, fault, bridgeAttached);
      var threw := TakeFrames(parse, now, fault);
      if threw {
        packetBuffer := [];
        return;
      }
      if |packetBuffer| > BufferCap {
        packetBuffer := [];
      }
    }

    /**
     * The extraction loop of `processHealthData`: take the leftmost frame
     * while the buffer holds both braces, hand it on, and keep what follows
     * it.  On an exception the buffer is left as it was when it was thrown.
     */
    method TakeFrames(parse: string -> Option<JsonObject>, now: Int64, fault: Option<nat>) returns (threw: bool)
      modifies this
      ensures LinkState() == old(LinkState())
      ensures var res := Run(old(Out()), old(packetBuffer), parse, now, 0, fault, bridgeAttached);
        Out() == res.out && threw == res.threw && (!threw ==> packetBuffer == res.left)
    {
      var accumulated := packetBuffer;
      ghost var total := Run(Out(), accumulated, parse, now, 0, fault, bridgeAttached);
      var sent := 0;
      threw := false;
      while HasBoth(accumulated)
        invariant packetBuffer == accumulated
        invariant LinkState() == old(LinkState())
        invariant total == Run(Out(), accumulated, parse, now, sent, fault, bridgeAttached)
        decreases |accumulated|
      {
        var start := IndexOf(accumulated, '{');
        var end := IndexOf(accumulated, '}') + 1;
        Cuts(accumulated);
        if end > start {
          var frame := accumulated[start..end];
          var outcome := ParseHealthData(frame, parse, now);
          sent, threw := HandleOutcome(outcome, sent, fault, now);
          if threw {
            return;
          }
          accumulated := accumulated[end..];
          packetBuffer := accumulated;
        } else {
          accumulated := accumulated[start..];
          packetBuffer := accumulated;
          break;
        }
      }
    }

    /** `attemptReconnect`: launch a 15-second timer on the service scope (a no-op once the scope is cancelled). */
    method AttemptReconnect()
      requires Valid()
      modifies this
      ensures Valid()
      ensures LinkState() == Rescheduled(old(LinkState()))
      ensures Out() == old(Out()) && packetBuffer == old(packetBuffer)
    {
      if scopeActive {
        pendingReconnects := pendingReconnects + 1;
      }
    }

    /** `connectToLastDevice`, with the adapter state and the outcome of `connectGatt` as inputs. */
    method ConnectToLastDevice(bluetoothEnabled: bool, outcome: ConnectOutcome)
      requires Valid()
      modifies this
      ensures Valid()
      ensures LinkState() == AfterConnect(old(LinkState()), bluetoothEnabled, outcome)
      ensures Out() == old(Out()) && packetBuffer == old(packetBuffer)
    {
      if savedAddress.Some? && bluetoothEnabled {
        match outcome
        case Opened =>
          requests := requests + [ConnectGatt(savedAddress.value, true)];
          gattOpen := true;
        case NullHandle =>
          requests := requests + [ConnectGatt(savedAddress.value, true)];
          gattOpen := false;
        case Failed =>
          AttemptReconnect();
      } else {
        AttemptReconnect();
      }
    }

    /**
     * `onConnectionStateChange`; `mtuRequestStarted` is what `requestMtu(512)`
     * returned, `fault` which call of the disconnect announcement throws.
     */
    method OnConnectionStateChange(newState: int, mtuRequestStarted: bool, fault: StatusFault)
      requires Valid()
      modifies this
      ensures Valid()
      ensures newState == StateConnected ==>
        LinkState() == OnConnected(old(LinkState()), mtuRequestStarted) && packetBuffer == [] && Out() == old(Out())
      ensures newState == StateDisconnected ==>
        var a := Announce(old(bridgeAttached), false, fault);
        LinkState() == OnDisconnected(old(LinkState()), a.completed) && packetBuffer == []
        && Out() == old(Out()).(events := old(events) + a.events)
      ensures newState != StateConnected && newState != StateDisconnected ==>
        LinkState() == old(LinkState()) && packetBuffer == old(packetBuffer) && Out() == old(Out())
    {
      if newState == StateConnected {
        LinkUp(mtuRequestStarted);
      } else if newState == StateDisconnected {
        LinkDown(fault);
      }
    }

    /** The `STATE_CONNECTED` branch. */
    method LinkUp(mtuRequestStarted: bool)
      requires Valid()
      modifies this
      ensures Valid()
      ensures LinkState() == OnConnected(old(LinkState()), mtuRequestStarted) && packetBuffer == [] && Out() == old(Out())
    {
      isConnected := true;
      packetBuffer := [];
      requests := requests + [RequestMtu(RequestedMtu)];
      if !mtuRequestStarted {
        requests := requests + [DiscoverServices];
      }
    }

    /** The `STATE_DISCONNECTED` branch: an exception in the announcement skips the retry. */
    method LinkDown(fault: StatusFault)
      requires Valid()
      modifies this
      ensures Valid()
      ensures var a := Announce(old(bridgeAttached), false, fault);
        LinkState() == OnDisconnected(old(LinkState()), a.completed) && packetBuffer == []
        && Out() == old(Out()).(events := old(events) + a.events)
    {
      isConnected := false;
      packetBuffer := [];
      var completed := AnnounceStatus(false, fault);
      if completed {
        AttemptReconnect();
      }
    }

    /** The sink call (when a sink is attached) and then the broadcast of a connection status, up to the call that throws. */
    method AnnounceStatus(connected: bool, fault: StatusFault) returns (completed: bool)
      requires Valid()
      modifies this`events
      ensures Valid()
      ensures var a := Announce(bridgeAttached, connected, fault);
        events == old(events) + a.events && completed == a.completed
    {
      if bridgeAttached {
        if fault == SinkThrows {
          return false;
        }
        events := events + [ToBridge(ConnectionStatus(connected))];
      }
      if fault == BroadcastThrows {
        return false;
      }
      events := events + [Broadcast(ConnectionStatus(connected))];
      completed := true;
    }

    /**
     * `onMtuChanged`: discovery starts and the link is announced as connected,
     * whatever the status; an exception in the announcement ends the callback.
     */
    method OnMtuChanged(fault: StatusFault)
      requires Valid()
      modifies this
      ensures Valid()
      ensures LinkState() == OnMtu(old(LinkState())) && packetBuffer == old(packetBuffer)
      ensures Out() == old(Out()).(events := old(events) + Announce(bridgeAttached, true, fault).events)
    {
      requests := requests + [DiscoverServices];
      var _ := AnnounceStatus(true, fault);
    }

    /** `onServicesDiscovered`; `characteristicFound` is whether the health characteristic is offered. */
    method OnServicesDiscovered(status: int, characteristicFound: bool)
      requires Valid()
      modifies this
      ensures Valid()
      ensures LinkState() == OnDiscovered(old(LinkState()), status, characteristicFound)
      ensures Out() == old(Out()) && packetBuffer == old(packetBuffer)
    {
      if status == GattSuccess && characteristicFound {
        requests := requests + [EnableNotifications, WriteCccd];
      }
    }

    /** `cleanup`. */
    method Cleanup()
      requires Valid()
      modifies this
      ensures Valid()
      ensures LinkState() == Cleaned(old(LinkState()))
      ensures Out() == old(Out()) && packetBuffer == old(packetBuffer)
    {
      scopeActive, pendingReconnects := false, 0;
      if gattOpen {
        requests := requests + [Disconnect, Close];
      }
      gattOpen := false;
    }

    /** `onStartCommand`, with the installed build's version code as input. */
    method OnStartCommand(currentVersion: Int64, bluetoothEnabled: bool, outcome: ConnectOutcome) returns (mode: StartMode)
      requires Valid()
      modifies this
      ensures Valid()
      ensures Start(LinkState(), mode) == Started(old(LinkState()), currentVersion, bluetoothEnabled, outcome)
      ensures Out() == old(Out()) && packetBuffer == old(packetBuffer)
    {
      if savedVersion != UnsetVersion && savedVersion != currentVersion {
        Retire(currentVersion);
        return NotSticky;
      }
      savedVersion := currentVersion;
      if !isConnected && !gattOpen {
        ConnectToLastDevice(bluetoothEnabled, outcome);
      }
      return Sticky;
    }

    /** The outdated-instance branch of `onStartCommand`: record the version, mark not running, clean up, stop. */
    method Retire(currentVersion: Int64)
      requires Valid()
      modifies this
      ensures Valid()
      ensures LinkState() == Cleaned(old(LinkState()).(savedVersion := currentVersion, running := false)).(stopped := true)
      ensures Out() == old(Out()) && packetBuffer == old(packetBuffer)
    {
      savedVersion := currentVersion;
      running := false;
      Cleanup();
      stopped := true;
    }

    /** One pending reconnect timer runs out. */
    method FireReconnectTimer(bluetoothEnabled: bool, outcome: ConnectOutcome)
      requires Valid() && pendingReconnects > 0
      modifies this
      ensures Valid()
      ensures LinkState() == TimerFired(old(LinkState()), bluetoothEnabled, outcome)
      ensures Out() == old(Out()) && packetBuffer == old(packetBuffer)
    {
      pendingReconnects := pendingReconnects - 1;
      if !isConnected {
        ConnectToLastDevice(bluetoothEnabled, outcome);
      }
    }

    /** `onDestroy`. */
    method OnDestroy()
      requires Valid()
      modifies this
      ensures Valid()
      ensures LinkState() == Destroyed(old(LinkState()))
      ensures Out() == old(Out()) && packetBuffer == old(packetBuffer)
    {
      running := false;
      Cleanup();
    }
  }

  datatype Pass = Pass(out: Outputs, threw: bool, left: string)

  /**
   * The extraction loop run on `acc`, frame by frame: what it stores and
   * sends, whether a broadcast threw, and the buffer it leaves.
   */
  function Run(o: Outputs, acc: string, parse: string -> Option<JsonObject>, now: Int64,
               sent: nat, fault: Option<nat>, attached: bool): Pass
    decreases |acc|
  {
    if HasBoth(acc) then
      var start, end := IndexOf(acc, '{'), IndexOf(acc, '}') + 1;
      if end > start then
        var st := Step(o, ParseHealthData(acc[start..end], parse, now), sent, fault, attached, now);
        if st.threw then Pass(st.out, true, acc) else Run(st.out, acc[end..], parse, now, st.sent, fault, attached)
      else Pass(o, false, acc[start..])
    else Pass(o, false, acc)
  }

  /**
   * The loop does what `Extract` and `Deliver` say in two stages: it cuts the
   * buffer into the frames `Extract` finds, delivers their interpretations
   * in order, and (without an exception) leaves what `Extract` leaves.
   */
  lemma {:induction false} RunIsExtractThenDeliver(o: Outputs, acc: string, parse: string -> Option<JsonObject>,
                                                  now: Int64, sent: nat, fault: Option<nat>, attached: bool)
    ensures var r := Run(o, acc, parse, now, sent, fault, attached);
      var d := Deliver(o, Outcomes(FramesOf(Extract(acc).pieces), parse, now), sent, fault, attached, now);
      r.out == d.out && r.threw == d.threw && (!r.threw ==> r.left == Extract(acc).rest)
    decreases |acc|
  {
    ExtractHalts(acc);
    if HasBoth(acc) && IndexOf(acc, '}') + 1 > IndexOf(acc, '{') {
      var end := IndexOf(acc, '}') + 1;
      DeliverNextFrame(acc, o, parse, now, sent, fault, attached);
      var st := Step(o, ParseHealthData(acc[IndexOf(acc, '{')..end], parse, now), sent, fault, attached, now);
      if !st.threw {
        RunIsExtractThenDeliver(st.out, acc[end..], parse, now, st.sent, fault, attached);
      }
    }
  }

  /** One turn of the extraction loop, seen through `Deliver`: the frame taken is the first one `Extract` yields. */
  lemma DeliverNextFrame(acc: string, o: Outputs, parse: string -> Option<JsonObject>, now: Int64,
                         sent: nat, fault: Option<nat>, attached: bool)
    requires HasBoth(acc) && 0 <= IndexOf(acc, '{') < IndexOf(acc, '}') + 1
    ensures var start, end := IndexOf(acc, '{'), IndexOf(acc, '}') + 1;
      var st := Step(o, ParseHealthData(acc[start..end], parse, now), sent, fault, attached, now);
      Extract(acc).rest == Extract(acc[end..]).rest
      && Deliver(o, Outcomes(FramesOf(Extract(acc).pieces), parse, now), sent, fault, attached, now)
         == if st.threw then Delivery(st.out, true)
            else Deliver(st.out, Outcomes(FramesOf(Extract(acc[end..]).pieces), parse, now), st.sent, fault, attached, now)
  {
    var start, end := IndexOf(acc, '{'), IndexOf(acc, '}') + 1;
    ExtractTakesFirst(acc);
    var tail := Extract(acc[end..]);
    var ps := [Piece(acc[..start], acc[start..end])] + tail.pieces;
    assert Extract(acc).pieces == ps;
    assert ps[1..] == tail.pieces;
    var frames := FramesOf(ps);
    assert frames[1..] == FramesOf(tail.pieces);
    var its := Outcomes(frames, parse, now);
    assert its[1..] == Outcomes(frames[1..], parse, now);
  }
}
