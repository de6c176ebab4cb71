/**
  Waiters and queued sends as the connection engine drives them: what every event
  keeps, and that nothing survives the loss of the connection.
*/
module SessionTables {
  import opened Options
  import opened Connection
  import opened ConnectionInvariant
  import W = Waiters
  import Q = SendQueue

  ghost predicate TablesOk(s: State) {
    && W.Valid(s.waiters) && Q.Valid(s.sends)
    // a send is queued only while connecting, a waiter pends only on a live attempt
    && (s.sends.queue != [] ==> s.link.status == Connecting)
    && (s.waiters.pending != [] ==> s.link.status == Connecting || s.link.status == Connected)
  }

  // Promises settle once, the wire only grows.
  ghost predicate Monotone(s: State, r: State) {
    && W.Preserves(s.waiters, r.waiters)
    && s.sends.next <= r.sends.next && s.sends.wire <= r.sends.wire
    && (forall id :: id in s.sends.fates ==> id in r.sends.fates && r.sends.fates[id] == s.sends.fates[id])
  }

  ghost predicate Progress(s: State, r: State) { TablesOk(r) && Monotone(s, r) }

  lemma RejectAllIsMonotone(l: Q.Ledger)
    requires Q.Valid(l)
    ensures l.wire == Q.RejectAll(l).wire && l.next == Q.RejectAll(l).next
    ensures forall id :: id in l.fates ==> id in Q.RejectAll(l).fates && Q.RejectAll(l).fates[id] == l.fates[id]
  {
    Q.FlushFromIsExact(l.queue, l.(queue := []), false, {});
    WireUntouched(l.queue, l.(queue := []));
    forall id | id in l.fates ensures !Q.Queued(l.queue, id) {}
  }

  lemma {:induction false} WireUntouched(q: seq<Q.Send>, l: Q.Ledger)
    ensures Q.FlushFrom(q, l, false, {}).wire == l.wire && Q.FlushFrom(q, l, false, {}).next == l.next
  {
    if q != [] { WireUntouched(q[1..], Q.FlushOne(l, q[0], false, {})); }
  }

  // Every private step either keeps both tables, or clears both.
  ghost predicate Keeps(s: State, r: State) {
    r.waiters == s.waiters && r.sends == s.sends && (r.link.status == s.link.status || r.link.status == Connecting)
  }

  ghost predicate Drops(s: State, r: State) {
    r.waiters == W.Clear(s.waiters, W.ConnectionLost) && r.sends == Q.RejectAll(s.sends)
  }

  lemma KeptIsProgress(s: State, r: State)
    requires TablesOk(s) && Keeps(s, r)
    ensures Progress(s, r)
  {
  }

  lemma DroppedIsProgress(s: State, r: State)
    requires TablesOk(s) && Drops(s, r)
    ensures Progress(s, r) && r.waiters.pending == [] && r.sends.queue == []
  {
    W.ClearKeepsValid(s.waiters, W.ConnectionLost);
    W.RecordAllAt(s.waiters.pending, s.waiters.outcomes, W.Rejected(W.ConnectionLost));
    Q.FlushKeepsValid(s.sends, false, {});
    RejectAllIsMonotone(s.sends);
  }

  lemma StepIsProgress(s: State, r: State)
    requires TablesOk(s) && (Keeps(s, r) || Drops(s, r))
    ensures Progress(s, r)
  {
    if Keeps(s, r) { KeptIsProgress(s, r); } else { DroppedIsProgress(s, r); }
  }

  // After `scheduleReconnect` no waiter, queued send, probe or terminal slot survives.
  lemma ScheduleReconnectDropsAll(s: State, event: Cause)
    requires TablesOk(s)
    ensures var r := ScheduleReconnect(s, event);
            && r.waiters.pending == [] && r.sends.queue == []
            && r.live.probe.None? && !r.link.serverInfo && r.link.slots == {}
  {
    ScheduleReconnectDrops(s, event);
    DroppedIsProgress(s, ScheduleReconnect(s, event));
  }

  lemma ScheduleReconnectDrops(s: State, event: Cause)
    ensures Drops(s, ScheduleReconnect(s, event))
    ensures ScheduleReconnect(s, event).live.probe.None? && !ScheduleReconnect(s, event).link.serverInfo
    ensures ScheduleReconnect(s, event).link.slots == {}
  {
  }

  lemma AttemptKeepsOrDrops(s: State, a: Attempt)
    ensures Keeps(s, AttemptConnect(s, a)) || Drops(s, AttemptConnect(s, a))
  {
  }

  lemma EnsureKeepsOrDrops(s: State, v: bool, a: Attempt)
    ensures Keeps(s, DoConnect(s, a)) || Drops(s, DoConnect(s, a))
    ensures Keeps(s, DoEnsureConnected(s, v, a)) || Drops(s, DoEnsureConnected(s, v, a))
  {
    AttemptKeepsOrDrops(NewConnectPromise(s), a);
    var s1 := s.(retry := s.retry.(wanted := true));
    AttemptKeepsOrDrops(s1, a);
    AttemptKeepsOrDrops(NewConnectPromise(s1), a);
  }

  lemma FailureKeepsOrDrops(s: State)
    ensures Keeps(s, RecordLivenessFailure(s)) || Drops(s, RecordLivenessFailure(s))
  {
  }

  lemma ProbeKeepsOrDrops(s: State, drives: bool, heartbeat: bool, ok: bool)
    ensures Keeps(s, Ping(s, drives, heartbeat, ok)) || Drops(s, Ping(s, drives, heartbeat, ok))
    ensures Keeps(s, ProbeTimeout(s)) || Drops(s, ProbeTimeout(s))
  {
    FailureKeepsOrDrops(s);
    FailureKeepsOrDrops(s.(live := s.live.(probe := None)));
  }

  lemma MonotoneComposes(s: State, m: State, r: State)
    requires Monotone(s, m) && Monotone(m, r)
    ensures Monotone(s, r)
  {
  }

  lemma ProgressComposes(s: State, m: State, r: State)
    requires Progress(s, m) && Progress(m, r)
    ensures Progress(s, r)
  {
  }

  lemma {:induction false} CancelAllProgress(t: W.Table, keys: seq<nat>)
    requires W.Valid(t)
    ensures W.Valid(CancelAll(t, keys)) && W.Preserves(t, CancelAll(t, keys))
    ensures t.pending == [] ==> CancelAll(t, keys).pending == []
    decreases keys
  {
    if keys != [] {
      W.CancelKeepsValid(t, keys[0]);
      CancelAllProgress(W.Cancel(t, keys[0]), keys[1..]);
    }
  }

  lemma RpcProgress(s: State, requestId: Option<string>, timed: bool, judge: W.Message -> W.Reply, sendOk: bool)
    requires TablesOk(s)
    ensures Progress(s, DoRpc(s, requestId, timed, judge, sendOk))
  {
    var key := s.waiters.next;
    var t := W.Add(s.waiters, requestId, timed, judge);
    W.AddKeepsValid(s.waiters, requestId, timed, judge);
    W.CancelKeepsValid(t, key);
    Q.PushKeepsValid(s.sends, Some(key));
    if s.waiters.pending == [] { CancelOfOnly(s.waiters, requestId, timed, judge); }
  }

  lemma CancelOfOnly(t: W.Table, requestId: Option<string>, timed: bool, judge: W.Message -> W.Reply)
    requires W.Valid(t) && t.pending == []
    ensures W.Cancel(W.Add(t, requestId, timed, judge), t.next).pending == []
  {
    var ws := W.Add(t, requestId, timed, judge).pending;
    assert ws == [W.Waiter(t.next, requestId, timed, judge)];
    assert W.Without(ws, t.next) == [];
  }

  lemma SendTimeoutProgress(s: State, id: nat)
    requires TablesOk(s)
    ensures Progress(s, DoSendTimeout(s, id))
  {
    Q.TimeOutKeepsValid(s.sends, id);
    Q.TimeOutIsExact(s.sends, id);
    CancelAllProgress(s.waiters, WaitersOfSend(s.sends.queue, id));
  }

  lemma ServerInfoProgress(s: State, msg: W.Message, throws: set<nat>)
    requires TablesOk(s) && s.link.transport.Some?
    ensures Progress(s, DoServerInfo(s, msg, throws))
  {
    W.ResolveKeepsValid(s.waiters, msg);
    W.SettledOnce(s.waiters, msg, "", 0, W.TimedOut);
    if s.waiters.pending == [] { ResolveKeepsEmpty(s.waiters, msg); }
    Q.FlushKeepsValid(s.sends, true, throws);
    Q.FlushIsExact(s.sends, true, throws);
    Q.FlushFromKeepsNext(s.sends.queue, s.sends.(queue := []), true, throws);
    CancelAllProgress(W.Resolve(s.waiters, msg), Q.FailedWaiters(s.sends.queue, true, throws));
  }

  lemma ResolveKeepsEmpty(t: W.Table, msg: W.Message)
    requires t.pending == []
    ensures W.Resolve(t, msg) == t
  {
  }

  lemma TransportKeepsOrDrops(s: State, e: Event)
    requires e.OnOpen? || e.OnClose? || e.OnError? || e.OnPong? || e.OnHelloRejected? || e.OnBinary?
    ensures Keeps(s, OnTransport(s, e)) || Drops(s, OnTransport(s, e))
  {
  }

  lemma CallbackProgress(s: State, e: Event)
    requires TablesOk(s)
    requires e.OnOpen? || e.OnClose? || e.OnError? || e.OnPong? || e.OnHelloRejected? || e.OnBinary?
    ensures Progress(s, OnTransport(s, e))
  {
    TransportKeepsOrDrops(s, e);
    StepIsProgress(s, OnTransport(s, e));
  }

  lemma AliveProgress(s: State, r: State)
    requires Progress(Alive(s), r)
    ensures Progress(s, r)
  {
  }

  lemma TransportProgress(s: State, e: Event)
    requires TablesOk(s) && FromTransport(e) && s.link.transport == Some(e.tid)
    ensures Progress(s, OnTransport(s, e))
  {
    match e {
      case OnServerInfo(t, msg, throws) =>
        ServerInfoProgress(Alive(s), msg, throws);
        AliveProgress(s, DoServerInfo(Alive(s), msg, throws));
      case OnSession(t, msg) => SessionProgress(s, msg);
      case OnInvalid(t, id) => if id.Some? { InvalidProgress(s, id.value); }
      case _ => CallbackProgress(s, e);
    }
  }

  lemma SessionProgress(s: State, msg: W.Message)
    requires TablesOk(s)
    ensures Progress(s, Alive(s).(waiters := W.Resolve(s.waiters, msg)))
  {
    W.ResolveKeepsValid(s.waiters, msg);
    W.SettledOnce(s.waiters, msg, "", 0, W.TimedOut);
    if s.waiters.pending == [] { ResolveKeepsEmpty(s.waiters, msg); }
  }

  lemma InvalidProgress(s: State, id: string)
    requires TablesOk(s)
    ensures Progress(s, s.(waiters := W.RejectForRequestId(s.waiters, id)))
  {
    W.RejectForKeepsValid(s.waiters, id);
    W.SettledOnce(s.waiters, W.Message("", "", ""), id, 0, W.TimedOut);
  }

  lemma TimerKeepsOrDrops(s: State, e: Event)
    requires FromTimer(e) && !e.WaiterTimesOut? && !e.SendTimesOut?
    ensures Keeps(s, OnTimer(s, e)) || Drops(s, OnTimer(s, e))
  {
    match e {
      case ReconnectFires(a) => AttemptKeepsOrDrops(s.(retry := s.retry.(timer := None)), a);
      case HeartbeatFires(ok) => ProbeKeepsOrDrops(s.(live := s.live.(heartbeat := false)), true, true, ok);
      case ProbeTimesOut => ProbeKeepsOrDrops(s, true, true, true);
      case _ =>
    }
  }

  lemma TimerProgress(s: State, e: Event)
    requires TablesOk(s) && FromTimer(e)
    ensures Progress(s, OnTimer(s, e))
  {
    match e {
      case WaiterTimesOut(key) => WaiterTimeoutProgress(s, key);
      case SendTimesOut(id) => SendTimeoutProgress(s, id);
      case _ =>
        TimerKeepsOrDrops(s, e);
        StepIsProgress(s, OnTimer(s, e));
    }
  }

  lemma WaiterTimeoutProgress(s: State, key: nat)
    requires TablesOk(s)
    ensures Progress(s, s.(waiters := W.Timeout(s.waiters, key)))
            && Progress(s, s.(waiters := W.Cancel(s.waiters, key)))
  {
    W.TimeoutKeepsValid(s.waiters, key);
    W.CancelKeepsValid(s.waiters, key);
    W.SettledOnce(s.waiters, W.Message("", "", ""), "", key, W.TimedOut);
  }

  lemma TearDownProgress(s: State, event: Cause)
    requires TablesOk(s)
    ensures Progress(s, ScheduleReconnect(DisposeTransport(s), event))
  {
    ScheduleReconnectDrops(DisposeTransport(s), event);
    DroppedIsProgress(s, ScheduleReconnect(DisposeTransport(s), event));
  }

  lemma EnsureAfterProgress(s: State, m: State, a: Attempt)
    requires TablesOk(s) && Progress(s, m)
    ensures Progress(s, DoEnsureConnected(m, false, a))
  {
    EnsureProgress(m, false, a);
    ProgressComposes(s, m, DoEnsureConnected(m, false, a));
  }

  lemma EndVerificationProgress(s: State, r: State, t: Tid)
    requires Progress(s, r)
    ensures Progress(s, EndVerification(r, t))
  {
  }

  lemma VerificationProgress(s: State, t: Tid, a: Attempt)
    requires TablesOk(s)
    ensures Progress(s, DoVerificationFails(s, t, a))
  {
    if s.link.transport == Some(t) && s.link.status == Connected {
      var m := ScheduleReconnect(DisposeTransport(s), VerificationFailed);
      TearDownProgress(s, VerificationFailed);
      EnsureAfterProgress(s, m, a);
      EndVerificationProgress(s, DoEnsureConnected(m, false, a), t);
    }
  }

  lemma PingProgress(s: State, ok: bool)
    requires TablesOk(s)
    ensures Progress(s, Ping(s, false, false, ok))
  {
  }

  lemma EnsureProgress(s: State, v: bool, a: Attempt)
    requires TablesOk(s)
    ensures Progress(s, DoConnect(s, a)) && Progress(s, DoEnsureConnected(s, v, a))
  {
    EnsureKeepsOrDrops(s, v, a);
    StepIsProgress(s, DoConnect(s, a));
    StepIsProgress(s, DoEnsureConnected(s, v, a));
  }

  lemma CloseProgress(s: State)
    requires TablesOk(s)
    ensures Progress(s, DoClose(s))
    ensures s.link.status != Disposed ==> DoClose(s).waiters.pending == [] && DoClose(s).sends.queue == []
  {
    W.ClearKeepsValid(s.waiters, W.ClientClosed);
    W.RecordAllAt(s.waiters.pending, s.waiters.outcomes, W.Rejected(W.ClientClosed));
    Q.FlushKeepsValid(s.sends, false, {});
    RejectAllIsMonotone(s.sends);
  }

  predicate Continues(e: Event) {
    e.VerificationSucceeds? || e.VerificationFails? || e.ReleaseFails?
  }

  lemma UnchangedProgress(s: State)
    requires TablesOk(s)
    ensures Progress(s, s)
  {
  }

  lemma SettledProgress(s: State, e: Event)
    requires TablesOk(s) && Continues(e)
    ensures Progress(s, OnSettled(s, e))
  {
    UnchangedProgress(s);
    match e {
      case VerificationSucceeds(t) => EndVerificationProgress(s, s, t);
      case VerificationFails(t, a) => VerificationProgress(s, t, a);
      case ReleaseFails => TearDownProgress(s, TransportClosed);
    }
  }

  lemma CallProgress(s: State, e: Event)
    requires TablesOk(s) && !FromTransport(e) && !FromTimer(e) && !Continues(e)
    ensures Progress(s, OnCall(s, e))
  {
    match e {
      case Connect(a) => EnsureProgress(s, false, a);
      case EnsureConnected(v, a) => EnsureProgress(s, v, a);
      case SetReconnectEnabled(b) =>
      case Close => CloseProgress(s);
      case Rpc(id, timed, judge, ok) => RpcProgress(s, id, timed, judge, ok);
      case CancelRpc(key) => WaiterTimeoutProgress(s, key);
      case MeasureLatency(ok) => PingProgress(s, ok);
      case AttachTerminal(slot) =>
    }
  }

  lemma StepProgress(s: State, e: Event)
    requires TablesOk(s)
    ensures Progress(s, Step(s, e))
  {
    if FromTransport(e) {
      if s.link.transport == Some(e.tid) { TransportProgress(s, e); }
    } else if FromTimer(e) {
      TimerProgress(s, e);
    } else if Continues(e) {
      SettledProgress(s, e);
    } else {
      CallProgress(s, e);
    }
  }

  lemma InitialTablesOk(backoff: Backoff, enabled: bool)
    ensures TablesOk(Initial(backoff, enabled))
  {
  }

  // Over every run: a waiter is in the set exactly when it is unsettled, a
  // disconnected client has none and no queued send, every accepted send is
  // queued, sent or rejected exactly once, and the wire is in acceptance order.
  lemma {:induction false} TablesOverRuns(backoff: Backoff, enabled: bool, es: seq<Event>, k: nat)
    requires k <= |es|
    ensures var s := At(Initial(backoff, enabled), es, k);
            && TablesOk(s)
            && (s.link.status !in {Connecting, Connected} ==>
                  s.waiters.pending == [] && s.sends.queue == [] && s.live.probe.None?)
            && |s.sends.wire| + Q.CountFate(s.sends, Q.Failed, s.sends.next) + |s.sends.queue| == s.sends.next
  {
    var s := At(Initial(backoff, enabled), es, k);
    RunKeepsConnectionOk(backoff, enabled, es, k);
    if k == 0 {
      InitialTablesOk(backoff, enabled);
    } else {
      TablesOverRuns(backoff, enabled, es, k - 1);
      StepProgress(At(Initial(backoff, enabled), es, k - 1), es[k - 1]);
    }
    Q.Conservation(s.sends);
  }

  lemma MonotoneStep(s: State, m: State, e: Event)
    requires Monotone(s, m) && TablesOk(m)
    ensures Monotone(s, Step(m, e))
  {
    StepProgress(m, e);
    MonotoneComposes(s, m, Step(m, e));
  }

  // Over every run each promise keeps its first outcome, and what reached the wire
  // stays a prefix of what reaches it later.
  lemma {:induction false} SettledOnceOverRuns(backoff: Backoff, enabled: bool, es: seq<Event>, k: nat, n: nat)
    requires k <= n <= |es|
    ensures Monotone(At(Initial(backoff, enabled), es, k), At(Initial(backoff, enabled), es, n))
    decreases n - k
  {
    if k < n {
      SettledOnceOverRuns(backoff, enabled, es, k, n - 1);
      TablesOverRuns(backoff, enabled, es, n - 1);
      var s0 := Initial(backoff, enabled);
      MonotoneStep(At(s0, es, k), At(s0, es, n - 1), es[n - 1]);
    }
  }
}
