/**
  The connection engine of the daemon client as a state machine.

  `State` holds the fields of the client object; each function below is one of its
  private steps, and `Step` is one event run to completion: a caller's call, a timer
  that fires, or a callback of the transport, together with the promise continuations
  it makes runnable. Transports, promises, waiters and sends are named by numbers.
*/
module Connection {
  import opened Options
  import W = Waiters
  import Q = SendQueue

  type Tid = nat

  datatype Status = Idle | Connecting | Connected | Disconnected | Disposed

  // The event label that `updateConnectionState` reports with each transition.
  datatype Cause =
    | ConnectRequest | HelloServerInfo | TransportClosed | TransportFailed | ConnectTimedOut
    | ConnectFailed | HelloSendFailed | LivenessTimedOut | VerificationFailed | Dispose

  datatype Transition = Transition(to: Status, event: Cause)

  // The one outstanding ping: whether its failure counts, and whether the
  // heartbeat is waiting on its promise to schedule its next beat.
  datatype Probe = Probe(drivesLiveness: bool, heartbeatWaits: bool)

  // How a connection attempt ends: `NoCredential` throws before the old transport
  // is disposed, `Refused` is the relay-without-encryption check, `FactoryThrows`
  // is any later failure to construct the transport.
  datatype Attempt = NoCredential | Refused | FactoryThrows | Opens

  datatype Backoff = Backoff(base: nat, max: nat)

  datatype Link = Link(
    status: Status,
    transport: Option<Tid>,
    unclosed: set<Tid>,          // constructed, and `close` never called on it
    nextTransport: Tid,
    serverInfo: bool,            // lastServerInfoMessage is set
    slots: set<int>,             // terminal stream slots that are attached
    log: seq<Transition>)

  datatype Retry = Retry(
    wanted: bool,                // shouldReconnect
    enabled: bool,               // config.reconnect.enabled !== false
    authFailed: bool,            // authFailureReason is set
    timer: Option<nat>,          // reconnectTimeout, armed with this delay
    attempt: nat,                // reconnectAttempt
    delays: seq<nat>,            // delays armed since the last handshake
    backoff: Backoff)

  datatype Deadlines = Deadlines(
    connect: bool,               // connectTimeout
    error: bool)                 // pendingGenericTransportErrorTimeout

  datatype Connects = Connects(
    promise: Option<nat>,        // connectPromise
    hooks: Option<nat>,          // the promise that connectResolve and connectReject settle
    settled: map<nat, bool>,
    next: nat)

  datatype Liveness = Liveness(
    heartbeat: bool,             // livenessHeartbeatTimer
    probe: Option<Probe>,        // pingProbe
    failures: nat,               // consecutiveLivenessFailures
    verification: Option<Tid>,   // connectionVerification
    verifying: set<Tid>)         // verification pings still outstanding

  datatype State = State(
    link: Link, retry: Retry, deadlines: Deadlines, connects: Connects, live: Liveness,
    waiters: W.Table, sends: Q.Ledger)

  const LIVENESS_THRESHOLD := 2

  function Initial(backoff: Backoff, enabled: bool): State {
    State(Link(Idle, None, {}, 0, false, {}, []), Retry(true, enabled, false, None, 0, [], backoff),
          Deadlines(false, false),
          Connects(None, None, map[], 0), Liveness(false, None, 0, None, {}), W.EMPTY, Q.EMPTY)
  }

  datatype Event =
    // callers
    | Connect(attempt: Attempt)
    | EnsureConnected(verify: bool, attempt: Attempt)
    | SetReconnectEnabled(enabled: bool)
    | Close
    | Rpc(requestId: Option<string>, timed: bool, judge: W.Message -> W.Reply, sendOk: bool)
    | CancelRpc(key: nat)
    | MeasureLatency(sendOk: bool)
    | AttachTerminal(slot: int)
    // timers
    | ReconnectFires(attempt: Attempt)
    | ConnectTimeoutFires
    | ErrorTimerFires
    | HeartbeatFires(sendOk: bool)
    | ProbeTimesOut
    | WaiterTimesOut(key: nat)
    | SendTimesOut(id: nat)
    // transport callbacks
    | OnOpen(tid: Tid, helloOk: bool)
    | OnClose(tid: Tid, authFailure: bool)
    | OnError(tid: Tid, generic: bool)
    // inbound frames
    | OnServerInfo(tid: Tid, msg: W.Message, throws: set<nat>)
    | OnPong(tid: Tid)
    | OnHelloRejected(tid: Tid, auth: bool)
    | OnSession(tid: Tid, msg: W.Message)
    | OnInvalid(tid: Tid, requestId: Option<string>)
    | OnBinary(tid: Tid)
    // settled session RPCs that act on the connection
    | VerificationSucceeds(tid: Tid)
    | VerificationFails(tid: Tid, attempt: Attempt)
    | ReleaseFails

  // ------------------------------------------------------------ private steps

  function Transit(l: Link, to: Status, event: Cause): Link {
    l.(status := to, log := l.log + [Transition(to, event)])
  }

  // `resolveConnect` and `rejectConnect`
  function SettleConnect(c: Connects, ok: bool): Connects {
    Connects(None, None,
             if c.hooks.Some? && c.hooks.value !in c.settled then c.settled[c.hooks.value := ok] else c.settled,
             c.next)
  }

  function CloseLink(l: Link): Link {
    if l.transport.None? then l else l.(unclosed := l.unclosed - {l.transport.value}, transport := None)
  }

  // `disposeTransport`, with `stopLivenessHeartbeat` and `cleanupTransport`
  function DisposeTransport(s: State): State {
    s.(link := CloseLink(s.link), deadlines := Deadlines(false, false), live := s.live.(heartbeat := false))
  }

  function SetEnabled(r: Retry, enabled: bool): Retry {
    r.(enabled := enabled, timer := if enabled then r.timer else None)
  }

  function Pow2(k: nat): nat { if k == 0 then 1 else 2 * Pow2(k - 1) }

  function Delay(b: Backoff, k: nat): nat {
    if b.base * Pow2(k) <= b.max then b.base * Pow2(k) else b.max
  }

  function ArmReconnectTimer(r: Retry): Retry {
    var delay := Delay(r.backoff, r.attempt);
    r.(timer := Some(delay), attempt := r.attempt + 1, delays := r.delays + [delay])
  }

  // The part of `scheduleReconnect` that drops everything tied to the connection.
  function DropSession(s: State): State {
    s.(link := s.link.(serverInfo := false, slots := {}),
       retry := s.retry.(timer := None, enabled := s.retry.enabled && !s.retry.authFailed),
       live := s.live.(probe := None),
       waiters := W.Clear(s.waiters, W.ConnectionLost), sends := Q.RejectAll(s.sends))
  }

  function ScheduleReconnect(s: State, event: Cause): State {
    var s1 := DropSession(s);
    if s1.link.status == Disposed then s1.(connects := SettleConnect(s1.connects, false))
    else
      var s2 := s1.(link := Transit(s1.link, Disconnected, event));
      if !s2.retry.wanted || !s2.retry.enabled then s2.(connects := SettleConnect(s2.connects, false))
      else s2.(retry := ArmReconnectTimer(s2.retry))
  }

  // The `catch` of `attemptConnect`
  function FailAttempt(s: State): State {
    var s1 := ScheduleReconnect(s.(deadlines := s.deadlines.(connect := false)), ConnectFailed);
    s1.(connects := SettleConnect(s1.connects, false))
  }

  function OpenTransport(l: Link): Link {
    var t := l.nextTransport;
    Transit(l.(transport := Some(t), unclosed := l.unclosed + {t}, nextTransport := t + 1, serverInfo := false),
            Connecting, ConnectRequest)
  }

  function AttemptConnect(s: State, attempt: Attempt): State {
    if s.link.status == Disposed || !s.retry.wanted then s.(connects := SettleConnect(s.connects, false))
    else if s.link.status == Connecting then s
    else
      var s1 := s.(retry := s.retry.(timer := None));
      match attempt
      case NoCredential => FailAttempt(s1)
      case Refused => var s2 := DisposeTransport(s1); FailAttempt(s2.(retry := SetEnabled(s2.retry, false)))
      case FactoryThrows => FailAttempt(DisposeTransport(s1))
      case Opens =>
        var s2 := DisposeTransport(s1);
        s2.(link := OpenTransport(s2.link), retry := s2.retry.(authFailed := false),
            deadlines := Deadlines(true, false))
  }

  function NewConnectPromise(s: State): State {
    s.(retry := s.retry.(wanted := true),
       connects := s.connects.(hooks := Some(s.connects.next), next := s.connects.next + 1))
  }

  // The promise executor runs the attempt before the promise is stored.
  function DoConnect(s: State, attempt: Attempt): State {
    if s.link.status == Disposed || s.link.status == Connected || s.connects.promise.Some? then s
    else
      var s1 := AttemptConnect(NewConnectPromise(s), attempt);
      s1.(connects := s1.connects.(promise := Some(s.connects.next)))
  }

  function Verify(s: State): State {
    if s.link.transport.None? || s.live.verification == s.link.transport then s
    else s.(live := s.live.(verification := s.link.transport, verifying := s.live.verifying + {s.link.transport.value}))
  }

  function DoEnsureConnected(s: State, verify: bool, attempt: Attempt): State {
    if s.link.status == Disposed then s
    else
      var s1 := s.(retry := s.retry.(wanted := true));
      if s1.link.status == Connected then (if verify then Verify(s1) else s1)
      else if s1.link.status == Connecting then s1
      else if s1.connects.promise.Some? then AttemptConnect(s1, attempt)
      else DoConnect(s1, attempt)
  }

  function DoClose(s: State): State {
    if s.link.status == Disposed then s
    else
      var s1 := DisposeTransport(s.(retry := s.retry.(wanted := false, timer := None),
                                    connects := s.connects.(promise := None, hooks := None)));
      s1.(link := Transit(s1.link.(serverInfo := false, slots := {}), Disposed, Dispose),
          live := s1.live.(probe := None),
          waiters := W.Clear(s1.waiters, W.ClientClosed), sends := Q.RejectAll(s1.sends))
  }

  // The heartbeat's `finally`: it runs when the promise it awaited settles.
  function AfterProbe(s: State, heartbeatWaited: bool): State {
    if heartbeatWaited && s.link.status == Connected then s.(live := s.live.(heartbeat := true)) else s
  }

  function RecordLivenessFailure(s: State): State {
    if s.live.failures + 1 < LIVENESS_THRESHOLD then s.(live := s.live.(failures := s.live.failures + 1))
    else ScheduleReconnect(DisposeTransport(s.(live := s.live.(failures := 0))), LivenessTimedOut)
  }

  // `sendPingAwaitRtt`: an outstanding probe is shared whoever started it.
  function Ping(s: State, drives: bool, heartbeat: bool, sendOk: bool): State {
    if s.link.status != Connected || s.link.transport.None? then AfterProbe(s, heartbeat)
    else if s.live.probe.Some? then
      var p := s.live.probe.value;
      s.(live := s.live.(probe := Some(Probe(p.drivesLiveness, p.heartbeatWaits || heartbeat))))
    else if sendOk then s.(live := s.live.(probe := Some(Probe(drives, heartbeat))))
    else AfterProbe(if drives then RecordLivenessFailure(s) else s, heartbeat)
  }

  function ProbeTimeout(s: State): State {
    if s.live.probe.None? then s
    else
      var p := s.live.probe.value;
      var s1 := s.(live := s.live.(probe := None));
      AfterProbe(if p.drivesLiveness then RecordLivenessFailure(s1) else s1, p.heartbeatWaits)
  }

  // Any frame that passes validation proves the connection alive.
  function Alive(s: State): State {
    s.(live := s.live.(failures := 0))
  }

  function Pong(s: State): State {
    AfterProbe(s.(live := s.live.(probe := None)), s.live.probe.Some? && s.live.probe.value.heartbeatWaits)
  }

  function CancelAll(t: W.Table, keys: seq<nat>): W.Table
    decreases keys
  {
    if keys == [] then t else CancelAll(W.Cancel(t, keys[0]), keys[1..])
  }

  // `sendRequest`: add the waiter, then send, queue or fail.
  function DoRpc(s: State, requestId: Option<string>, timed: bool, judge: W.Message -> W.Reply, sendOk: bool): State {
    var key := s.waiters.next;
    var s1 := s.(waiters := W.Add(s.waiters, requestId, timed, judge));
    if s.link.transport.Some? && s.link.status == Connected && sendOk then s1
    else if s.link.status == Connecting then s1.(sends := Q.Push(s1.sends, Some(key)))
    else s1.(waiters := W.Cancel(s1.waiters, key))
  }

  function WaitersOfSend(q: seq<Q.Send>, id: nat): seq<nat> {
    var i := Q.IndexOf(q, id);
    if i.Some? && q[i.value].waiter.Some? then [q[i.value].waiter.value] else []
  }

  function DoSendTimeout(s: State, id: nat): State {
    s.(sends := Q.TimeOut(s.sends, id), waiters := CancelAll(s.waiters, WaitersOfSend(s.sends.queue, id)))
  }

  // The handshake inside `deliverSessionMessage`, up to the flush.
  function BecomeConnected(s: State): State {
    s.(link := Transit(s.link, Connected, HelloServerInfo),
       retry := s.retry.(attempt := 0, delays := []),
       deadlines := s.deadlines.(connect := false),
       live := s.live.(heartbeat := true))
  }

  function DoServerInfo(s: State, msg: W.Message, throws: set<nat>): State {
    var s0 := s.(link := s.link.(serverInfo := true));
    if s0.link.status != Connecting then s0.(waiters := W.Resolve(s0.waiters, msg))
    else
      var s1 := BecomeConnected(s0);
      var open := s1.link.transport.Some?;
      s1.(sends := Q.Flush(s1.sends, open, throws),
          connects := SettleConnect(s1.connects, true),
          waiters := CancelAll(W.Resolve(s1.waiters, msg), Q.FailedWaiters(s1.sends.queue, open, throws)))
  }

  function EndVerification(s: State, t: Tid): State {
    s.(live := s.live.(verifying := s.live.verifying - {t},
                       verification := if s.live.verification == Some(t) then None else s.live.verification))
  }

  // The `catch` and `finally` of `verifyConnection`
  function DoVerificationFails(s: State, t: Tid, attempt: Attempt): State {
    EndVerification(
      if s.link.transport != Some(t) || s.link.status != Connected then s
      else DoEnsureConnected(ScheduleReconnect(DisposeTransport(s), VerificationFailed), false, attempt), t)
  }

  // ------------------------------------------------------------------- events

  function OnCall(s: State, e: Event): State {
    match e
    case Connect(a) => DoConnect(s, a)
    case EnsureConnected(v, a) => DoEnsureConnected(s, v, a)
    case SetReconnectEnabled(b) => s.(retry := SetEnabled(s.retry, b))
    case Close => DoClose(s)
    case Rpc(id, timed, judge, ok) => DoRpc(s, id, timed, judge, ok)
    case CancelRpc(key) => s.(waiters := W.Cancel(s.waiters, key))
    case MeasureLatency(ok) => Ping(s, false, false, ok)
    case AttachTerminal(slot) => s.(link := s.link.(slots := s.link.slots + {slot}))
    case _ => s
  }

  // A timer event does nothing unless that timer is armed.
  function OnTimer(s: State, e: Event): State {
    match e
    case ReconnectFires(a) =>
      if s.retry.timer.None? then s
      else
        var s1 := s.(retry := s.retry.(timer := None));
        if !s1.retry.wanted then s1 else AttemptConnect(s1, a)
    case ConnectTimeoutFires =>
      if !s.deadlines.connect then s
      else if s.link.status != Connecting then s.(deadlines := s.deadlines.(connect := false))
      else ScheduleReconnect(DisposeTransport(s), ConnectTimedOut)
    case ErrorTimerFires =>
      if !s.deadlines.error then s
      else
        var s1 := s.(deadlines := s.deadlines.(error := false));
        if s1.link.status in {Connected, Connecting} then ScheduleReconnect(s1, TransportFailed) else s1
    case HeartbeatFires(ok) =>
      if !s.live.heartbeat then s else Ping(s.(live := s.live.(heartbeat := false)), true, true, ok)
    case ProbeTimesOut => ProbeTimeout(s)
    case WaiterTimesOut(key) => s.(waiters := W.Timeout(s.waiters, key))
    case SendTimesOut(id) => DoSendTimeout(s, id)
    case _ => s
  }

  // A callback is delivered only while its transport is the current one.
  function OnTransport(s: State, e: Event): State {
    match e
    case OnOpen(t, helloOk) =>
      var s1 := s.(deadlines := s.deadlines.(error := false));
      if helloOk then s1 else ScheduleReconnect(s1, HelloSendFailed)
    case OnClose(t, auth) =>
      ScheduleReconnect(s.(deadlines := Deadlines(false, false),
                           retry := s.retry.(authFailed := s.retry.authFailed || auth)), TransportClosed)
    case OnError(t, generic) =>
      if generic then s.(deadlines := Deadlines(false, true))
      else ScheduleReconnect(s.(deadlines := Deadlines(false, false)), TransportFailed)
    case OnServerInfo(t, msg, throws) => DoServerInfo(Alive(s), msg, throws)
    case OnPong(t) => Pong(Alive(s))
    case OnHelloRejected(t, auth) => var s1 := Alive(s); s1.(retry := s1.retry.(authFailed := auth))
    case OnSession(t, msg) => var s1 := Alive(s); s1.(waiters := W.Resolve(s1.waiters, msg))
    case OnInvalid(t, id) => if id.None? then s else s.(waiters := W.RejectForRequestId(s.waiters, id.value))
    case OnBinary(t) => Alive(s)
    case _ => s
  }

  function OnSettled(s: State, e: Event): State {
    match e
    case VerificationSucceeds(t) => if t in s.live.verifying then EndVerification(s, t) else s
    case VerificationFails(t, a) => if t in s.live.verifying then DoVerificationFails(s, t, a) else s
    case ReleaseFails => ScheduleReconnect(DisposeTransport(s), TransportClosed)
    case _ => s
  }

  predicate FromTransport(e: Event) {
    e.OnOpen? || e.OnClose? || e.OnError? || e.OnServerInfo? || e.OnPong? || e.OnHelloRejected?
    || e.OnSession? || e.OnInvalid? || e.OnBinary?
  }

  predicate FromTimer(e: Event) {
    e.ReconnectFires? || e.ConnectTimeoutFires? || e.ErrorTimerFires? || e.HeartbeatFires? || e.ProbeTimesOut?
    || e.WaiterTimesOut? || e.SendTimesOut?
  }

  function Step(s: State, e: Event): State {
    if FromTransport(e) then (if s.link.transport == Some(e.tid) then OnTransport(s, e) else s)
    else if FromTimer(e) then OnTimer(s, e)
    else if e.VerificationSucceeds? || e.VerificationFails? || e.ReleaseFails? then OnSettled(s, e)
    else OnCall(s, e)
  }

  // The state before event `k` of a run.
  function At(s: State, es: seq<Event>, k: nat): State
    requires k <= |es|
  {
    if k == 0 then s else Step(At(s, es, k - 1), es[k - 1])
  }

  lemma AtThree(s: State, es: seq<Event>)
    requires |es| >= 3
    ensures At(s, es, 1) == Step(s, es[0]) && At(s, es, 3) == Step(Step(Step(s, es[0]), es[1]), es[2])
  {
    assert At(s, es, 1) == Step(At(s, es, 0), es[0]);
    assert At(s, es, 2) == Step(At(s, es, 1), es[1]);
  }
}
