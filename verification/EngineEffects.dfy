/**
  What one event does to the connection, told by what happens to it rather than by the
  private steps that the event goes through: an attempt is made, the connection is lost,
  the client is closed, the handshake completes, or none of these.
*/
module EngineEffects {
  import opened Options
  import opened Connection
  import opened ConnectionInvariant
  import opened ConnectPromise
  import W = Waiters

  datatype Happening =
    | Attempts(attempt: Attempt, afterLoss: bool)
    | Loses(cause: Cause, closes: bool)     // `closes`: the client closes the transport itself
    | Closes
    | Shakes
    | Nothing

  predicate Idling(s: State) { s.link.status == Idle || s.link.status == Disconnected }

  predicate Current(s: State, e: Event) { FromTransport(e) && s.link.transport == Some(e.tid) }

  // A heartbeat that cannot be sent, or whose answer does not come, the second time.
  predicate SecondFailure(s: State, e: Event) {
    && s.live.failures == 1
    && match e
       case HeartbeatFires(ok) => s.live.heartbeat && s.link.status == Connected && s.live.probe.None? && !ok
       case ProbeTimesOut => s.live.probe.Some? && s.live.probe.value.drivesLiveness
       case _ => false
  }

  function Happens(s: State, e: Event): Happening {
    match e
    case Connect(a) => if Idling(s) && s.connects.promise.None? then Attempts(a, false) else Nothing
    case EnsureConnected(_, a) => if Idling(s) then Attempts(a, false) else Nothing
    case ReconnectFires(a) => if s.retry.timer.Some? then Attempts(a, false) else Nothing
    case VerificationFails(t, a) =>
      if t in s.live.verifying && s.link.transport == Some(t) && s.link.status == Connected then Attempts(a, true)
      else Nothing
    case Close => Closes
    case OnServerInfo(_, _, _) => if Current(s, e) && s.link.status == Connecting then Shakes else Nothing
    case OnOpen(_, ok) => if Current(s, e) && !ok then Loses(HelloSendFailed, false) else Nothing
    case OnClose(_, _) => if Current(s, e) then Loses(TransportClosed, false) else Nothing
    case OnError(_, generic) => if Current(s, e) && !generic then Loses(TransportFailed, false) else Nothing
    case ConnectTimeoutFires =>
      if s.deadlines.connect && s.link.status == Connecting then Loses(ConnectTimedOut, true) else Nothing
    case ErrorTimerFires =>
      if s.deadlines.error && (s.link.status == Connecting || s.link.status == Connected) then
        Loses(TransportFailed, false)
      else Nothing
    case ReleaseFails => Loses(TransportClosed, true)
    case HeartbeatFires(_) => if SecondFailure(s, e) then Loses(LivenessTimedOut, true) else Nothing
    case ProbeTimesOut => if SecondFailure(s, e) then Loses(LivenessTimedOut, true) else Nothing
    case _ => Nothing
  }

  // The session is dropped: the attempt failed, or followed a loss, or there was a loss.
  predicate Drops(h: Happening) { h.Loses? || (h.Attempts? && (h.afterLoss || h.attempt != Opens)) }

  // The client disposes of the transport it had.
  predicate Disposes(h: Happening) {
    h.Closes? || (h.Loses? && h.closes) || (h.Attempts? && (h.afterLoss || h.attempt != NoCredential))
  }

  predicate Fails(h: Happening) { h.Attempts? && h.attempt != Opens }

  // ----------------------------------------------------------- link and deadlines

  function StatusAfter(s: State, h: Happening): Status {
    match h
    case Attempts(a, _) => if a == Opens then Connecting else Disconnected
    case Loses(_, _) => Disconnected
    case Closes => Disposed
    case Shakes => Connected
    case Nothing => s.link.status
  }

  function TransportAfter(s: State, h: Happening): Option<Tid> {
    if h.Attempts? && h.attempt == Opens then Some(s.link.nextTransport)
    else if Disposes(h) then None
    else s.link.transport
  }

  function LogAfter(h: Happening): seq<Transition> {
    match h
    case Attempts(a, lost) =>
      (if lost then [Transition(Disconnected, VerificationFailed)] else [])
      + (if a == Opens then [Transition(Connecting, ConnectRequest)] else [Transition(Disconnected, ConnectFailed)])
    case Loses(cause, _) => [Transition(Disconnected, cause)]
    case Closes => [Transition(Disposed, Dispose)]
    case Shakes => [Transition(Connected, HelloServerInfo)]
    case Nothing => []
  }

  ghost predicate LinkMoves(s: State, e: Event, r: State) {
    var h := Happens(s, e);
    && r.link.status == StatusAfter(s, h) && r.link.transport == TransportAfter(s, h)
    && r.link.nextTransport == s.link.nextTransport + (if h.Attempts? && h.attempt == Opens then 1 else 0)
    && r.link.log == s.link.log + LogAfter(h)
  }

  // The server's hello is on record from a frame that carries it to the end of the session.
  ghost predicate SessionMoves(s: State, e: Event, r: State) {
    var h := Happens(s, e);
    && (r.link.serverInfo <==> !Drops(h) && !h.Closes? && !h.Attempts?
                               && (s.link.serverInfo || (e.OnServerInfo? && Current(s, e))))
    && r.link.slots == (if Drops(h) || h.Closes? then {}
                        else if e.AttachTerminal? then s.link.slots + {e.slot} else s.link.slots)
  }

  ghost predicate DeadlinesMove(s: State, e: Event, r: State) {
    var h := Happens(s, e);
    && (r.deadlines.connect <==>
          if h.Attempts? && h.attempt == Opens then true
          else s.deadlines.connect && !Disposes(h) && !Fails(h) && !h.Shakes? && !e.ConnectTimeoutFires?
               && !((e.OnClose? || e.OnError?) && Current(s, e)))
    && (r.deadlines.error <==>
          if e.OnError? && Current(s, e) then e.generic
          else s.deadlines.error && !Disposes(h) && !e.ErrorTimerFires?
               && !((e.OnClose? || e.OnOpen?) && Current(s, e)))
  }

  // ---------------------------------------------------------------------- retry

  // A rejected credential is on record from the frame or the close that reports it to
  // the next transport, or to a rejected hello for another reason.
  function AuthAfter(s: State, e: Event): bool {
    var h := Happens(s, e);
    if h.Attempts? && h.attempt == Opens then false
    else if e.OnClose? && Current(s, e) then s.retry.authFailed || e.authFailure
    else if e.OnHelloRejected? && Current(s, e) then e.auth
    else s.retry.authFailed
  }

  function EnabledAfter(s: State, e: Event): bool {
    var h := Happens(s, e);
    if e.SetReconnectEnabled? then e.enabled
    else if h.Attempts? && h.attempt == Refused then false
    else if Drops(h) then s.retry.enabled && !s.retry.authFailed && !(e.OnClose? && e.authFailure)
    else s.retry.enabled
  }

  // A retry is armed by a loss and by a failed attempt, if reconnecting is then enabled.
  predicate ArmedAfter(s: State, e: Event) {
    var h := Happens(s, e);
    if h.Loses? || Fails(h) then EnabledAfter(s, e)
    else s.retry.timer.Some? && !h.Attempts? && !h.Closes? && !(e.SetReconnectEnabled? && !e.enabled)
  }

  // How many retries the event arms, one after the other.
  function Arms(s: State, e: Event): nat {
    var h := Happens(s, e);
    (if h.Attempts? && h.afterLoss && s.retry.enabled && !s.retry.authFailed then 1 else 0)
    + (if (h.Loses? || Fails(h)) && EnabledAfter(s, e) then 1 else 0)
  }

  ghost predicate RetryMoves(s: State, e: Event, r: State) {
    var h := Happens(s, e);
    && r.retry.authFailed == AuthAfter(s, e) && r.retry.enabled == EnabledAfter(s, e)
    && (r.retry.timer.Some? <==> ArmedAfter(s, e))
    && r.retry.attempt == (if h.Shakes? then 0 else s.retry.attempt + Arms(s, e))
    && (Arms(s, e) == 0 && r.retry.timer.Some? ==> r.retry.timer == s.retry.timer)
  }

  // -------------------------------------------------------------------- liveness

  ghost predicate VerificationMoves(s: State, e: Event, r: State) {
    var starts := && e.EnsureConnected? && e.verify && s.link.status == Connected && s.link.transport.Some?
                  && s.live.verification != s.link.transport;
    var ends := (e.VerificationSucceeds? || e.VerificationFails?) && e.tid in s.live.verifying;
    && r.live.verifying == (if starts then s.live.verifying + {s.link.transport.value}
                            else if ends then s.live.verifying - {e.tid} else s.live.verifying)
    && r.live.verification == (if starts then s.link.transport
                               else if ends && s.live.verification == Some(e.tid) then None else s.live.verification)
  }

  // ---------------------------------------------------------------- the promise

  ghost predicate Answered(a: Connects, b: Connects, ok: bool) {
    && b.promise.None? && b.hooks.None? && b.next == a.next
    && b.settled == if a.hooks.Some? then a.settled[a.hooks.value := ok] else a.settled
  }

  // A failed attempt rejects the promise, and a loss does unless a retry is to come.
  ghost predicate PromiseMoves(s: State, e: Event, r: State) {
    var h := Happens(s, e);
    if StartsPromise(s, e) then Started(s.connects, r.connects, !Fails(h))
    else if h.Closes? then r.connects == s.connects.(promise := None, hooks := None)
    else if h.Shakes? then Answered(s.connects, r.connects, true)
    else if Fails(h) || (h.Loses? && !EnabledAfter(s, e)) then Answered(s.connects, r.connects, false)
    else r.connects == s.connects
  }

  // Everything that an event does to the connection.
  ghost predicate Moves(s: State, e: Event, r: State) {
    && LinkMoves(s, e, r) && SessionMoves(s, e, r) && DeadlinesMove(s, e, r)
    && RetryMoves(s, e, r) && VerificationMoves(s, e, r) && PromiseMoves(s, e, r)
  }

  // ------------------------------------------------------------ the private steps

  ghost predicate Scheduled(s: Retry, r: Retry, enabled: bool) {
    && r.enabled == enabled && r.authFailed == s.authFailed && (r.timer.Some? <==> enabled)
    && r.attempt == s.attempt + if enabled then 1 else 0
  }

  ghost predicate SameChecks(s: State, r: State) {
    r.live.verification == s.live.verification && r.live.verifying == s.live.verifying
  }

  // What `scheduleReconnect` leaves of a client that is not disposed.
  ghost predicate Lost(s: State, cause: Cause, r: State) {
    var enabled := s.retry.enabled && !s.retry.authFailed;
    && r.link == s.link.(status := Disconnected, serverInfo := false, slots := {},
                         log := s.link.log + [Transition(Disconnected, cause)])
    && r.deadlines == s.deadlines && Scheduled(s.retry, r.retry, enabled) && SameChecks(s, r)
    && r.connects == if enabled then s.connects else SettleConnect(s.connects, false)
  }

  lemma LostIs(s: State, cause: Cause)
    requires s.retry.wanted && s.link.status != Disposed
    ensures Lost(s, cause, ScheduleReconnect(s, cause))
  {
  }

  // What an attempt leaves of a client that was idle or disconnected.
  ghost predicate Opened(s: State, r: State) {
    && r.link.status == Connecting && r.link.transport == Some(s.link.nextTransport)
    && r.link.nextTransport == s.link.nextTransport + 1 && !r.link.serverInfo && r.link.slots == s.link.slots
    && r.link.log == s.link.log + [Transition(Connecting, ConnectRequest)]
    && r.deadlines == Deadlines(true, false) && r.connects == s.connects
    && r.retry.timer.None? && !r.retry.authFailed && r.retry.enabled == s.retry.enabled
    && r.retry.attempt == s.retry.attempt
  }

  ghost predicate Failed(s: State, a: Attempt, r: State) {
    && r.link.status == Disconnected && r.link.transport == (if a == NoCredential then s.link.transport else None)
    && r.link.nextTransport == s.link.nextTransport && !r.link.serverInfo && r.link.slots == {}
    && r.link.log == s.link.log + [Transition(Disconnected, ConnectFailed)]
    && !r.deadlines.connect && (r.deadlines.error <==> a == NoCredential && s.deadlines.error)
    && r.connects == SettleConnect(s.connects, false)
    && Scheduled(s.retry, r.retry, s.retry.enabled && !s.retry.authFailed && a != Refused)
  }

  lemma FailIs(s: State)
    requires s.retry.wanted && s.link.status != Disposed
    ensures Failed(s, NoCredential, FailAttempt(s)) && SameChecks(s, FailAttempt(s))
  {
    LostIs(s.(deadlines := s.deadlines.(connect := false)), ConnectFailed);
  }

  lemma AttemptIs(s: State, a: Attempt)
    requires s.retry.wanted && Idling(s)
    ensures if a == Opens then Opened(s, AttemptConnect(s, a)) else Failed(s, a, AttemptConnect(s, a))
    ensures SameChecks(s, AttemptConnect(s, a))
  {
    var s1 := s.(retry := s.retry.(timer := None));
    var s2 := DisposeTransport(s1);
    match a {
      case NoCredential => FailIs(s1);
      case Refused => FailIs(s2.(retry := SetEnabled(s2.retry, false)));
      case FactoryThrows => FailIs(s2);
      case Opens =>
    }
  }

  // ------------------------------------------- from private steps to whole events

  // Nothing happens, and the event is for something else than the connection.
  predicate Aside(s: State, e: Event) {
    && Happens(s, e) == Nothing && !StartsPromise(s, e)
    && (FromTransport(e) ==> !Current(s, e) || e.OnPong? || e.OnSession? || e.OnInvalid? || e.OnBinary?)
    && !e.SetReconnectEnabled? && !e.EnsureConnected? && !e.VerificationSucceeds? && !e.VerificationFails?
    && !e.AttachTerminal? && !e.ConnectTimeoutFires? && !e.ErrorTimerFires?
  }

  ghost predicate Untouched(s: State, r: State) {
    r.link == s.link && r.deadlines == s.deadlines && r.retry == s.retry && r.connects == s.connects && SameChecks(s, r)
  }

  lemma UntouchedMoves(s: State, e: Event, r: State)
    requires ConnectionOk(s) && Aside(s, e) && Untouched(s, r)
    ensures Moves(s, e, r)
  {
  }

  // A loss, from the state in which `scheduleReconnect` finds the client.
  ghost predicate AboutToLose(s: State, e: Event, d: State) {
    && Happens(s, e).Loses? && d.link == (if Happens(s, e).closes then CloseLink(s.link) else s.link)
    && DeadlinesMove(s, e, d) && d.retry == s.retry.(authFailed := AuthAfter(s, e))
    && d.connects == s.connects && SameChecks(s, d)
  }

  lemma LossMovesLink(s: State, e: Event, d: State, r: State)
    requires ConnectionOk(s) && AboutToLose(s, e, d) && Lost(d, Happens(s, e).cause, r)
    ensures LinkMoves(s, e, r) && SessionMoves(s, e, r)
  {
  }

  lemma LossMovesRest(s: State, e: Event, d: State, r: State)
    requires ConnectionOk(s) && PromiseOk(s) && AboutToLose(s, e, d) && Lost(d, Happens(s, e).cause, r)
    ensures DeadlinesMove(s, e, r) && RetryMoves(s, e, r) && VerificationMoves(s, e, r) && PromiseMoves(s, e, r)
  {
  }

  lemma LossMoves(s: State, e: Event, d: State, r: State)
    requires ConnectionOk(s) && PromiseOk(s) && AboutToLose(s, e, d) && Lost(d, Happens(s, e).cause, r)
    ensures Moves(s, e, r)
  {
    LossMovesLink(s, e, d, r);
    LossMovesRest(s, e, d, r);
  }

  // An attempt, from the state in which `attemptConnect` finds the client.
  ghost predicate AboutToAttempt(s: State, e: Event, n: State) {
    && Happens(s, e).Attempts? && n.retry.wanted && Idling(n) && SameChecks(s, n)
    && if Happens(s, e).afterLoss then
         && n.link == CloseLink(s.link).(status := Disconnected, serverInfo := false, slots := {},
                                         log := s.link.log + [Transition(Disconnected, VerificationFailed)])
         && n.deadlines == Deadlines(false, false)
         && Scheduled(s.retry, n.retry, s.retry.enabled && !s.retry.authFailed)
       else n.link == s.link && n.deadlines == s.deadlines && n.retry.(timer := None) == s.retry.(timer := None)
  }

  lemma OpeningMoves(s: State, e: Event, n: State, r: State)
    requires ConnectionOk(s) && PromiseMoves(s, e, r) && AboutToAttempt(s, e, n) && Happens(s, e).attempt == Opens
    requires Opened(n, r.(connects := n.connects)) && (e.VerificationFails? <==> Happens(s, e).afterLoss)
    ensures LinkMoves(s, e, r) && SessionMoves(s, e, r) && DeadlinesMove(s, e, r) && RetryMoves(s, e, r)
  {
  }

  lemma FailingMovesLink(s: State, e: Event, n: State, r: State)
    requires ConnectionOk(s) && AboutToAttempt(s, e, n) && Happens(s, e).attempt != Opens
    requires Failed(n, Happens(s, e).attempt, r.(connects := SettleConnect(n.connects, false)))
    ensures LinkMoves(s, e, r) && SessionMoves(s, e, r)
  {
  }

  lemma FailingMovesRetry(s: State, e: Event, n: State, r: State)
    requires ConnectionOk(s) && AboutToAttempt(s, e, n) && Happens(s, e).attempt != Opens
    requires Failed(n, Happens(s, e).attempt, r.(connects := SettleConnect(n.connects, false)))
    ensures DeadlinesMove(s, e, r) && RetryMoves(s, e, r)
  {
  }

  ghost predicate AttemptLeaves(n: State, a: Attempt, r: State) {
    if a == Opens then Opened(n, r.(connects := n.connects))
    else Failed(n, a, r.(connects := SettleConnect(n.connects, false)))
  }

  lemma AttemptMoves(s: State, e: Event, n: State, r: State)
    requires ConnectionOk(s) && PromiseMoves(s, e, r) && VerificationMoves(s, e, r) && AboutToAttempt(s, e, n)
    requires AttemptLeaves(n, Happens(s, e).attempt, r)
    ensures Moves(s, e, r)
  {
    if Happens(s, e).attempt == Opens {
      OpeningMoves(s, e, n, r);
    } else {
      FailingMovesLink(s, e, n, r);
      FailingMovesRetry(s, e, n, r);
    }
  }

  // ---------------------------------------------------------------- each event

  lemma ReconnectMoves(s: State, a: Attempt)
    requires ConnectionOk(s) && PromiseOk(s) && s.link.status != Disposed
    ensures Moves(s, ReconnectFires(a), Step(s, ReconnectFires(a)))
  {
    var e, n := ReconnectFires(a), s.(retry := s.retry.(timer := None));
    if s.retry.timer.Some? {
      AttemptIs(n, a);
      AttemptMoves(s, e, n, AttemptConnect(n, a));
    } else {
      UntouchedMoves(s, e, s);
    }
  }

  // A new promise and its attempt, from a client that was idle or disconnected.
  lemma NewPromiseMoves(s: State, e: Event, m: State, a: Attempt)
    requires ConnectionOk(s) && PromiseOk(s) && StartsPromise(s, e) && m.connects.next == s.connects.next
    requires m.connects.settled == s.connects.settled && m.connects.promise.None? && AboutToAttempt(s, e, m)
    requires Happens(s, e).attempt == a
    ensures AboutToAttempt(s, e, NewConnectPromise(m)) && AttemptLeaves(NewConnectPromise(m), a, DoConnect(m, a))
    ensures PromiseMoves(s, e, DoConnect(m, a)) && SameChecks(m, DoConnect(m, a))
  {
    AttemptIs(NewConnectPromise(m), a);
  }

  lemma ConnectMoves(s: State, a: Attempt)
    requires ConnectionOk(s) && PromiseOk(s) && s.link.status != Disposed
    ensures Moves(s, Connect(a), Step(s, Connect(a)))
  {
    var e := Connect(a);
    if Happens(s, e).Attempts? {
      NewPromiseMoves(s, e, s, a);
      AttemptMoves(s, e, NewConnectPromise(s), DoConnect(s, a));
    }
  }

  lemma CheckingMoves(s: State, e: Event, r: State)
    requires ConnectionOk(s) && Happens(s, e) == Nothing && e.EnsureConnected? && !StartsPromise(s, e)
    requires r.(live := s.live) == s && VerificationMoves(s, e, r)
    ensures Moves(s, e, r)
  {
  }

  lemma BusyEnsureMoves(s: State, v: bool, a: Attempt)
    requires ConnectionOk(s) && PromiseOk(s) && (s.link.status == Connecting || s.link.status == Connected)
    ensures Moves(s, EnsureConnected(v, a), Step(s, EnsureConnected(v, a)))
  {
    var e := EnsureConnected(v, a);
    assert s.(retry := s.retry.(wanted := true)) == s;
    CheckingMoves(s, e, Step(s, e));
  }

  lemma IdleEnsureMoves(s: State, v: bool, a: Attempt)
    requires ConnectionOk(s) && PromiseOk(s) && Idling(s)
    ensures var r := if s.connects.promise.Some? then AttemptConnect(s, a) else DoConnect(s, a);
            Moves(s, EnsureConnected(v, a), r)
  {
    var e := EnsureConnected(v, a);
    if s.connects.promise.Some? {
      AttemptIs(s, a);
      AttemptMoves(s, e, s, AttemptConnect(s, a));
    } else {
      NewPromiseMoves(s, e, s, a);
      AttemptMoves(s, e, NewConnectPromise(s), DoConnect(s, a));
    }
  }

  lemma EnsureMoves(s: State, v: bool, a: Attempt)
    requires ConnectionOk(s) && PromiseOk(s) && s.link.status != Disposed
    ensures Moves(s, EnsureConnected(v, a), Step(s, EnsureConnected(v, a)))
  {
    if Idling(s) {
      assert s.(retry := s.retry.(wanted := true)) == s;
      IdleEnsureMoves(s, v, a);
    } else {
      BusyEnsureMoves(s, v, a);
    }
  }

  // Ending the check does not touch what the new attempt left.
  lemma CheckedOff(s: State, t: Tid, a: Attempt, m: State)
    requires ConnectionOk(s) && PromiseOk(s) && t in s.live.verifying
    requires s.link.transport == Some(t) && s.link.status == Connected
    requires Lost(DisposeTransport(s), VerificationFailed, m) && m.retry.wanted
    ensures var e, r := VerificationFails(t, a), EndVerification(DoConnect(m, a), t);
            && AboutToAttempt(s, e, NewConnectPromise(m)) && AttemptLeaves(NewConnectPromise(m), a, r)
            && PromiseMoves(s, e, r) && VerificationMoves(s, e, r)
  {
    AttemptIs(NewConnectPromise(m), a);
  }

  lemma FailedCheckMoves(s: State, t: Tid, a: Attempt)
    requires ConnectionOk(s) && PromiseOk(s) && t in s.live.verifying
    requires s.link.transport == Some(t) && s.link.status == Connected
    ensures Moves(s, VerificationFails(t, a), Step(s, VerificationFails(t, a)))
  {
    var e, m := VerificationFails(t, a), ScheduleReconnect(DisposeTransport(s), VerificationFailed);
    LostIs(DisposeTransport(s), VerificationFailed);
    assert m.retry.wanted && m.(retry := m.retry.(wanted := true)) == m;
    CheckedOff(s, t, a, m);
    AttemptMoves(s, e, NewConnectPromise(m), EndVerification(DoConnect(m, a), t));
  }

  lemma HeartbeatMoves(s: State, ok: bool)
    requires ConnectionOk(s) && PromiseOk(s) && s.link.status != Disposed
    ensures Moves(s, HeartbeatFires(ok), Step(s, HeartbeatFires(ok)))
  {
    var e, r := HeartbeatFires(ok), Step(s, HeartbeatFires(ok));
    var d := DisposeTransport(s.(live := s.live.(heartbeat := false, failures := 0)));
    if SecondFailure(s, e) {
      LostIs(d, LivenessTimedOut);
      LossMoves(s, e, d, ScheduleReconnect(d, LivenessTimedOut));
    } else {
      UntouchedMoves(s, e, r);
    }
  }

  lemma ProbeTimeoutMoves(s: State)
    requires ConnectionOk(s) && PromiseOk(s) && s.link.status != Disposed
    ensures Moves(s, ProbeTimesOut, Step(s, ProbeTimesOut))
  {
    var d := DisposeTransport(s.(live := s.live.(probe := None, failures := 0)));
    if SecondFailure(s, ProbeTimesOut) {
      LostIs(d, LivenessTimedOut);
      LossMoves(s, ProbeTimesOut, d, ScheduleReconnect(d, LivenessTimedOut));
    } else {
      UntouchedMoves(s, ProbeTimesOut, Step(s, ProbeTimesOut));
    }
  }

  lemma LosingMoves(s: State, e: Event, d: State)
    requires ConnectionOk(s) && PromiseOk(s) && s.link.status != Disposed && AboutToLose(s, e, d)
    requires Step(s, e) == ScheduleReconnect(d, Happens(s, e).cause)
    ensures Moves(s, e, Step(s, e))
  {
    LostIs(d, Happens(s, e).cause);
    LossMoves(s, e, d, Step(s, e));
  }

  lemma DeadlineMoves(s: State, e: Event)
    requires ConnectionOk(s) && PromiseOk(s) && s.link.status != Disposed
    requires e.ConnectTimeoutFires? || e.ErrorTimerFires?
    ensures Moves(s, e, Step(s, e))
  {
    if Happens(s, e).Loses? {
      var n := if e.ErrorTimerFires? then s.(deadlines := s.deadlines.(error := false)) else DisposeTransport(s);
      LosingMoves(s, e, n);
    }
  }

  lemma OpenMoves(s: State, t: Tid, ok: bool)
    requires ConnectionOk(s) && PromiseOk(s) && s.link.status != Disposed && s.link.transport == Some(t)
    ensures Moves(s, OnOpen(t, ok), Step(s, OnOpen(t, ok)))
  {
    if !ok { LosingMoves(s, OnOpen(t, ok), s.(deadlines := s.deadlines.(error := false))); }
  }

  lemma CloseMoves(s: State, t: Tid, auth: bool)
    requires ConnectionOk(s) && PromiseOk(s) && s.link.status != Disposed && s.link.transport == Some(t)
    ensures Moves(s, OnClose(t, auth), Step(s, OnClose(t, auth)))
  {
    LosingMoves(s, OnClose(t, auth),
      s.(deadlines := Deadlines(false, false), retry := s.retry.(authFailed := s.retry.authFailed || auth)));
  }

  lemma ErrorMoves(s: State, t: Tid, generic: bool)
    requires ConnectionOk(s) && PromiseOk(s) && s.link.status != Disposed && s.link.transport == Some(t)
    ensures Moves(s, OnError(t, generic), Step(s, OnError(t, generic)))
  {
    if !generic { LosingMoves(s, OnError(t, generic), s.(deadlines := Deadlines(false, false))); }
  }

  lemma ServerInfoMoves(s: State, t: Tid, msg: W.Message, throws: set<nat>)
    requires ConnectionOk(s) && PromiseOk(s) && s.link.status != Disposed && s.link.transport == Some(t)
    ensures Moves(s, OnServerInfo(t, msg, throws), Step(s, OnServerInfo(t, msg, throws)))
  {
  }

  lemma FrameMoves(s: State, e: Event)
    requires ConnectionOk(s) && PromiseOk(s) && s.link.status != Disposed && FromTransport(e) && Current(s, e)
    requires !(e.OnOpen? || e.OnClose? || e.OnError? || e.OnServerInfo?)
    ensures Moves(s, e, Step(s, e))
  {
    if !e.OnHelloRejected? { UntouchedMoves(s, e, Step(s, e)); }
  }

  lemma ReleaseMoves(s: State)
    requires ConnectionOk(s) && PromiseOk(s) && s.link.status != Disposed
    ensures Moves(s, ReleaseFails, Step(s, ReleaseFails))
  {
    LosingMoves(s, ReleaseFails, DisposeTransport(s));
  }

  lemma CloseCallMoves(s: State)
    requires ConnectionOk(s) && PromiseOk(s) && s.link.status != Disposed
    ensures Moves(s, Close, Step(s, Close))
  {
  }

  lemma SettingMoves(s: State, enabled: bool)
    requires ConnectionOk(s) && PromiseOk(s) && s.link.status != Disposed
    ensures Moves(s, SetReconnectEnabled(enabled), Step(s, SetReconnectEnabled(enabled)))
  {
  }

  lemma AsideMoves(s: State, e: Event)
    requires ConnectionOk(s) && PromiseOk(s) && s.link.status != Disposed
    requires e.AttachTerminal? || e.VerificationSucceeds?
    ensures Moves(s, e, Step(s, e))
  {
  }

  lemma OtherMoves(s: State, e: Event)
    requires ConnectionOk(s) && PromiseOk(s) && s.link.status != Disposed
    requires e.Rpc? || e.CancelRpc? || e.MeasureLatency? || e.WaiterTimesOut? || e.SendTimesOut?
    ensures Moves(s, e, Step(s, e))
  {
    UntouchedMoves(s, e, Step(s, e));
  }

  lemma CheckMoves(s: State, t: Tid, a: Attempt)
    requires ConnectionOk(s) && PromiseOk(s) && s.link.status != Disposed
    ensures Moves(s, VerificationFails(t, a), Step(s, VerificationFails(t, a)))
  {
    if t in s.live.verifying && s.link.transport == Some(t) && s.link.status == Connected {
      FailedCheckMoves(s, t, a);
    }
  }

  lemma TimerMoves(s: State, e: Event)
    requires ConnectionOk(s) && PromiseOk(s) && s.link.status != Disposed && FromTimer(e)
    ensures Moves(s, e, Step(s, e))
  {
    match e {
      case ReconnectFires(a) => ReconnectMoves(s, a);
      case HeartbeatFires(ok) => HeartbeatMoves(s, ok);
      case ProbeTimesOut => ProbeTimeoutMoves(s);
      case ConnectTimeoutFires => DeadlineMoves(s, e);
      case ErrorTimerFires => DeadlineMoves(s, e);
      case _ => OtherMoves(s, e);
    }
  }

  lemma TransportMoves(s: State, e: Event)
    requires ConnectionOk(s) && PromiseOk(s) && s.link.status != Disposed && FromTransport(e)
    ensures Moves(s, e, Step(s, e))
  {
    if Current(s, e) {
      match e {
        case OnOpen(t, ok) => OpenMoves(s, t, ok);
        case OnClose(t, auth) => CloseMoves(s, t, auth);
        case OnError(t, generic) => ErrorMoves(s, t, generic);
        case OnServerInfo(t, msg, throws) => ServerInfoMoves(s, t, msg, throws);
        case _ => FrameMoves(s, e);
      }
    } else {
      UntouchedMoves(s, e, s);
    }
  }

  // The effect of every event on a client that is not disposed; a disposed one ignores
  // them all.
  lemma StepMoves(s: State, e: Event)
    requires ConnectionOk(s) && PromiseOk(s) && s.link.status != Disposed
    ensures Moves(s, e, Step(s, e))
  {
    if FromTransport(e) {
      TransportMoves(s, e);
    } else if FromTimer(e) {
      TimerMoves(s, e);
    } else {
      match e {
        case Connect(a) => ConnectMoves(s, a);
        case EnsureConnected(v, a) => EnsureMoves(s, v, a);
        case VerificationFails(t, a) => CheckMoves(s, t, a);
        case ReleaseFails => ReleaseMoves(s);
        case SetReconnectEnabled(b) => SettingMoves(s, b);
        case Close => CloseCallMoves(s);
        case AttachTerminal(_) => AsideMoves(s, e);
        case VerificationSucceeds(_) => AsideMoves(s, e);
        case _ => OtherMoves(s, e);
      }
    }
  }
}
