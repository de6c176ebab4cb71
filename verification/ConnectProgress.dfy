/**
  Whether a pending `connect()` promise is moving: an attempt is under way or a retry
  is armed, and with it a timer that will act on the promise.
*/
module ConnectProgress {
  import opened Options
  import opened Connection
  import opened ConnectionInvariant
  import opened ConnectPromise
  import opened ConnectDeadline

  predicate Moving(s: State) {
    s.connects.hooks.Some? ==> s.link.status == Connecting || s.retry.timer.Some?
  }

  // Switching reconnecting off disarms the retry that a pending promise is waiting for.
  predicate SwitchesOffPending(s: State, e: Event) {
    e.SetReconnectEnabled? && !e.enabled && s.connects.hooks.Some? && s.link.status != Connecting
  }

  lemma ScheduleReconnectMoves(s: State, event: Cause)
    ensures Moving(ScheduleReconnect(s, event))
  {
  }

  lemma AttemptMoves(s: State, a: Attempt)
    ensures Moving(AttemptConnect(s, a))
  {
  }

  lemma ConnectMoves(s: State, a: Attempt)
    requires Moving(s) || (s.link.status != Disposed && s.link.status != Connected && s.connects.promise.None?)
    ensures Moving(DoConnect(s, a))
  {
    AttemptMoves(NewConnectPromise(s), a);
  }

  lemma EnsureMoves(s: State, v: bool, a: Attempt)
    requires Moving(s) || (s.link.status != Disposed && s.link.status != Connected)
    ensures Moving(DoEnsureConnected(s, v, a))
  {
    var s1 := s.(retry := s.retry.(wanted := true));
    AttemptMoves(s1, a);
    if s.link.status == Idle || s.link.status == Disconnected {
      if s.connects.promise.None? { ConnectMoves(s1, a); }
    }
  }

  lemma FailureMoves(s: State)
    requires Moving(s)
    ensures Moving(RecordLivenessFailure(s))
  {
    var d := DisposeTransport(s.(live := s.live.(failures := 0)));
    ScheduleReconnectMoves(d, LivenessTimedOut);
  }

  lemma PingMoves(s: State, drives: bool, heartbeat: bool, ok: bool)
    requires Moving(s)
    ensures Moving(Ping(s, drives, heartbeat, ok))
  {
    FailureMoves(s);
  }

  lemma ProbeTimeoutMoves(s: State)
    requires Moving(s)
    ensures Moving(ProbeTimeout(s))
  {
    FailureMoves(s.(live := s.live.(probe := None)));
  }

  lemma CallbackMoves(s: State, e: Event)
    requires Moving(s) && (e.OnOpen? || e.OnClose? || e.OnError?)
    ensures Moving(OnTransport(s, e))
  {
    match e {
      case OnOpen(t, ok) => ScheduleReconnectMoves(s.(deadlines := s.deadlines.(error := false)), HelloSendFailed);
      case OnClose(t, auth) =>
        ScheduleReconnectMoves(
          s.(deadlines := Deadlines(false, false), retry := s.retry.(authFailed := s.retry.authFailed || auth)),
          TransportClosed);
      case OnError(t, generic) => ScheduleReconnectMoves(s.(deadlines := Deadlines(false, false)), TransportFailed);
    }
  }

  lemma FrameMoves(s: State, e: Event)
    requires Moving(s) && FromTransport(e) && !(e.OnOpen? || e.OnClose? || e.OnError?)
    ensures Moving(OnTransport(s, e))
  {
  }

  lemma TimerMoves(s: State, e: Event)
    requires ConnectionOk(s) && Moving(s) && FromTimer(e)
    ensures Moving(OnTimer(s, e))
  {
    match e {
      case ReconnectFires(a) => AttemptMoves(s.(retry := s.retry.(timer := None)), a);
      case ConnectTimeoutFires => ScheduleReconnectMoves(DisposeTransport(s), ConnectTimedOut);
      case ErrorTimerFires => ScheduleReconnectMoves(s.(deadlines := s.deadlines.(error := false)), TransportFailed);
      case HeartbeatFires(ok) => PingMoves(s.(live := s.live.(heartbeat := false)), true, true, ok);
      case ProbeTimesOut => ProbeTimeoutMoves(s);
      case _ =>
    }
  }

  lemma SettledMoves(s: State, e: Event)
    requires Moving(s)
    ensures Moving(OnSettled(s, e))
  {
    match e {
      case VerificationFails(t, a) =>
        var m := ScheduleReconnect(DisposeTransport(s), VerificationFailed);
        ScheduleReconnectMoves(DisposeTransport(s), VerificationFailed);
        EnsureMoves(m, false, a);
      case ReleaseFails => ScheduleReconnectMoves(DisposeTransport(s), TransportClosed);
      case _ =>
    }
  }

  lemma CallMoves(s: State, e: Event)
    requires ConnectionOk(s) && PromiseOk(s) && Moving(s)
    ensures Moving(OnCall(s, e)) <==> !SwitchesOffPending(s, e)
  {
    match e {
      case Connect(a) => ConnectMoves(s, a);
      case EnsureConnected(v, a) => EnsureMoves(s, v, a);
      case MeasureLatency(ok) => PingMoves(s, false, false, ok);
      case _ =>
    }
  }

  // A pending promise stops moving at exactly one kind of event.
  lemma StallsExactly(s: State, e: Event)
    requires ConnectionOk(s) && PromiseOk(s) && Moving(s)
    ensures Moving(Step(s, e)) <==> !SwitchesOffPending(s, e)
  {
    if FromTransport(e) {
      if s.link.transport == Some(e.tid) {
        if e.OnOpen? || e.OnClose? || e.OnError? { CallbackMoves(s, e); } else { FrameMoves(s, e); }
      }
    } else if FromTimer(e) {
      TimerMoves(s, e);
    } else if e.VerificationSucceeds? || e.VerificationFails? || e.ReleaseFails? {
      SettledMoves(s, e);
    } else {
      CallMoves(s, e);
    }
  }

  // What gets a stalled promise going again, or settles or drops it. Neither calling
  // `connect()` again nor switching reconnecting back on does.
  predicate EndsStall(s: State, e: Event) {
    e.Close? || e.EnsureConnected? || LosesConnection(s, e)
  }

  lemma StalledCallback(s: State, e: Event)
    requires !Moving(s) && (e.OnOpen? || e.OnClose? || e.OnError?) && s.link.transport == Some(e.tid)
    ensures Moving(OnTransport(s, e)) <==> EndsStall(s, e)
  {
    match e {
      case OnOpen(t, ok) => ScheduleReconnectMoves(s.(deadlines := s.deadlines.(error := false)), HelloSendFailed);
      case OnClose(t, auth) =>
        ScheduleReconnectMoves(
          s.(deadlines := Deadlines(false, false), retry := s.retry.(authFailed := s.retry.authFailed || auth)),
          TransportClosed);
      case OnError(t, generic) => ScheduleReconnectMoves(s.(deadlines := Deadlines(false, false)), TransportFailed);
    }
  }

  lemma StalledFrame(s: State, e: Event)
    requires !Moving(s) && FromTransport(e) && !(e.OnOpen? || e.OnClose? || e.OnError?)
    requires s.link.status != Connected
    ensures Moving(OnTransport(s, e)) <==> EndsStall(s, e)
  {
  }

  lemma StalledTimer(s: State, e: Event)
    requires ConnectionOk(s) && !Moving(s) && FromTimer(e) && s.link.status != Connected
    ensures Moving(OnTimer(s, e)) <==> EndsStall(s, e)
  {
  }

  lemma StalledCall(s: State, e: Event)
    requires ConnectionOk(s) && PromiseOk(s) && !Moving(s) && !FromTransport(e) && !FromTimer(e)
    ensures Moving(Step(s, e)) <==> EndsStall(s, e)
  {
    match e {
      case EnsureConnected(v, a) => EnsureMoves(s, v, a);
      case ReleaseFails => ScheduleReconnectMoves(DisposeTransport(s), TransportClosed);
      case _ =>
    }
  }

  lemma StallEndsExactly(s: State, e: Event)
    requires ConnectionOk(s) && PromiseOk(s) && !Moving(s)
    ensures Moving(Step(s, e)) <==> EndsStall(s, e)
    ensures e.Connect? ==> Step(s, e) == s
  {
    if FromTransport(e) {
      if s.link.transport == Some(e.tid) {
        if e.OnOpen? || e.OnClose? || e.OnError? { StalledCallback(s, e); } else { StalledFrame(s, e); }
      }
    } else if FromTimer(e) {
      StalledTimer(s, e);
    } else {
      StalledCall(s, e);
    }
  }

  // ------------------------------------------------------------- whole runs

  // None of the first `k` events switches reconnecting off under a pending promise.
  predicate NeverSwitchesOffPending(s: State, es: seq<Event>, k: nat)
    requires k <= |es|
  {
    k > 0 ==> NeverSwitchesOffPending(s, es, k - 1) && !SwitchesOffPending(At(s, es, k - 1), es[k - 1])
  }

  // At no point of the first `k` events does a pending promise stand still.
  predicate AlwaysMoving(s: State, es: seq<Event>, k: nat)
    requires k <= |es|
  {
    Moving(At(s, es, k)) && (k > 0 ==> AlwaysMoving(s, es, k - 1))
  }

  lemma {:induction false} AlwaysMovingExactly(backoff: Backoff, enabled: bool, es: seq<Event>, k: nat)
    requires k <= |es|
    ensures AlwaysMoving(Initial(backoff, enabled), es, k) <==>
            NeverSwitchesOffPending(Initial(backoff, enabled), es, k)
  {
    if k > 0 {
      var s0 := Initial(backoff, enabled);
      AlwaysMovingExactly(backoff, enabled, es, k - 1);
      PromiseOkAt(backoff, enabled, es, k - 1);
      if AlwaysMoving(s0, es, k - 1) { StallsExactly(At(s0, es, k - 1), es[k - 1]); }
    }
  }

  // With neither this nor a transport that opens after a generic error, a pending
  // promise always has an armed timer.
  lemma PendingIsTimed(backoff: Backoff, enabled: bool, es: seq<Event>, k: nat)
    requires k <= |es| && At(Initial(backoff, enabled), es, k).connects.hooks.Some?
    requires NeverSwitchesOffPending(Initial(backoff, enabled), es, k)
    requires NeverOpensAfterError(Initial(backoff, enabled), es, k)
    ensures var s := At(Initial(backoff, enabled), es, k);
            s.retry.timer.Some? || s.deadlines.connect || s.deadlines.error
  {
    AlwaysMovingExactly(backoff, enabled, es, k);
    DeadlineOverRuns(backoff, enabled, es, k);
  }

  const STALLING_RUN := [Connect(Opens), OnClose(0, false), SetReconnectEnabled(false)]

  // The connection of a pending promise is lost, and then reconnecting is switched off.
  lemma LostThenSwitchedOff(s: State, t: Tid, a: Attempt)
    requires ConnectionOk(s) && PromiseOk(s) && s.link.status == Connecting && s.link.transport == Some(t)
    requires s.connects.hooks.Some? && s.retry.enabled && !s.retry.authFailed
    ensures var r := Step(Step(s, OnClose(t, false)), SetReconnectEnabled(false));
            !Moving(r) && r.link.status == Disconnected && Step(r, Connect(a)) == r
  {
    var m := Step(s, OnClose(t, false));
    assert m.link.status == Disconnected && m.connects == s.connects;
  }

  lemma SwitchingOffStalls(backoff: Backoff, a: Attempt)
    ensures var s := At(Initial(backoff, true), STALLING_RUN, 3);
            !Moving(s) && s.link.status == Disconnected && Step(s, Connect(a)) == s
  {
    var s0 := Initial(backoff, true);
    DoConnectPromise(s0, Opens);
    PromiseOkAt(backoff, true, STALLING_RUN, 1);
    AtThree(s0, STALLING_RUN);
    LostThenSwitchedOff(Step(s0, Connect(Opens)), 0, a);
  }
}
