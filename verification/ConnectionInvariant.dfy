/**
  What every event of the connection engine keeps: transports, timers, the probe
  and the retry schedule.
*/
module ConnectionInvariant {
  import opened Options
  import opened Connection
  import W = Waiters

  // Holds between any two private steps, even with the transport just disposed.
  ghost predicate Links(s: State) {
    && s.link.unclosed == (if s.link.transport.Some? then {s.link.transport.value} else {})
    && (s.link.transport.Some? ==> s.link.transport.value < s.link.nextTransport)
    && !(s.deadlines.connect && s.deadlines.error)
    && (s.deadlines.connect || s.deadlines.error || s.live.heartbeat ==> s.link.transport.Some?)
    && (s.retry.wanted <==> s.link.status != Disposed)
    && (s.link.status == Disposed ==> s.link.transport.None?)
    && s.live.failures < LIVENESS_THRESHOLD
  }

  ghost predicate TimerRules(s: State) {
    // a retry is armed only while disconnected
    && (s.retry.timer.Some? ==> s.link.status == Disconnected && s.retry.enabled)
    // a connecting or connected client has a transport
    && (s.link.status == Connecting || s.link.status == Connected ==> s.link.transport.Some?)
    && (s.link.status == Connected ==> s.link.serverInfo && !s.deadlines.connect)
    // only a connected client has a probe, and it is always being monitored
    && (s.live.probe.Some? ==> s.link.status == Connected)
    && (s.link.status == Connected ==> s.live.heartbeat || (s.live.probe.Some? && s.live.probe.value.heartbeatWaits))
  }

  ghost predicate ConnectionOk(s: State) { Links(s) && TimerRules(s) }

  lemma DisposeKeepsLinks(s: State)
    requires Links(s)
    ensures Links(DisposeTransport(s)) && DisposeTransport(s).link.unclosed == {}
  {
  }

  lemma ScheduleReconnectOk(s: State, event: Cause)
    requires Links(s)
    ensures ConnectionOk(ScheduleReconnect(s, event))
  {
  }

  lemma FailAttemptOk(s: State)
    requires Links(s)
    ensures ConnectionOk(FailAttempt(s))
  {
  }

  lemma AttemptConnectOk(s: State, a: Attempt)
    requires ConnectionOk(s) && s.link.status != Connected
    ensures ConnectionOk(AttemptConnect(s, a))
  {
    if s.link.status != Disposed && s.link.status != Connecting {
      var s1 := s.(retry := s.retry.(timer := None));
      var s2 := DisposeTransport(s1);
      DisposeKeepsLinks(s1);
      match a {
        case NoCredential => FailAttemptOk(s1);
        case Refused => FailAttemptOk(s2.(retry := SetEnabled(s2.retry, false)));
        case FactoryThrows => FailAttemptOk(s2);
        case Opens =>
      }
    }
  }

  lemma PromiseStoredOk(s: State, p: nat, r: State)
    requires ConnectionOk(s) && r == s.(connects := s.connects.(promise := Some(p)))
    ensures ConnectionOk(r)
  {
  }

  lemma DoConnectOk(s: State, a: Attempt)
    requires ConnectionOk(s)
    ensures ConnectionOk(DoConnect(s, a))
  {
    if s.link.status != Disposed && s.link.status != Connected && s.connects.promise.None? {
      AttemptConnectOk(NewConnectPromise(s), a);
      PromiseStoredOk(AttemptConnect(NewConnectPromise(s), a), s.connects.next, DoConnect(s, a));
    }
  }

  lemma EnsureConnectedOk(s: State, v: bool, a: Attempt)
    requires ConnectionOk(s)
    ensures ConnectionOk(DoEnsureConnected(s, v, a))
  {
    if s.link.status != Disposed && s.link.status != Connected && s.link.status != Connecting {
      var s1 := s.(retry := s.retry.(wanted := true));
      AttemptConnectOk(s1, a);
      DoConnectOk(s1, a);
    }
  }

  // A counted failure leaves the client torn down, or still connected with one
  // failure on record.
  lemma LivenessFailureOk(s: State)
    requires Links(s) && s.link.status == Connected && s.link.transport.Some?
    requires TimerRules(s.(live := s.live.(heartbeat := true)))
    ensures Links(RecordLivenessFailure(s))
    ensures if s.live.failures + 1 < LIVENESS_THRESHOLD
            then RecordLivenessFailure(s) == s.(live := s.live.(failures := s.live.failures + 1))
            else TimerRules(RecordLivenessFailure(s)) && RecordLivenessFailure(s).link.status == Disconnected
  {
  }

  lemma PingOk(s: State, drives: bool, sendOk: bool)
    requires ConnectionOk(s)
    ensures ConnectionOk(Ping(s, false, false, sendOk))
    ensures s.live.heartbeat ==> ConnectionOk(Ping(s.(live := s.live.(heartbeat := false)), true, true, sendOk))
  {
    var h := s.(live := s.live.(heartbeat := false));
    if s.live.heartbeat && h.link.status == Connected && h.live.probe.None? && !sendOk { LivenessFailureOk(h); }
  }

  lemma ProbeTimeoutOk(s: State)
    requires ConnectionOk(s)
    ensures ConnectionOk(ProbeTimeout(s))
  {
    if s.live.probe.Some? && s.live.probe.value.drivesLiveness {
      LivenessFailureOk(s.(live := s.live.(probe := None)));
    }
  }

  lemma OnCallOk(s: State, e: Event)
    requires ConnectionOk(s)
    ensures ConnectionOk(OnCall(s, e))
  {
    match e {
      case Connect(a) => DoConnectOk(s, a);
      case EnsureConnected(v, a) => EnsureConnectedOk(s, v, a);
      case Close => DisposeKeepsLinks(s);
      case MeasureLatency(ok) => PingOk(s, false, ok);
      case _ =>
    }
  }

  lemma OnTimerOk(s: State, e: Event)
    requires ConnectionOk(s)
    ensures ConnectionOk(OnTimer(s, e))
  {
    match e {
      case ReconnectFires(a) =>
        if s.retry.timer.Some? { AttemptConnectOk(s.(retry := s.retry.(timer := None)), a); }
      case ConnectTimeoutFires =>
        DisposeKeepsLinks(s);
        ScheduleReconnectOk(DisposeTransport(s), ConnectTimedOut);
      case ErrorTimerFires => ScheduleReconnectOk(s.(deadlines := s.deadlines.(error := false)), TransportFailed);
      case HeartbeatFires(ok) => PingOk(s, true, ok);
      case ProbeTimesOut => ProbeTimeoutOk(s);
      case _ =>
    }
  }

  lemma ServerInfoOk(s: State, msg: W.Message, throws: set<nat>)
    requires ConnectionOk(s)
    ensures ConnectionOk(DoServerInfo(s, msg, throws))
  {
  }

  lemma OnTransportOk(s: State, e: Event)
    requires ConnectionOk(s) && s.link.transport.Some?
    ensures ConnectionOk(OnTransport(s, e))
  {
    match e {
      case OnOpen(t, ok) => ScheduleReconnectOk(s.(deadlines := s.deadlines.(error := false)), HelloSendFailed);
      case OnClose(t, auth) =>
        ScheduleReconnectOk(
          s.(deadlines := Deadlines(false, false), retry := s.retry.(authFailed := s.retry.authFailed || auth)),
          TransportClosed);
      case OnError(t, generic) => ScheduleReconnectOk(s.(deadlines := Deadlines(false, false)), TransportFailed);
      case OnServerInfo(t, msg, throws) => ServerInfoOk(Alive(s), msg, throws);
      case _ =>
    }
  }

  lemma OnSettledOk(s: State, e: Event)
    requires ConnectionOk(s)
    ensures ConnectionOk(OnSettled(s, e))
  {
    DisposeKeepsLinks(s);
    match e {
      case VerificationFails(t, a) =>
        ScheduleReconnectOk(DisposeTransport(s), VerificationFailed);
        EnsureConnectedOk(ScheduleReconnect(DisposeTransport(s), VerificationFailed), false, a);
      case ReleaseFails => ScheduleReconnectOk(DisposeTransport(s), TransportClosed);
      case _ =>
    }
  }

  lemma StepKeepsConnectionOk(s: State, e: Event)
    requires ConnectionOk(s)
    ensures ConnectionOk(Step(s, e))
  {
    if FromTransport(e) {
      if s.link.transport == Some(e.tid) { OnTransportOk(s, e); }
    } else if FromTimer(e) {
      OnTimerOk(s, e);
    } else if e.VerificationSucceeds? || e.VerificationFails? || e.ReleaseFails? {
      OnSettledOk(s, e);
    } else {
      OnCallOk(s, e);
    }
  }

  lemma {:induction false} RunKeepsConnectionOk(backoff: Backoff, enabled: bool, es: seq<Event>, k: nat)
    requires k <= |es|
    ensures ConnectionOk(At(Initial(backoff, enabled), es, k))
  {
    if k > 0 {
      RunKeepsConnectionOk(backoff, enabled, es, k - 1);
      StepKeepsConnectionOk(At(Initial(backoff, enabled), es, k - 1), es[k - 1]);
    }
  }
}
