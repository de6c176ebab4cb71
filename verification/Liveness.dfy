/**
  When the liveness heartbeat tears a connection down.
*/
module Liveness {
  import opened Options
  import opened Connection
  import opened ConnectionInvariant

  // A probe that the heartbeat started fails: it times out, or cannot be sent.
  predicate HeartbeatProbeFails(s: State, e: Event) {
    || (e.ProbeTimesOut? && s.live.probe.Some? && s.live.probe.value.drivesLiveness)
    || (e.HeartbeatFires? && s.live.heartbeat && s.link.status == Connected && s.live.probe.None? && !e.sendOk)
  }

  // A frame that passes validation arrives on the current transport.
  predicate ProvesAlive(s: State, e: Event) {
    && (e.OnServerInfo? || e.OnPong? || e.OnHelloRejected? || e.OnSession? || e.OnBinary?)
    && s.link.transport == Some(e.tid)
  }

  // The event reports a disconnect whose cause is the liveness heartbeat.
  predicate LivenessTeardown(s: State, e: Event) {
    var after := Step(s, e).link.log;
    |after| > |s.link.log| && Transition(Disconnected, LivenessTimedOut) in after[|s.link.log|..]
  }

  // --------------------------------------------------------- one event

  // What an event does to the failure counter, the log and the transport.
  ghost predicate Moves(s: State, e: Event, r: State) {
    && s.link.log <= r.link.log
    && (if HeartbeatProbeFails(s, e) then
          if s.live.failures + 1 < LIVENESS_THRESHOLD then
            r.live.failures == s.live.failures + 1 && r.link == s.link
          else
            r.live.failures == 0 && r.link.status == Disconnected
            && r.link.log == s.link.log + [Transition(Disconnected, LivenessTimedOut)]
        else
          && (ProvesAlive(s, e) ==> r.live.failures == 0)
          && (!ProvesAlive(s, e) ==> r.live.failures == s.live.failures)
          && Transition(Disconnected, LivenessTimedOut) !in r.link.log[|s.link.log|..])
    && (r.link.status == Connected && s.link.status == Connected ==> r.link.transport == s.link.transport)
    && (r.link.status == Connected && s.link.status != Connected ==> ProvesAlive(s, e))
  }

  // An attempt reports at most one transition, never the liveness one.
  ghost predicate Quiet(s: State, r: State) {
    && s.link.log <= r.link.log
    && (forall i | |s.link.log| <= i < |r.link.log| :: r.link.log[i].event != LivenessTimedOut)
    && r.live.failures == s.live.failures
    && (r.link.status == Connected ==> s.link.status == Connected && r.link.transport == s.link.transport)
  }

  lemma ScheduleReconnectQuiet(s: State, event: Cause)
    requires event != LivenessTimedOut
    ensures Quiet(s, ScheduleReconnect(s, event))
  {
  }

  lemma AttemptQuiet(s: State, a: Attempt)
    requires s.link.status != Connected
    ensures Quiet(s, AttemptConnect(s, a))
  {
    var s1 := s.(retry := s.retry.(timer := None));
    var s2 := DisposeTransport(s1);
    ScheduleReconnectQuiet(s1.(deadlines := s1.deadlines.(connect := false)), ConnectFailed);
    ScheduleReconnectQuiet(s2.(deadlines := s2.deadlines.(connect := false)), ConnectFailed);
    var s3 := s2.(retry := SetEnabled(s2.retry, false));
    ScheduleReconnectQuiet(s3.(deadlines := s3.deadlines.(connect := false)), ConnectFailed);
  }

  lemma EnsureQuiet(s: State, v: bool, a: Attempt)
    ensures Quiet(s, DoConnect(s, a)) && Quiet(s, DoEnsureConnected(s, v, a))
  {
    var s1 := s.(retry := s.retry.(wanted := true));
    if s.link.status != Connected {
      AttemptQuiet(NewConnectPromise(s), a);
      AttemptQuiet(s1, a);
      AttemptQuiet(NewConnectPromise(s1), a);
    }
  }

  lemma QuietMoves(s: State, e: Event, r: State)
    requires Quiet(s, r) && !HeartbeatProbeFails(s, e) && !ProvesAlive(s, e)
    ensures Moves(s, e, r)
  {
  }

  lemma ProbeMoves(s: State, e: Event)
    requires ConnectionOk(s) && (e.ProbeTimesOut? || e.HeartbeatFires?)
    ensures Moves(s, e, OnTimer(s, e))
  {
  }

  lemma DeadlineMoves(s: State, e: Event)
    requires e.ReconnectFires? || e.ConnectTimeoutFires? || e.ErrorTimerFires?
    requires ConnectionOk(s)
    ensures Moves(s, e, OnTimer(s, e))
  {
    match e {
      case ReconnectFires(a) => if s.retry.timer.Some? { AttemptQuiet(s.(retry := s.retry.(timer := None)), a); }
      case ConnectTimeoutFires => ScheduleReconnectQuiet(DisposeTransport(s), ConnectTimedOut);
      case ErrorTimerFires => ScheduleReconnectQuiet(s.(deadlines := s.deadlines.(error := false)), TransportFailed);
    }
    QuietMoves(s, e, OnTimer(s, e));
  }

  lemma TimerMoves(s: State, e: Event)
    requires ConnectionOk(s) && FromTimer(e)
    ensures Moves(s, e, OnTimer(s, e))
  {
    if e.ProbeTimesOut? || e.HeartbeatFires? {
      ProbeMoves(s, e);
    } else if !e.WaiterTimesOut? && !e.SendTimesOut? {
      DeadlineMoves(s, e);
    }
  }

  lemma FrameMoves(s: State, e: Event)
    requires ConnectionOk(s) && ProvesAlive(s, e)
    ensures Moves(s, e, OnTransport(s, e))
  {
  }

  lemma CallbackQuiet(s: State, e: Event)
    requires s.link.transport.Some? && (e.OnOpen? || e.OnClose? || e.OnError? || e.OnInvalid?)
    ensures Quiet(s, OnTransport(s, e))
  {
  }

  lemma CallbackMoves(s: State, e: Event)
    requires ConnectionOk(s) && s.link.transport.Some? && (e.OnOpen? || e.OnClose? || e.OnError? || e.OnInvalid?)
    ensures Moves(s, e, OnTransport(s, e))
  {
    CallbackQuiet(s, e);
    QuietMoves(s, e, OnTransport(s, e));
  }

  lemma VerificationQuiet(s: State, t: Tid, a: Attempt)
    requires s.link.status == Connected
    ensures Quiet(s, DoVerificationFails(s, t, a))
  {
    ScheduleReconnectQuiet(DisposeTransport(s), VerificationFailed);
    EnsureQuiet(ScheduleReconnect(DisposeTransport(s), VerificationFailed), false, a);
  }

  lemma OtherMoves(s: State, e: Event)
    requires ConnectionOk(s) && !FromTransport(e) && !FromTimer(e)
    ensures Moves(s, e, Step(s, e))
  {
    match e {
      case Connect(a) => EnsureQuiet(s, false, a);
      case EnsureConnected(v, a) => EnsureQuiet(s, v, a);
      case VerificationFails(t, a) => if s.link.status == Connected { VerificationQuiet(s, t, a); }
      case ReleaseFails => ScheduleReconnectQuiet(DisposeTransport(s), TransportClosed);
      case _ =>
    }
    QuietMoves(s, e, Step(s, e));
  }

  lemma StepMoves(s: State, e: Event)
    requires ConnectionOk(s)
    ensures Moves(s, e, Step(s, e))
  {
    if FromTransport(e) {
      if s.link.transport == Some(e.tid) {
        if ProvesAlive(s, e) { FrameMoves(s, e); } else { CallbackMoves(s, e); }
      }
    } else if FromTimer(e) {
      TimerMoves(s, e);
    } else {
      OtherMoves(s, e);
    }
  }

  // ------------------------------------------------------------- whole runs

  // The states of a run: one before each event, and the last one.
  ghost function States(s: State, es: seq<Event>): (ss: seq<State>)
    ensures |ss| == |es| + 1
  {
    seq(|es| + 1, i requires 0 <= i <= |es| => At(s, es, i))
  }

  ghost predicate Trace(ss: seq<State>, es: seq<Event>) {
    && |ss| == |es| + 1
    && ss[0].link.status != Connected
    && forall j | 0 <= j < |es| :: Moves(ss[j], es[j], ss[j + 1])
  }

  lemma {:induction false} RunIsTrace(backoff: Backoff, enabled: bool, es: seq<Event>)
    ensures Trace(States(Initial(backoff, enabled), es), es)
  {
    var s0 := Initial(backoff, enabled);
    var ss := States(s0, es);
    forall j | 0 <= j < |es| ensures Moves(ss[j], es[j], ss[j + 1]) {
      RunKeepsConnectionOk(backoff, enabled, es, j);
      StepMoves(At(s0, es, j), es[j]);
      assert ss[j + 1] == Step(At(s0, es, j), es[j]);
    }
  }

  // From event i up to event k the client stays connected on one transport.
  ghost predicate SameConnection(ss: seq<State>, i: nat, k: nat)
    requires i <= k < |ss|
  {
    forall j | i <= j <= k :: ss[j].link.status == Connected && ss[j].link.transport == ss[k].link.transport
  }

  // Event i is a failed heartbeat probe of the connection that event k finds, and
  // no validated frame arrived in between.
  ghost predicate UnansweredFailure(ss: seq<State>, es: seq<Event>, i: nat, k: nat)
    requires i < k <= |es| && |ss| == |es| + 1
  {
    && HeartbeatProbeFails(ss[i], es[i])
    && SameConnection(ss, i, k)
    && forall j | i < j < k :: !ProvesAlive(ss[j], es[j])
  }

  lemma CounterStepsBack(p: State, e: Event, r: State)
    requires Moves(p, e, r) && r.link.status == Connected && r.live.failures > 0
    ensures p.link.status == Connected && p.link.transport == r.link.transport
    ensures HeartbeatProbeFails(p, e) || (p.live.failures > 0 && !ProvesAlive(p, e))
  {
  }

  lemma {:induction false} CounterHasWitness(ss: seq<State>, es: seq<Event>, k: nat) returns (i: nat)
    requires Trace(ss, es) && k <= |es|
    requires ss[k].link.status == Connected && ss[k].live.failures > 0
    ensures i < k && UnansweredFailure(ss, es, i, k)
  {
    CounterStepsBack(ss[k - 1], es[k - 1], ss[k]);
    if HeartbeatProbeFails(ss[k - 1], es[k - 1]) {
      i := k - 1;
    } else {
      i := CounterHasWitness(ss, es, k - 1);
    }
  }

  lemma {:induction false} WitnessRaisesCounter(ss: seq<State>, es: seq<Event>, i: nat, k: nat)
    requires Trace(ss, es) && i < k <= |es| && UnansweredFailure(ss, es, i, k)
    ensures ss[k].live.failures > 0
  {
    assert Moves(ss[k - 1], es[k - 1], ss[k]);
    if i < k - 1 {
      assert SameConnection(ss, i, k - 1);
      WitnessRaisesCounter(ss, es, i, k - 1);
    }
  }

  lemma TeardownByProbe(backoff: Backoff, enabled: bool, es: seq<Event>, k: nat)
    requires k < |es|
    ensures var ss := States(Initial(backoff, enabled), es);
            LivenessTeardown(ss[k], es[k]) <==>
              HeartbeatProbeFails(ss[k], es[k]) && exists i | 0 <= i < k :: UnansweredFailure(ss, es, i, k)
  {
    var ss := States(Initial(backoff, enabled), es);
    RunIsTrace(backoff, enabled, es);
    RunKeepsConnectionOk(backoff, enabled, es, k);
    StepMoves(ss[k], es[k]);
    TeardownIsThreshold(ss[k], es[k], Step(ss[k], es[k]));
    if HeartbeatProbeFails(ss[k], es[k]) {
      ProbeFailureIsConnected(ss[k], es[k]);
      if ss[k].live.failures > 0 {
        var i := CounterHasWitness(ss, es, k);
      }
      if i :| 0 <= i < k && UnansweredFailure(ss, es, i, k) {
        WitnessRaisesCounter(ss, es, i, k);
      }
    }
  }

  lemma ProbeFailureIsConnected(s: State, e: Event)
    requires ConnectionOk(s) && HeartbeatProbeFails(s, e)
    ensures s.link.status == Connected
  {
  }

  lemma TeardownIsThreshold(s: State, e: Event, r: State)
    requires Moves(s, e, r) && s.live.failures < LIVENESS_THRESHOLD && r == Step(s, e)
    ensures LivenessTeardown(s, e) <==> HeartbeatProbeFails(s, e) && s.live.failures > 0
  {
  }

  // ------------------------------------------------------ who started the probe

  predicate PongArrives(s: State, e: Event) { e.OnPong? && s.link.transport == Some(e.tid) }

  // The event sends a ping if none is outstanding: an armed heartbeat or a measurement
  // on a connected client whose transport takes it.
  predicate SendsPing(s: State, e: Event) {
    && s.link.status == Connected
    && ((e.HeartbeatFires? && s.live.heartbeat && e.sendOk) || (e.MeasureLatency? && e.sendOk))
  }

  predicate Beats(s: State, e: Event) { e.HeartbeatFires? && s.live.heartbeat && s.link.status == Connected }

  // An answer, the timeout and the end of the connection end the probe; a heartbeat
  // joins one that is outstanding.
  ghost predicate ProbeMoved(s: State, e: Event, r: State) {
    r.live.probe ==
      if e.ProbeTimesOut? || PongArrives(s, e) || r.link.status != Connected then None
      else if s.live.probe.Some? then
        Some(Probe(s.live.probe.value.drivesLiveness, s.live.probe.value.heartbeatWaits || Beats(s, e)))
      else if SendsPing(s, e) then Some(Probe(e.HeartbeatFires?, e.HeartbeatFires?))
      else None
  }

  lemma PingMovesProbe(s: State, e: Event)
    requires ConnectionOk(s) && (e.HeartbeatFires? || e.MeasureLatency? || e.ProbeTimesOut?)
    ensures ProbeMoved(s, e, Step(s, e))
  {
    StepKeepsConnectionOk(s, e);
  }

  // Every other event leaves the probe of a client that stays connected, and its next
  // beat; the handshake arms the first.
  ghost predicate BeatKept(s: State, r: State) {
    r.link.status == Connected ==>
      && r.live.probe == s.live.probe
      && (r.live.heartbeat <==> s.live.heartbeat || s.link.status != Connected)
  }

  lemma QuietCallback(s: State, e: Event)
    requires ConnectionOk(s) && FromTransport(e) && s.link.transport == Some(e.tid) && !e.OnPong?
    ensures BeatKept(s, OnTransport(s, e))
  {
  }

  lemma QuietTimer(s: State, e: Event)
    requires ConnectionOk(s) && FromTimer(e) && !e.HeartbeatFires? && !e.ProbeTimesOut?
    ensures BeatKept(s, OnTimer(s, e))
  {
    if e.ReconnectFires? && s.retry.timer.Some? { AttemptQuiet(s.(retry := s.retry.(timer := None)), e.attempt); }
  }

  lemma QuietEnsure(s: State, v: bool, a: Attempt)
    requires ConnectionOk(s)
    ensures BeatKept(s, DoConnect(s, a)) && BeatKept(s, DoEnsureConnected(s, v, a))
  {
    EnsureQuiet(s, v, a);
  }

  lemma QuietCheck(s: State, t: Tid, a: Attempt)
    requires ConnectionOk(s) && t in s.live.verifying
    ensures BeatKept(s, DoVerificationFails(s, t, a))
  {
    if s.link.transport == Some(t) && s.link.status == Connected {
      EnsureQuiet(ScheduleReconnect(DisposeTransport(s), VerificationFailed), false, a);
    }
  }

  lemma QuietCall(s: State, e: Event)
    requires ConnectionOk(s) && !FromTransport(e) && !FromTimer(e) && !e.MeasureLatency?
    ensures BeatKept(s, Step(s, e))
  {
    match e {
      case Connect(a) => QuietEnsure(s, false, a);
      case EnsureConnected(v, a) => QuietEnsure(s, v, a);
      case VerificationFails(t, a) => if t in s.live.verifying { QuietCheck(s, t, a); }
      case _ =>
    }
  }

  lemma QuietEvent(s: State, e: Event)
    requires ConnectionOk(s) && !(e.HeartbeatFires? || e.MeasureLatency? || e.ProbeTimesOut?) && !PongArrives(s, e)
    ensures BeatKept(s, Step(s, e))
  {
    if FromTransport(e) {
      if s.link.transport == Some(e.tid) { QuietCallback(s, e); }
    } else if FromTimer(e) {
      QuietTimer(s, e);
    } else {
      QuietCall(s, e);
    }
  }

  lemma StepMovesProbe(s: State, e: Event)
    requires ConnectionOk(s)
    ensures ProbeMoved(s, e, Step(s, e))
  {
    if e.HeartbeatFires? || e.MeasureLatency? || e.ProbeTimesOut? {
      PingMovesProbe(s, e);
    } else {
      StepKeepsConnectionOk(s, e);
      if !PongArrives(s, e) { QuietEvent(s, e); }
    }
  }

  // The event that started the probe that is outstanding before event `n`, told from
  // the history alone: the latest that sent a ping with none outstanding, unless a
  // pong, a timeout or the end of the connection has come since.
  ghost function Starter(s0: State, es: seq<Event>, n: nat): Option<nat>
    requires n <= |es|
  {
    if n == 0 then None
    else
      var s, e, before := At(s0, es, n - 1), es[n - 1], Starter(s0, es, n - 1);
      if e.ProbeTimesOut? || PongArrives(s, e) || At(s0, es, n).link.status != Connected then None
      else if before.None? && SendsPing(s, e) then Some(n - 1)
      else before
  }

  ghost predicate StartedBy(s: State, es: seq<Event>, i: Option<nat>) {
    && (s.live.probe.Some? <==> i.Some?)
    && (i.Some? ==> i.value < |es| && (es[i.value].HeartbeatFires? || es[i.value].MeasureLatency?)
                    && (s.live.probe.value.drivesLiveness <==> es[i.value].HeartbeatFires?))
  }

  lemma {:induction false} ProbeHasStarter(backoff: Backoff, enabled: bool, es: seq<Event>, n: nat)
    requires n <= |es|
    ensures StartedBy(At(Initial(backoff, enabled), es, n), es, Starter(Initial(backoff, enabled), es, n))
  {
    if n > 0 {
      var s0 := Initial(backoff, enabled);
      ProbeHasStarter(backoff, enabled, es, n - 1);
      RunKeepsConnectionOk(backoff, enabled, es, n - 1);
      StepMovesProbe(At(s0, es, n - 1), es[n - 1]);
    }
  }

  // A probe that a heartbeat started fails, or the heartbeat's ping cannot be sent.
  ghost predicate HeartbeatFailsAt(s0: State, es: seq<Event>, k: nat)
    requires k < |es|
  {
    var s, e, i := At(s0, es, k), es[k], Starter(s0, es, k);
    || (e.ProbeTimesOut? && i.Some? && i.value < |es| && es[i.value].HeartbeatFires?)
    || (Beats(s, e) && i.None? && !e.sendOk)
  }

  lemma FailureIsHeartbeats(backoff: Backoff, enabled: bool, es: seq<Event>, k: nat)
    requires k < |es|
    ensures HeartbeatFailsAt(Initial(backoff, enabled), es, k) <==>
            HeartbeatProbeFails(At(Initial(backoff, enabled), es, k), es[k])
  {
    ProbeHasStarter(backoff, enabled, es, k);
  }

  ghost predicate UnansweredAt(s0: State, es: seq<Event>, i: nat, k: nat)
    requires i < k <= |es|
  {
    && HeartbeatFailsAt(s0, es, i) && SameConnection(States(s0, es), i, k)
    && forall j | i < j < k :: !ProvesAlive(States(s0, es)[j], es[j])
  }

  lemma UnansweredIs(backoff: Backoff, enabled: bool, es: seq<Event>, i: nat, k: nat)
    requires i < k <= |es|
    ensures var s0 := Initial(backoff, enabled);
            UnansweredAt(s0, es, i, k) <==> UnansweredFailure(States(s0, es), es, i, k)
  {
    FailureIsHeartbeats(backoff, enabled, es, i);
  }

  // The heartbeat disconnects the client at event k exactly when a ping that a heartbeat
  // started fails there, and an earlier one failed on the same connection, with no
  // validated frame between the two.
  lemma TeardownExactly(backoff: Backoff, enabled: bool, es: seq<Event>, k: nat)
    requires k < |es|
    ensures var s0 := Initial(backoff, enabled);
            LivenessTeardown(At(s0, es, k), es[k]) <==>
              HeartbeatFailsAt(s0, es, k) && exists i | 0 <= i < k :: UnansweredAt(s0, es, i, k)
  {
    TeardownByProbe(backoff, enabled, es, k);
    FailureIsHeartbeats(backoff, enabled, es, k);
    forall i | 0 <= i < k
      ensures var s0 := Initial(backoff, enabled);
              UnansweredAt(s0, es, i, k) <==> UnansweredFailure(States(s0, es), es, i, k)
    {
      UnansweredIs(backoff, enabled, es, i, k);
    }
  }

  // A measurement, or the timeout of a ping that a measurement started.
  ghost predicate MeasuresAt(s0: State, es: seq<Event>, k: nat)
    requires k < |es|
  {
    var i := Starter(s0, es, k);
    || es[k].MeasureLatency?
    || (es[k].ProbeTimesOut? && i.Some? && i.value < |es| && es[i.value].MeasureLatency?)
  }

  // Latency measurements never move the counter, even shared by a heartbeat, and never
  // touch the connection.
  lemma MeasurementsDoNotCount(backoff: Backoff, enabled: bool, es: seq<Event>, k: nat)
    requires k < |es| && MeasuresAt(Initial(backoff, enabled), es, k)
    ensures var s, r := At(Initial(backoff, enabled), es, k), At(Initial(backoff, enabled), es, k + 1);
            r.live.failures == s.live.failures && r.link == s.link
  {
    var s0 := Initial(backoff, enabled);
    RunKeepsConnectionOk(backoff, enabled, es, k);
    ProbeHasStarter(backoff, enabled, es, k);
    MeasurementIsSilent(At(s0, es, k), es[k]);
  }

  lemma MeasurementIsSilent(s: State, e: Event)
    requires ConnectionOk(s)
    requires e.MeasureLatency? || (e.ProbeTimesOut? && (s.live.probe.Some? ==> !s.live.probe.value.drivesLiveness))
    ensures Step(s, e).live.failures == s.live.failures && Step(s, e).link == s.link
  {
  }

  // --------------------------------------------------------- the next heartbeat

  // A connected client has its next beat armed, or a probe that will arm it, not both.
  predicate BeatsOnce(s: State) {
    s.link.status == Connected ==>
      (s.live.heartbeat <==> !(s.live.probe.Some? && s.live.probe.value.heartbeatWaits))
  }

  lemma PingKeepsBeatsOnce(s: State, e: Event)
    requires ConnectionOk(s) && BeatsOnce(s)
    requires e.HeartbeatFires? || e.MeasureLatency? || e.ProbeTimesOut? || PongArrives(s, e)
    ensures BeatsOnce(Step(s, e))
  {
  }

  lemma StepKeepsBeatsOnce(s: State, e: Event, r: State)
    requires ConnectionOk(s) && BeatsOnce(s) && r == Step(s, e)
    ensures BeatsOnce(r)
  {
    if e.HeartbeatFires? || e.MeasureLatency? || e.ProbeTimesOut? || PongArrives(s, e) {
      PingKeepsBeatsOnce(s, e);
    } else {
      QuietEvent(s, e);
    }
  }

  lemma InitialBeatsOnce(backoff: Backoff, enabled: bool)
    ensures BeatsOnce(Initial(backoff, enabled))
  {
  }

  lemma {:induction false} BeatsOverRuns(backoff: Backoff, enabled: bool, es: seq<Event>, k: nat)
    requires k <= |es|
    ensures BeatsOnce(At(Initial(backoff, enabled), es, k))
  {
    var s0 := Initial(backoff, enabled);
    if k == 0 {
      InitialBeatsOnce(backoff, enabled);
    } else {
      BeatsOverRuns(backoff, enabled, es, k - 1);
      RunKeepsConnectionOk(backoff, enabled, es, k - 1);
      StepKeepsBeatsOnce(At(s0, es, k - 1), es[k - 1], At(s0, es, k));
    }
  }
}
