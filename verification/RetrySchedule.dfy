/**
  The reconnect backoff over whole runs.
*/
module RetrySchedule {
  import opened Options
  import opened Connection
  import opened ConnectionInvariant

  // The delays armed since the last handshake are base*2^0, base*2^1, ... capped
  // at the maximum, and an armed timer carries the latest of them.
  ghost predicate ScheduleOk(r: Retry) {
    && |r.delays| == r.attempt
    && (forall i | 0 <= i < |r.delays| :: r.delays[i] == Delay(r.backoff, i))
    && (r.timer.Some? ==> r.delays != [] && r.timer.value == r.delays[|r.delays| - 1])
  }

  // What one event may do to the retry record.
  ghost predicate Evolves(before: Retry, after: Retry, handshake: bool) {
    && after.backoff == before.backoff
    && (ScheduleOk(before) ==> ScheduleOk(after))
    && (if handshake then after.delays == [] else before.delays <= after.delays)
  }

  predicate IsHandshake(s: State, e: Event) {
    e.OnServerInfo? && s.link.transport == Some(e.tid) && s.link.status == Connecting
  }

  lemma ScheduleReconnectEvolves(s: State, event: Cause)
    ensures Evolves(s.retry, ScheduleReconnect(s, event).retry, false)
  {
  }

  lemma AttemptEvolves(s: State, a: Attempt)
    ensures Evolves(s.retry, AttemptConnect(s, a).retry, false)
  {
  }

  lemma EnsureEvolves(s: State, v: bool, a: Attempt)
    ensures Evolves(s.retry, DoConnect(s, a).retry, false)
    ensures Evolves(s.retry, DoEnsureConnected(s, v, a).retry, false)
  {
    AttemptEvolves(NewConnectPromise(s), a);
    var s1 := s.(retry := s.retry.(wanted := true));
    AttemptEvolves(s1, a);
    AttemptEvolves(NewConnectPromise(s1), a);
  }

  lemma FailureEvolves(s: State)
    ensures Evolves(s.retry, RecordLivenessFailure(s).retry, false)
  {
  }

  lemma ProbeEvolves(s: State, drives: bool, heartbeat: bool, ok: bool)
    ensures Evolves(s.retry, Ping(s, drives, heartbeat, ok).retry, false)
    ensures Evolves(s.retry, ProbeTimeout(s).retry, false)
  {
    FailureEvolves(s);
    FailureEvolves(s.(live := s.live.(probe := None)));
  }

  lemma TransportEvolves(s: State, e: Event)
    requires ConnectionOk(s) && !IsHandshake(s, e) && FromTransport(e) && s.link.transport == Some(e.tid)
    ensures Evolves(s.retry, OnTransport(s, e).retry, false)
  {
    match e {
      case OnOpen(t, ok) => ScheduleReconnectEvolves(s.(deadlines := s.deadlines.(error := false)), HelloSendFailed);
      case OnClose(t, auth) =>
        ScheduleReconnectEvolves(
          s.(deadlines := Deadlines(false, false), retry := s.retry.(authFailed := s.retry.authFailed || auth)),
          TransportClosed);
      case OnError(t, generic) => ScheduleReconnectEvolves(s.(deadlines := Deadlines(false, false)), TransportFailed);
      case _ =>
    }
  }

  lemma TimerEvolves(s: State, e: Event)
    ensures Evolves(s.retry, OnTimer(s, e).retry, false)
  {
    match e {
      case ReconnectFires(a) => AttemptEvolves(s.(retry := s.retry.(timer := None)), a);
      case ConnectTimeoutFires => ScheduleReconnectEvolves(DisposeTransport(s), ConnectTimedOut);
      case ErrorTimerFires => ScheduleReconnectEvolves(s.(deadlines := s.deadlines.(error := false)), TransportFailed);
      case HeartbeatFires(ok) => ProbeEvolves(s.(live := s.live.(heartbeat := false)), true, true, ok);
      case ProbeTimesOut => ProbeEvolves(s, true, true, true);
      case _ =>
    }
  }

  lemma CallEvolves(s: State, e: Event)
    ensures Evolves(s.retry, OnCall(s, e).retry, false)
  {
    match e {
      case Connect(a) => EnsureEvolves(s, false, a);
      case EnsureConnected(v, a) => EnsureEvolves(s, v, a);
      case MeasureLatency(ok) => ProbeEvolves(s, false, false, ok);
      case _ =>
    }
  }

  lemma SettledEvolves(s: State, e: Event)
    ensures Evolves(s.retry, OnSettled(s, e).retry, false)
  {
    match e {
      case VerificationFails(t, a) =>
        ScheduleReconnectEvolves(DisposeTransport(s), VerificationFailed);
        EnsureEvolves(ScheduleReconnect(DisposeTransport(s), VerificationFailed), false, a);
      case ReleaseFails => ScheduleReconnectEvolves(DisposeTransport(s), TransportClosed);
      case _ =>
    }
  }

  lemma HandshakeEvolves(s: State, e: Event)
    requires ConnectionOk(s) && IsHandshake(s, e)
    ensures Evolves(s.retry, Step(s, e).retry, true)
    ensures Step(s, e).retry.attempt == 0 && Step(s, e).retry.timer.None?
  {
  }

  // Every event extends the delay sequence, except the handshake, which empties it.
  lemma StepEvolves(s: State, e: Event)
    requires ConnectionOk(s)
    ensures Evolves(s.retry, Step(s, e).retry, IsHandshake(s, e))
  {
    if IsHandshake(s, e) {
      HandshakeEvolves(s, e);
    } else if FromTransport(e) {
      if s.link.transport == Some(e.tid) { TransportEvolves(s, e); }
    } else if FromTimer(e) {
      TimerEvolves(s, e);
    } else {
      SettledEvolves(s, e);
      CallEvolves(s, e);
    }
  }

  lemma {:induction false} Pow2Grows(i: nat, j: nat)
    requires i <= j
    ensures 1 <= Pow2(i) <= Pow2(j)
    decreases j - i, i
  {
    if i < j { Pow2Grows(i, j - 1); }
    else if i > 0 { Pow2Grows(i - 1, i - 1); }
  }

  lemma DelayGrows(b: Backoff, i: nat, j: nat)
    requires i <= j
    ensures Delay(b, i) <= Delay(b, j) <= b.max
  {
    Pow2Grows(i, j);
    assert b.base * Pow2(i) <= b.base * Pow2(j) by { MulGrows(b.base, Pow2(i), Pow2(j)); }
  }

  lemma MulGrows(a: nat, x: nat, y: nat)
    requires x <= y
    ensures a * x <= a * y
  {
  }

  function Min(a: nat, b: nat): nat { if a <= b then a else b }

  // The first retry waits for the base delay, every later one twice as long, up to the
  // maximum.
  ghost predicate Doubles(delays: seq<nat>, b: Backoff) {
    && (delays != [] ==> delays[0] == Min(b.base, b.max))
    && forall i | 0 < i < |delays| :: delays[i] == Min(2 * delays[i - 1], b.max)
  }

  lemma DelayDoubles(b: Backoff, k: nat)
    ensures Delay(b, 0) == Min(b.base, b.max) && Delay(b, k + 1) == Min(2 * Delay(b, k), b.max)
  {
    assert b.base * Pow2(k + 1) == 2 * (b.base * Pow2(k));
  }

  lemma ScheduleDoubles(r: Retry)
    requires ScheduleOk(r)
    ensures Doubles(r.delays, r.backoff)
  {
    forall i | 0 < i < |r.delays| ensures r.delays[i] == Min(2 * r.delays[i - 1], r.backoff.max) {
      DelayDoubles(r.backoff, i - 1);
    }
    DelayDoubles(r.backoff, 0);
  }

  // At every point of every run the delays since the last handshake are
  // base*2^k capped at the maximum, never decrease, and the armed retry, which
  // exists only while disconnected, waits for the latest of them.
  lemma {:induction false} BackoffOverRuns(backoff: Backoff, enabled: bool, es: seq<Event>, k: nat)
    requires k <= |es|
    ensures var r := At(Initial(backoff, enabled), es, k).retry;
            && r.backoff == backoff && ScheduleOk(r) && Doubles(r.delays, backoff)
            && (forall i, j | 0 <= i <= j < |r.delays| :: r.delays[i] <= r.delays[j] <= backoff.max)
    ensures At(Initial(backoff, enabled), es, k).retry.timer.Some? ==>
            At(Initial(backoff, enabled), es, k).link.status == Disconnected
  {
    var s0 := Initial(backoff, enabled);
    RunKeepsConnectionOk(backoff, enabled, es, k);
    if k > 0 {
      BackoffOverRuns(backoff, enabled, es, k - 1);
      RunKeepsConnectionOk(backoff, enabled, es, k - 1);
      StepEvolves(At(s0, es, k - 1), es[k - 1]);
      var r := At(s0, es, k).retry;
      ScheduleDoubles(r);
      forall i, j | 0 <= i <= j < |r.delays| ensures r.delays[i] <= r.delays[j] <= backoff.max {
        DelayGrows(backoff, i, j);
      }
    }
  }

  // ------------------------------------------------ after a failed authentication

  predicate Enables(e: Event) { e.SetReconnectEnabled? && e.enabled }

  // A close after a rejected credential turns the retries off, and only the setting
  // turns them on again.
  lemma AuthFailureDisables(s: State, e: Event)
    requires ConnectionOk(s) && e.OnClose? && s.link.transport == Some(e.tid) && (e.authFailure || s.retry.authFailed)
    ensures !Step(s, e).retry.enabled
  {
  }

  lemma AttemptKeepsDisabled(s: State, a: Attempt)
    requires !s.retry.enabled
    ensures !AttemptConnect(s, a).retry.enabled
  {
  }

  lemma EnsureKeepsDisabled(s: State, v: bool, a: Attempt)
    requires !s.retry.enabled
    ensures !DoConnect(s, a).retry.enabled && !DoEnsureConnected(s, v, a).retry.enabled
  {
    var s1 := s.(retry := s.retry.(wanted := true));
    AttemptKeepsDisabled(NewConnectPromise(s), a);
    AttemptKeepsDisabled(s1, a);
    AttemptKeepsDisabled(NewConnectPromise(s1), a);
  }

  lemma CallKeepsDisabled(s: State, e: Event)
    requires !s.retry.enabled && !Enables(e)
    ensures !OnCall(s, e).retry.enabled
  {
    match e {
      case Connect(a) => EnsureKeepsDisabled(s, false, a);
      case EnsureConnected(v, a) => EnsureKeepsDisabled(s, v, a);
      case _ =>
    }
  }

  lemma TimerKeepsDisabled(s: State, e: Event)
    requires !s.retry.enabled
    ensures !OnTimer(s, e).retry.enabled
  {
    match e {
      case ReconnectFires(a) => AttemptKeepsDisabled(s.(retry := s.retry.(timer := None)), a);
      case _ =>
    }
  }

  lemma SettledKeepsDisabled(s: State, e: Event)
    requires !s.retry.enabled
    ensures !OnSettled(s, e).retry.enabled
  {
    match e {
      case VerificationFails(t, a) =>
        EnsureKeepsDisabled(ScheduleReconnect(DisposeTransport(s), VerificationFailed), false, a);
      case _ =>
    }
  }

  lemma StepKeepsDisabled(s: State, e: Event)
    requires !s.retry.enabled && !Enables(e)
    ensures !Step(s, e).retry.enabled
  {
    if FromTransport(e) {
    } else if FromTimer(e) {
      TimerKeepsDisabled(s, e);
    } else {
      SettledKeepsDisabled(s, e);
      CallKeepsDisabled(s, e);
    }
  }

  lemma {:induction false} StaysDisabled(s: State, es: seq<Event>, k: nat, n: nat)
    requires k <= n <= |es| && !At(s, es, k).retry.enabled && forall i | k <= i < n :: !Enables(es[i])
    ensures !At(s, es, n).retry.enabled
    decreases n - k
  {
    if k < n {
      StaysDisabled(s, es, k, n - 1);
      StepKeepsDisabled(At(s, es, n - 1), es[n - 1]);
    }
  }

  // Once the retries are off, no history arms one before the setting is turned on.
  lemma NoRetryWhileDisabled(backoff: Backoff, enabled: bool, es: seq<Event>, k: nat, n: nat)
    requires k <= n <= |es| && !At(Initial(backoff, enabled), es, k).retry.enabled
    requires forall i | k <= i < n :: !Enables(es[i])
    ensures At(Initial(backoff, enabled), es, n).retry.timer.None?
  {
    StaysDisabled(Initial(backoff, enabled), es, k, n);
    RunKeepsConnectionOk(backoff, enabled, es, n);
  }
}
