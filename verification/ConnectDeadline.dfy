/**
  The deadline of a connection attempt: while connecting, the connect timeout or
  the generic-error timer should be armed, so that the attempt cannot hang.
*/
module ConnectDeadline {
  import opened Options
  import opened Connection
  import opened ConnectionInvariant

  predicate Guarded(s: State) {
    s.link.status == Connecting ==> s.deadlines.connect || s.deadlines.error
  }

  // The `open` callback cancels the error timer without looking at the connect
  // timeout, which `error` had already cancelled.
  predicate OpensAfterError(s: State, e: Event) {
    && e.OnOpen? && e.helloOk && s.link.transport == Some(e.tid)
    && s.link.status == Connecting && s.deadlines.error
  }

  lemma AttemptGuards(s: State, a: Attempt)
    requires Guarded(s)
    ensures Guarded(AttemptConnect(s, a))
  {
  }

  lemma EnsureGuards(s: State, v: bool, a: Attempt)
    requires Guarded(s)
    ensures Guarded(DoConnect(s, a)) && Guarded(DoEnsureConnected(s, v, a))
  {
  }

  lemma ProbeGuards(s: State, drives: bool, heartbeat: bool, ok: bool)
    requires Guarded(s)
    ensures Guarded(Ping(s, drives, heartbeat, ok)) && Guarded(ProbeTimeout(s))
  {
  }

  lemma TimerGuards(s: State, e: Event)
    requires ConnectionOk(s) && Guarded(s)
    ensures Guarded(OnTimer(s, e))
  {
    match e {
      case ReconnectFires(a) => AttemptGuards(s.(retry := s.retry.(timer := None)), a);
      case HeartbeatFires(ok) => ProbeGuards(s.(live := s.live.(heartbeat := false)), true, true, ok);
      case ProbeTimesOut => ProbeGuards(s, true, true, true);
      case _ =>
    }
  }

  lemma TransportGuards(s: State, e: Event)
    requires ConnectionOk(s) && Guarded(s) && FromTransport(e) && s.link.transport == Some(e.tid)
    ensures Guarded(OnTransport(s, e)) <==> !OpensAfterError(s, e)
  {
  }

  lemma SettledGuards(s: State, e: Event)
    requires ConnectionOk(s) && Guarded(s)
    ensures Guarded(OnSettled(s, e))
  {
  }

  lemma CallGuards(s: State, e: Event)
    requires Guarded(s)
    ensures Guarded(OnCall(s, e))
  {
    match e {
      case Connect(a) => EnsureGuards(s, false, a);
      case EnsureConnected(v, a) => EnsureGuards(s, v, a);
      case MeasureLatency(ok) => ProbeGuards(s, false, false, ok);
      case _ =>
    }
  }

  // An attempt loses its deadline exactly when its transport opens after having
  // reported a generic error.
  lemma DeadlineExactly(s: State, e: Event)
    requires ConnectionOk(s) && Guarded(s)
    ensures Guarded(Step(s, e)) <==> !OpensAfterError(s, e)
  {
    if FromTransport(e) {
      if s.link.transport == Some(e.tid) { TransportGuards(s, e); }
    } else if FromTimer(e) {
      TimerGuards(s, e);
    } else {
      SettledGuards(s, e);
      CallGuards(s, e);
    }
  }

  // None of the first `k` events opens a transport after an error.
  predicate NeverOpensAfterError(s: State, es: seq<Event>, k: nat)
    requires k <= |es|
  {
    k > 0 ==> NeverOpensAfterError(s, es, k - 1) && !OpensAfterError(At(s, es, k - 1), es[k - 1])
  }

  predicate AlwaysGuarded(s: State, es: seq<Event>, k: nat)
    requires k <= |es|
  {
    Guarded(At(s, es, k)) && (k > 0 ==> AlwaysGuarded(s, es, k - 1))
  }

  // Every attempt of a run has an armed deadline throughout exactly when no transport
  // opens after an error.
  lemma {:induction false} DeadlineOverRuns(backoff: Backoff, enabled: bool, es: seq<Event>, k: nat)
    requires k <= |es|
    ensures AlwaysGuarded(Initial(backoff, enabled), es, k) <==> NeverOpensAfterError(Initial(backoff, enabled), es, k)
  {
    if k > 0 {
      var s0 := Initial(backoff, enabled);
      DeadlineOverRuns(backoff, enabled, es, k - 1);
      RunKeepsConnectionOk(backoff, enabled, es, k - 1);
      if AlwaysGuarded(s0, es, k - 1) { DeadlineExactly(At(s0, es, k - 1), es[k - 1]); }
    }
  }

  const HANGING_RUN := [Connect(Opens), OnError(0, true), OnOpen(0, true)]

  lemma OpenAfterErrorHangs(backoff: Backoff, enabled: bool)
    ensures !Guarded(At(Initial(backoff, enabled), HANGING_RUN, 3))
  {
    var s0 := Initial(backoff, enabled);
    var s1 := Step(s0, Connect(Opens));
    assert s1.link.status == Connecting && s1.link.transport == Some(0) && s1.deadlines == Deadlines(true, false);
    var s2 := Step(s1, OnError(0, true));
    assert s2.link == s1.link && s2.deadlines == Deadlines(false, true);
    var s3 := Step(s2, OnOpen(0, true));
    AtThree(s0, HANGING_RUN);
  }

  // Nothing on the client's side ends such a hang but `close` and the failed release of
  // a subscription: no timer and no other call does.
  lemma HangIsStable(s: State, e: Event)
    requires ConnectionOk(s) && !Guarded(s)
    requires !FromTransport(e) && !e.Close? && !e.ReleaseFails?
    ensures !Guarded(Step(s, e)) && Step(s, e).link.(slots := s.link.slots) == s.link
  {
  }
}
