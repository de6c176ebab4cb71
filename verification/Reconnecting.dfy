/**
  A lost connection comes back: every loss arms a retry, an armed retry stays armed until
  it fires, and a fired one connects.
*/
module Reconnecting {
  import opened Options
  import opened Connection
  import opened ConnectionInvariant
  import opened ConnectPromise
  import opened EngineEffects

  // ------------------------------------------------------------------ one event

  // A fired retry makes an attempt, with or without a promise to settle.
  lemma FiredRetryConnects(s: State, a: Attempt)
    requires ConnectionOk(s) && PromiseOk(s) && s.retry.timer.Some?
    ensures var r := Step(s, ReconnectFires(a));
            if a == Opens then
              r.link.status == Connecting && r.link.transport == Some(s.link.nextTransport) && r.deadlines.connect
            else
              && r.link.status == Disconnected
              && (r.retry.timer.Some? <==> s.retry.enabled && !s.retry.authFailed && a != Refused)
  {
    StepMoves(s, ReconnectFires(a));
  }

  // The connection is lost: closed, failed, refused the hello, too late, or given up.
  predicate LostBy(s: State, e: Event) {
    match e
    case OnClose(t, _) => s.link.transport == Some(t)
    case OnError(t, generic) => s.link.transport == Some(t) && !generic
    case OnOpen(t, ok) => s.link.transport == Some(t) && !ok
    case ConnectTimeoutFires => s.deadlines.connect && s.link.status == Connecting
    case ErrorTimerFires => s.deadlines.error
    case ReleaseFails => true
    case _ => false
  }

  lemma LossArmsRetry(s: State, e: Event)
    requires ConnectionOk(s) && PromiseOk(s) && (s.link.status == Connecting || s.link.status == Connected)
    requires LostBy(s, e)
    ensures var r := Step(s, e);
            && r.link.status == Disconnected
            && (r.retry.timer.Some? <==> s.retry.enabled && !s.retry.authFailed && !(e.OnClose? && e.authFailure))
  {
    StepMoves(s, e);
  }

  // A disconnected client has a retry armed exactly when reconnecting is enabled.
  predicate Retrying(s: State) { s.link.status == Disconnected ==> (s.retry.timer.Some? <==> s.retry.enabled) }

  // Switching reconnecting back on does not arm the retry that switching it off disarmed.
  predicate SwitchedOnTooLate(s: State, e: Event) {
    e.SetReconnectEnabled? && e.enabled && s.link.status == Disconnected && !s.retry.enabled
  }

  lemma RetryingExactly(s: State, e: Event)
    requires ConnectionOk(s) && PromiseOk(s) && Retrying(s)
    ensures Retrying(Step(s, e)) <==> !SwitchedOnTooLate(s, e)
  {
    if s.link.status == Disposed { DisposedAbsorbs(s, e); } else { StepMoves(s, e); }
  }

  // ----------------------------------------------------------------- whole runs

  predicate NeverSwitchedOnTooLate(s: State, es: seq<Event>, k: nat)
    requires k <= |es|
  {
    k > 0 ==> NeverSwitchedOnTooLate(s, es, k - 1) && !SwitchedOnTooLate(At(s, es, k - 1), es[k - 1])
  }

  predicate AlwaysRetrying(s: State, es: seq<Event>, k: nat)
    requires k <= |es|
  {
    Retrying(At(s, es, k)) && (k > 0 ==> AlwaysRetrying(s, es, k - 1))
  }

  lemma {:induction false} AlwaysRetryingExactly(backoff: Backoff, enabled: bool, es: seq<Event>, k: nat)
    requires k <= |es|
    ensures AlwaysRetrying(Initial(backoff, enabled), es, k) <==>
            NeverSwitchedOnTooLate(Initial(backoff, enabled), es, k)
  {
    if k > 0 {
      var s0 := Initial(backoff, enabled);
      AlwaysRetryingExactly(backoff, enabled, es, k - 1);
      PromiseOkAt(backoff, enabled, es, k - 1);
      if AlwaysRetrying(s0, es, k - 1) { RetryingExactly(At(s0, es, k - 1), es[k - 1]); }
    }
  }

  // Neither the retry itself, nor a call that makes an attempt or stops the retries, nor
  // a rejected credential.
  predicate LeavesRetry(e: Event) {
    && !e.ReconnectFires? && !e.Connect? && !e.EnsureConnected? && !e.Close?
    && !(e.SetReconnectEnabled? && !e.enabled) && !(e.OnClose? && e.authFailure) && !(e.OnHelloRejected? && e.auth)
  }

  ghost predicate Waiting(s: State) {
    s.link.status == Disconnected && s.retry.timer.Some? && s.retry.enabled && !s.retry.authFailed
  }

  lemma WaitingStays(s: State, e: Event, r: State)
    requires ConnectionOk(s) && PromiseOk(s) && Waiting(s) && LeavesRetry(e) && r == Step(s, e)
    ensures Waiting(r)
  {
    StepMoves(s, e);
  }

  lemma {:induction false} RetryStaysArmed(backoff: Backoff, enabled: bool, es: seq<Event>, k: nat, n: nat)
    requires k <= n <= |es| && Waiting(At(Initial(backoff, enabled), es, k))
    requires forall i | k <= i < n :: LeavesRetry(es[i])
    ensures Waiting(At(Initial(backoff, enabled), es, n))
    decreases n - k
  {
    if k < n {
      var s0 := Initial(backoff, enabled);
      RetryStaysArmed(backoff, enabled, es, k, n - 1);
      PromiseOkAt(backoff, enabled, es, n - 1);
      WaitingStays(At(s0, es, n - 1), es[n - 1], At(s0, es, n));
    }
  }

  // In every history a connection that is lost while reconnecting is enabled is back in
  // progress, on a transport of its own, when the retry fires.
  lemma LostConnectionComesBack(backoff: Backoff, enabled: bool, es: seq<Event>, k: nat, n: nat)
    requires k < n < |es| && es[n] == ReconnectFires(Opens) && LostBy(At(Initial(backoff, enabled), es, k), es[k])
    requires var s := At(Initial(backoff, enabled), es, k);
             s.link.status in {Connecting, Connected} && s.retry.enabled && !s.retry.authFailed
    requires !(es[k].OnClose? && es[k].authFailure) && forall i | k < i < n :: LeavesRetry(es[i])
    ensures var s, r := At(Initial(backoff, enabled), es, n), At(Initial(backoff, enabled), es, n + 1);
            r.link.status == Connecting && r.link.transport == Some(s.link.nextTransport)
  {
    var s0 := Initial(backoff, enabled);
    PromiseOkAt(backoff, enabled, es, k);
    LossLeavesWaiting(At(s0, es, k), es[k], At(s0, es, k + 1));
    RetryStaysArmed(backoff, enabled, es, k + 1, n);
    PromiseOkAt(backoff, enabled, es, n);
    FiredRetryConnects(At(s0, es, n), Opens);
  }

  lemma LossLeavesWaiting(s: State, e: Event, r: State)
    requires ConnectionOk(s) && PromiseOk(s) && s.link.status in {Connecting, Connected} && LostBy(s, e)
    requires s.retry.enabled && !s.retry.authFailed && !(e.OnClose? && e.authFailure) && r == Step(s, e)
    ensures Waiting(r)
  {
    StepMoves(s, e);
  }
}
