/**
  The promise returned by `connect()`, and the deadline of a connection attempt.
*/
module ConnectPromise {
  import opened Options
  import opened Connection
  import opened ConnectionInvariant

  // Outside `disposed` every promise ever returned is settled exactly when it is
  // not the one whose hooks are held, and a stored promise without hooks is stale:
  // it has already been rejected.
  ghost predicate PromiseOk(s: State) {
    var c := s.connects;
    && (forall p :: p in c.settled ==> p < c.next)
    && (c.hooks.Some? ==> c.promise == c.hooks && c.hooks.value < c.next && c.hooks.value !in c.settled)
    && (c.promise.Some? ==> c.promise.value < c.next)
    && (Stale(s) ==> c.promise.value in c.settled && !c.settled[c.promise.value])
    && (s.link.status != Disposed ==> forall p: nat | p < c.next :: p in c.settled <==> c.hooks != Some(p))
    && (s.link.status == Connected || s.link.status == Disposed ==> c.promise.None?)
  }

  // `connectPromise` holds a promise that `rejectConnect` has already rejected.
  predicate Stale(s: State) {
    s.connects.promise.Some? && s.connects.hooks.None?
  }

  // How one event may touch the promises: not at all, by settling the current
  // one, or by dropping it unsettled, which only `close` does.
  ghost predicate OneOf(a: Connects, b: Connects) {
    b == a || b == SettleConnect(a, false) || b == SettleConnect(a, true)
  }

  lemma ScheduleReconnectPromise(s: State, event: Cause)
    ensures var r := ScheduleReconnect(s, event);
            (r.connects == s.connects || r.connects == SettleConnect(s.connects, false))
            && r.link.status == (if s.link.status == Disposed then Disposed else Disconnected)
  {
  }

  lemma AttemptPromise(s: State, a: Attempt)
    requires s.retry.wanted && s.link.status != Disposed
    ensures var r := AttemptConnect(s, a);
            if s.link.status == Connecting then r == s
            else if a == Opens then r.connects == s.connects && r.link.status == Connecting
            else r.connects == SettleConnect(s.connects, false) && r.link.status == Disconnected
  {
  }

  // A new connect() call: the promise is stored with its hooks if the attempt is
  // under way when the executor returns, and stored already rejected if not.
  ghost predicate Started(a: Connects, b: Connects, underWay: bool) {
    && b.promise == Some(a.next) && b.next == a.next + 1
    && (if underWay then b.hooks == Some(a.next) && b.settled == a.settled
        else b.hooks.None? && b.settled == (if a.next in a.settled then a.settled else a.settled[a.next := false]))
  }

  lemma DoConnectPromise(s: State, a: Attempt)
    requires s.link.status != Disposed && s.link.status != Connected && s.connects.promise.None?
    ensures var r := DoConnect(s, a);
            && Started(s.connects, r.connects, s.link.status == Connecting || a == Opens)
            && r.link.status == (if s.link.status == Connecting || a == Opens then Connecting else Disconnected)
  {
    AttemptPromise(NewConnectPromise(s), a);
  }

  lemma EnsurePromise(s: State, v: bool, a: Attempt)
    requires s.link.status != Disposed
    ensures var r := DoEnsureConnected(s, v, a);
            if s.link.status == Connected || s.link.status == Connecting then
              r.connects == s.connects && r.link == s.link
            else if s.connects.promise.Some? then
              && r.connects == (if a == Opens then s.connects else SettleConnect(s.connects, false))
              && r.link.status in {Connecting, Disconnected}
            else Started(s.connects, r.connects, a == Opens) && r.link.status in {Connecting, Disconnected}
  {
    var s1 := s.(retry := s.retry.(wanted := true));
    if s.link.status != Connected && s.link.status != Connecting {
      if s.connects.promise.Some? { AttemptPromise(s1, a); } else { DoConnectPromise(s1, a); }
    }
  }

  lemma FailurePromise(s: State, drives: bool, heartbeat: bool, ok: bool)
    ensures OneOf(s.connects, RecordLivenessFailure(s).connects)
    ensures OneOf(s.connects, Ping(s, drives, heartbeat, ok).connects)
    ensures OneOf(s.connects, ProbeTimeout(s).connects)
    ensures s.link.status != Disposed ==> RecordLivenessFailure(s).link.status in {s.link.status, Disconnected}
  {
  }

  // The event starts a new promise and its attempt fails before `connect` returns.
  predicate FailsSynchronously(s: State, e: Event) {
    var idle := s.link.status == Idle || s.link.status == Disconnected;
    match e
    case Connect(a) => idle && s.connects.promise.None? && a != Opens
    case EnsureConnected(_, a) => idle && s.connects.promise.None? && a != Opens
    case VerificationFails(t, a) =>
      t in s.live.verifying && s.link.transport == Some(t) && s.link.status == Connected && a != Opens
    case _ => false
  }

  predicate StartsPromise(s: State, e: Event) {
    var unstarted := s.link.status != Disposed && s.link.status != Connected && s.connects.promise.None?;
    match e
    case Connect(_) => unstarted
    case EnsureConnected(_, _) => unstarted && s.link.status != Connecting
    case VerificationFails(t, _) => t in s.live.verifying && s.link.transport == Some(t) && s.link.status == Connected
    case _ => false
  }

  // What a whole event does to the promises and, where it matters, to the status.
  ghost predicate Effect(s: State, e: Event, r: State) {
    && (if StartsPromise(s, e) then Started(s.connects, r.connects, !FailsSynchronously(s, e))
        else if e.Close? && s.link.status != Disposed then
          r.connects == s.connects.(promise := None, hooks := None) && r.link.status == Disposed
        else OneOf(s.connects, r.connects))
    && (s.link.status == Disposed ==> r.link.status == Disposed)
    && (r.link.status == Disposed ==> s.link.status == Disposed || e.Close?)
    && (r.link.status == Connected && s.link.status != Connected ==> r.connects == SettleConnect(s.connects, true))
    && (r.link.status == Connected ==> !StartsPromise(s, e))
  }

  lemma ConnectEffect(s: State, a: Attempt)
    requires ConnectionOk(s) && PromiseOk(s)
    ensures Effect(s, Connect(a), DoConnect(s, a))
  {
  }

  lemma EnsureEffect(s: State, v: bool, a: Attempt)
    requires ConnectionOk(s) && PromiseOk(s)
    ensures Effect(s, EnsureConnected(v, a), DoEnsureConnected(s, v, a))
  {
    if s.link.status != Disposed { EnsurePromise(s, v, a); }
  }

  lemma CloseEffect(s: State)
    requires ConnectionOk(s) && PromiseOk(s)
    ensures Effect(s, Close, DoClose(s))
  {
  }

  lemma ReconnectEffect(s: State, a: Attempt)
    requires ConnectionOk(s) && PromiseOk(s)
    ensures Effect(s, ReconnectFires(a), OnTimer(s, ReconnectFires(a)))
  {
  }

  lemma TimerEffect(s: State, e: Event)
    requires ConnectionOk(s) && PromiseOk(s) && FromTimer(e)
    ensures Effect(s, e, OnTimer(s, e))
  {
    match e {
      case ReconnectFires(a) => ReconnectEffect(s, a);
      case ConnectTimeoutFires => ScheduleReconnectPromise(DisposeTransport(s), ConnectTimedOut);
      case ErrorTimerFires => ScheduleReconnectPromise(s.(deadlines := s.deadlines.(error := false)), TransportFailed);
      case HeartbeatFires(ok) => FailurePromise(s.(live := s.live.(heartbeat := false)), true, true, ok);
      case ProbeTimesOut => FailurePromise(s, true, true, true);
      case _ =>
    }
  }

  lemma TransportEffect(s: State, e: Event)
    requires ConnectionOk(s) && PromiseOk(s) && FromTransport(e) && s.link.transport == Some(e.tid)
    ensures Effect(s, e, OnTransport(s, e))
  {
  }

  lemma SettledEffect(s: State, e: Event)
    requires ConnectionOk(s) && PromiseOk(s) && (e.VerificationFails? || e.ReleaseFails?)
    ensures Effect(s, e, OnSettled(s, e))
  {
    match e {
      case VerificationFails(t, a) =>
        if t in s.live.verifying && s.link.transport == Some(t) && s.link.status == Connected {
          var d := ScheduleReconnect(DisposeTransport(s), VerificationFailed);
          ScheduleReconnectPromise(DisposeTransport(s), VerificationFailed);
          EnsurePromise(d, false, a);
        }
      case ReleaseFails => ScheduleReconnectPromise(DisposeTransport(s), TransportClosed);
    }
  }

  lemma StepEffect(s: State, e: Event)
    requires ConnectionOk(s) && PromiseOk(s)
    ensures Effect(s, e, Step(s, e))
  {
    if FromTransport(e) {
      if s.link.transport == Some(e.tid) { TransportEffect(s, e); }
    } else if FromTimer(e) {
      TimerEffect(s, e);
    } else {
      match e {
        case Connect(a) => ConnectEffect(s, a);
        case EnsureConnected(v, a) => EnsureEffect(s, v, a);
        case Close => CloseEffect(s);
        case MeasureLatency(ok) => FailurePromise(s, false, false, ok);
        case VerificationFails(t, a) => SettledEffect(s, e);
        case ReleaseFails => SettledEffect(s, e);
        case _ =>
      }
    }
  }

  lemma EffectKeepsPromiseOk(s: State, e: Event, r: State)
    requires PromiseOk(s) && Effect(s, e, r)
    ensures PromiseOk(r)
    ensures forall p :: p in s.connects.settled ==>
            p in r.connects.settled && r.connects.settled[p] == s.connects.settled[p]
  {
  }

  // Over every run: each connect() promise settles at most once, and none is left
  // pending while connected.
  lemma {:induction false} PromisesOverRuns(backoff: Backoff, enabled: bool, es: seq<Event>, k: nat)
    requires k <= |es|
    ensures var s := At(Initial(backoff, enabled), es, k);
            PromiseOk(s) && forall p | p in s.connects.settled :: forall n | k <= n <= |es| ::
              p in At(Initial(backoff, enabled), es, n).connects.settled
              && At(Initial(backoff, enabled), es, n).connects.settled[p] == s.connects.settled[p]
  {
    var s0 := Initial(backoff, enabled);
    PromiseOkAt(backoff, enabled, es, k);
    var s := At(s0, es, k);
    forall p, n | p in s.connects.settled && k <= n <= |es|
      ensures p in At(s0, es, n).connects.settled && At(s0, es, n).connects.settled[p] == s.connects.settled[p]
    {
      SettledStays(backoff, enabled, es, k, n, p);
    }
  }

  lemma InitialPromiseOk(backoff: Backoff, enabled: bool)
    ensures PromiseOk(Initial(backoff, enabled))
  {
  }

  lemma StepKeepsPromiseOk(s: State, e: Event, r: State)
    requires ConnectionOk(s) && PromiseOk(s) && r == Step(s, e)
    ensures PromiseOk(r)
    ensures forall p :: p in s.connects.settled ==>
            p in r.connects.settled && r.connects.settled[p] == s.connects.settled[p]
  {
    StepEffect(s, e);
    EffectKeepsPromiseOk(s, e, r);
  }

  lemma {:induction false} PromiseOkAt(backoff: Backoff, enabled: bool, es: seq<Event>, k: nat)
    requires k <= |es|
    ensures ConnectionOk(At(Initial(backoff, enabled), es, k)) && PromiseOk(At(Initial(backoff, enabled), es, k))
  {
    var s0 := Initial(backoff, enabled);
    RunKeepsConnectionOk(backoff, enabled, es, k);
    if k == 0 {
      InitialPromiseOk(backoff, enabled);
    } else {
      PromiseOkAt(backoff, enabled, es, k - 1);
      StepKeepsPromiseOk(At(s0, es, k - 1), es[k - 1], At(s0, es, k));
    }
  }

  lemma {:induction false} SettledStays(backoff: Backoff, enabled: bool, es: seq<Event>, k: nat, n: nat, p: nat)
    requires k <= n <= |es| && p in At(Initial(backoff, enabled), es, k).connects.settled
    ensures p in At(Initial(backoff, enabled), es, n).connects.settled
    ensures At(Initial(backoff, enabled), es, n).connects.settled[p] ==
            At(Initial(backoff, enabled), es, k).connects.settled[p]
    decreases n - k
  {
    if k < n {
      SettledStays(backoff, enabled, es, k, n - 1, p);
      var s := At(Initial(backoff, enabled), es, n - 1);
      PromiseOkAt(backoff, enabled, es, n - 1);
      StepKeepsPromiseOk(s, es[n - 1], Step(s, es[n - 1]));
    }
  }

  // ------------------------------------------------------ the stale promise

  // `connect()` is meant to return a promise for the attempt under way. It returns
  // an already rejected one exactly after an attempt that failed synchronously.
  lemma StaleExactly(s: State, e: Event)
    requires ConnectionOk(s) && PromiseOk(s) && !Stale(s)
    ensures Stale(Step(s, e)) <==> FailsSynchronously(s, e)
  {
    StepEffect(s, e);
  }

  // While it is stored `connect()` only hands it out again: it makes no attempt.
  lemma StaleConnectIsInert(s: State, a: Attempt)
    requires Stale(s)
    ensures Step(s, Connect(a)) == s
  {
  }

  // The event reports a lost connection, outside an attempt.
  predicate LosesConnection(s: State, e: Event) {
    match e
    case OnOpen(t, helloOk) => s.link.transport == Some(t) && !helloOk
    case OnClose(t, _) => s.link.transport == Some(t)
    case OnError(t, generic) => s.link.transport == Some(t) && !generic
    case ConnectTimeoutFires => s.deadlines.connect && s.link.status == Connecting
    case ErrorTimerFires => s.deadlines.error && s.link.status == Connecting
    case ReleaseFails => true
    case _ => false
  }

  // What takes the stale promise away: the handshake, `close`, a failing attempt that
  // someone else makes, and a lost connection that is not retried.
  predicate EndsStale(s: State, e: Event) {
    match e
    case Close => true
    case OnServerInfo(t, _, _) => s.link.transport == Some(t) && s.link.status == Connecting
    case ReconnectFires(a) => s.retry.timer.Some? && a != Opens
    case EnsureConnected(_, a) => s.link.status != Connecting && a != Opens
    case _ =>
      LosesConnection(s, e) && (!s.retry.enabled || s.retry.authFailed || (e.OnClose? && e.authFailure))
  }

  lemma LossEndsStale(s: State, event: Cause)
    requires Stale(s) && s.link.status != Disposed && s.retry.wanted
    ensures Stale(ScheduleReconnect(s, event)) <==> s.retry.enabled && !s.retry.authFailed
  {
  }

  lemma CallbackEndsStale(s: State, e: Event)
    requires ConnectionOk(s) && Stale(s) && s.link.transport.Some? && (e.OnOpen? || e.OnClose? || e.OnError?)
    requires s.link.transport == Some(e.tid)
    ensures Stale(OnTransport(s, e)) <==> !EndsStale(s, e)
  {
    match e {
      case OnOpen(t, ok) => LossEndsStale(s.(deadlines := s.deadlines.(error := false)), HelloSendFailed);
      case OnClose(t, auth) =>
        var s1 := s.(deadlines := Deadlines(false, false), retry := s.retry.(authFailed := s.retry.authFailed || auth));
        LossEndsStale(s1, TransportClosed);
      case OnError(t, generic) => LossEndsStale(s.(deadlines := Deadlines(false, false)), TransportFailed);
    }
  }

  lemma FrameEndsStale(s: State, e: Event)
    requires Stale(s) && FromTransport(e) && s.link.transport == Some(e.tid) && !(e.OnOpen? || e.OnClose? || e.OnError?)
    ensures Stale(OnTransport(s, e)) <==> !EndsStale(s, e)
  {
  }

  lemma TimerEndsStale(s: State, e: Event)
    requires ConnectionOk(s) && PromiseOk(s) && Stale(s) && FromTimer(e)
    ensures Stale(OnTimer(s, e)) <==> !EndsStale(s, e)
  {
    match e {
      case ReconnectFires(a) =>
        if s.retry.timer.Some? { AttemptPromise(s.(retry := s.retry.(timer := None)), a); }
      case ConnectTimeoutFires => LossEndsStale(DisposeTransport(s), ConnectTimedOut);
      case ErrorTimerFires => LossEndsStale(s.(deadlines := s.deadlines.(error := false)), TransportFailed);
      case _ =>
    }
  }

  lemma CallEndsStale(s: State, e: Event)
    requires ConnectionOk(s) && PromiseOk(s) && Stale(s) && !FromTransport(e) && !FromTimer(e)
    ensures Stale(Step(s, e)) <==> !EndsStale(s, e)
  {
    match e {
      case EnsureConnected(v, a) => EnsurePromise(s, v, a);
      case ReleaseFails => LossEndsStale(DisposeTransport(s), TransportClosed);
      case _ =>
    }
  }

  // The stale promise stays stored through every other event, `connect()` included.
  lemma StaleEndsExactly(s: State, e: Event)
    requires ConnectionOk(s) && PromiseOk(s) && Stale(s)
    ensures Stale(Step(s, e)) <==> !EndsStale(s, e)
  {
    if FromTransport(e) {
      if s.link.transport == Some(e.tid) {
        if e.OnOpen? || e.OnClose? || e.OnError? { CallbackEndsStale(s, e); } else { FrameEndsStale(s, e); }
      }
    } else if FromTimer(e) {
      TimerEndsStale(s, e);
    } else {
      CallEndsStale(s, e);
    }
  }

  lemma StalePromiseExists(backoff: Backoff)
    ensures Stale(At(Initial(backoff, false), [Connect(FactoryThrows)], 1))
  {
  }

  // ------------------------------------------------------------- disposal

  // `disposed` absorbs every event: nothing is reported, armed, connected or
  // settled any more, so a promise pending when `close` ran stays pending for ever.
  lemma DisposedAbsorbs(s: State, e: Event)
    requires ConnectionOk(s) && PromiseOk(s) && s.link.status == Disposed
    ensures var r := Step(s, e);
            && r.link.log == s.link.log && r.link.status == Disposed && r.link.transport.None?
            && r.connects == s.connects
            && r.retry.timer.None? && r.deadlines == Deadlines(false, false) && !r.live.heartbeat && r.live.probe.None?
  {
  }

  lemma {:induction false} DisposedForEver(backoff: Backoff, enabled: bool, es: seq<Event>, k: nat, n: nat)
    requires k <= n <= |es| && At(Initial(backoff, enabled), es, k).link.status == Disposed
    ensures var s, r := At(Initial(backoff, enabled), es, k), At(Initial(backoff, enabled), es, n);
            r.link.status == Disposed && r.link.log == s.link.log && r.connects == s.connects
    decreases n - k
  {
    if k < n {
      DisposedForEver(backoff, enabled, es, k, n - 1);
      PromiseOkAt(backoff, enabled, es, n - 1);
      DisposedAbsorbs(At(Initial(backoff, enabled), es, n - 1), es[n - 1]);
    }
  }

  // `close` leaves a connect() promise unsettled exactly when one is pending.
  lemma CloseDropsPendingConnect(s: State)
    requires ConnectionOk(s) && PromiseOk(s) && s.link.status != Disposed
    ensures (forall p: nat | p < s.connects.next :: p in Step(s, Close).connects.settled) <==> s.connects.hooks.None?
    ensures s.connects.hooks.Some? ==> s.connects.hooks.value !in Step(s, Close).connects.settled
    ensures Step(s, Close).link.status == Disposed
  {
    var r := Step(s, Close).connects;
    assert r.settled == s.connects.settled;
    if s.connects.hooks.Some? { assert s.connects.hooks.value !in r.settled; }
  }

  // The promise of a connect() that is closed before its handshake is pending for ever.
  lemma ClosedConnectHangs(backoff: Backoff, enabled: bool, es: seq<Event>, n: nat)
    requires 2 <= n <= |es| && es[0] == Connect(Opens) && es[1] == Close
    ensures 0 < At(Initial(backoff, enabled), es, n).connects.next
    ensures 0 !in At(Initial(backoff, enabled), es, n).connects.settled
  {
    var s0 := Initial(backoff, enabled);
    DoConnectPromise(s0, Opens);
    var s1 := Step(s0, Connect(Opens));
    assert s1.link.status == Connecting && s1.connects == Connects(Some(0), Some(0), map[], 1);
    var s2 := Step(s1, Close);
    assert s2.link.status == Disposed && s2.connects == Connects(None, None, map[], 1);
    assert At(s0, es, 1) == Step(At(s0, es, 0), es[0]) == s1;
    assert At(s0, es, 2) == Step(At(s0, es, 1), es[1]) == s2;
    DisposedForEver(backoff, enabled, es, 2, n);
  }
}
