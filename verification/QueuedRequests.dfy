/**
  The sends that wait for the handshake, each with the waiter of its request: what
  becomes of one when the other is settled.
*/
module QueuedRequests {
  import opened Options
  import opened Connection
  import opened ConnectionInvariant
  import opened SessionTables
  import W = Waiters
  import Q = SendQueue

  predicate Handshake(s: State, e: Event) {
    e.OnServerInfo? && s.link.transport == Some(e.tid) && s.link.status == Connecting
  }

  predicate Settled(s: State, k: nat) { k in s.waiters.outcomes }

  predicate SentIn(s: State, q: Q.Send) { q.id in s.sends.fates && s.sends.fates[q.id] == Q.Sent }

  predicate RejectedIn(s: State, q: Q.Send) { q.id in s.sends.fates && s.sends.fates[q.id] == Q.Failed }

  // ----------------------------------------------- how an event moves the tables

  ghost predicate Unmoved(s: State, r: State) { r.sends == s.sends && r.waiters == s.waiters }

  ghost predicate Dropped(s: State, r: State) { r.sends == Q.RejectAll(s.sends) && r.waiters.pending == [] }

  // The events that look at one request, or deliver a message to all of them.
  predicate Particular(e: Event) {
    e.Rpc? || e.CancelRpc? || e.WaiterTimesOut? || e.SendTimesOut? || e.OnServerInfo? || e.OnSession? || e.OnInvalid?
  }

  lemma CallMovesTables(s: State, e: Event)
    requires !FromTransport(e) && !FromTimer(e) && !Continues(e) && !Particular(e)
    ensures Unmoved(s, OnCall(s, e)) || Dropped(s, OnCall(s, e))
  {
    match e {
      case Connect(a) => EnsureKeepsOrDrops(s, false, a);
      case EnsureConnected(v, a) => EnsureKeepsOrDrops(s, v, a);
      case MeasureLatency(ok) => ProbeKeepsOrDrops(s, false, false, ok);
      case _ =>
    }
  }

  lemma EnsureAfterDrop(s: State, m: State, a: Attempt)
    requires Drops(s, m) && m.sends.queue == []
    ensures Dropped(s, DoEnsureConnected(m, false, a))
  {
    EnsureKeepsOrDrops(m, false, a);
    assert Q.RejectAll(m.sends) == m.sends;
  }

  lemma VerificationMovesTables(s: State, t: Tid, a: Attempt)
    requires TablesOk(s) && s.link.transport == Some(t) && s.link.status == Connected
    ensures Dropped(s, DoVerificationFails(s, t, a))
  {
    var m := ScheduleReconnect(DisposeTransport(s), VerificationFailed);
    ScheduleReconnectDrops(DisposeTransport(s), VerificationFailed);
    Q.FlushKeepsValid(s.sends, false, {});
    EnsureAfterDrop(s, m, a);
  }

  lemma SettledMovesTables(s: State, e: Event)
    requires TablesOk(s) && Continues(e)
    ensures Unmoved(s, OnSettled(s, e)) || Dropped(s, OnSettled(s, e))
  {
    match e {
      case VerificationSucceeds(t) =>
      case VerificationFails(t, a) =>
        if s.link.transport == Some(t) && s.link.status == Connected { VerificationMovesTables(s, t, a); }
      case ReleaseFails => ScheduleReconnectDrops(DisposeTransport(s), TransportClosed);
    }
  }

  // Every other event leaves both tables alone, or empties both.
  lemma EventMovesTables(s: State, e: Event)
    requires TablesOk(s) && !Particular(e)
    ensures Unmoved(s, Step(s, e)) || Dropped(s, Step(s, e))
  {
    if FromTransport(e) {
      if s.link.transport == Some(e.tid) { TransportKeepsOrDrops(s, e); }
    } else if FromTimer(e) {
      TimerKeepsOrDrops(s, e);
    } else if Continues(e) {
      SettledMovesTables(s, e);
    } else {
      CallMovesTables(s, e);
    }
  }

  // Only a request, a send's own timeout and the handshake treat sends one by one.
  lemma EventMovesQueue(s: State, e: Event)
    requires TablesOk(s) && !e.Rpc? && !e.SendTimesOut? && !Handshake(s, e)
    ensures Step(s, e).sends == s.sends || Dropped(s, Step(s, e))
  {
    if !Particular(e) { EventMovesTables(s, e); }
  }

  // ------------------------------------------------------------ one queued send

  // The waiter of a queued send exists, and it is the waiter of no other.
  ghost predicate WaitersExist(s: State) {
    && (forall q | q in s.sends.queue && q.waiter.Some? :: q.waiter.value < s.waiters.next)
    && (forall p, q | p in s.sends.queue && q in s.sends.queue && p.waiter.Some? :: p.waiter == q.waiter ==> p == q)
  }

  // What may have become of a send that was queued: it still is, it went out, or it
  // was rejected and its waiter is settled too.
  ghost predicate Fared(r: State, q: Q.Send) {
    || (q in r.sends.queue && q.id !in r.sends.fates)
    || SentIn(r, q)
    || (RejectedIn(r, q) && (q.waiter.Some? ==> Settled(r, q.waiter.value)))
  }

  lemma QueuedHasNoFate(l: Q.Ledger, q: Q.Send)
    requires Q.Valid(l) && q in l.queue
    ensures q.id < l.next && q.id !in l.fates
  {
    var i :| 0 <= i < |l.queue| && l.queue[i] == q;
    assert Q.Queued(l.queue, q.id);
  }

  lemma {:induction false} CancelAllSettles(t: W.Table, keys: seq<nat>, k: nat)
    requires k in keys || k in t.outcomes
    requires k < t.next
    ensures k in CancelAll(t, keys).outcomes
    decreases keys
  {
    if keys != [] {
      assert keys == [keys[0]] + keys[1..];
      CancelAllSettles(W.Cancel(t, keys[0]), keys[1..], k);
    }
  }

  lemma {:induction false} FailedWaiterIsListed(queue: seq<Q.Send>, open: bool, throws: set<nat>, q: Q.Send)
    requires q in queue && q.waiter.Some? && !(open && q.id !in throws)
    ensures q.waiter.value in Q.FailedWaiters(queue, open, throws)
  {
    if queue[0] != q {
      assert queue == [queue[0]] + queue[1..];
      FailedWaiterIsListed(queue[1..], open, throws, q);
    }
  }

  lemma ResolveKeepsNext(t: W.Table, msg: W.Message)
    ensures W.Resolve(t, msg).next == t.next
  {
    ResolveFromKeepsNext(t.pending, t, msg);
  }

  lemma {:induction false} ResolveFromKeepsNext(snapshot: seq<W.Waiter>, t: W.Table, msg: W.Message)
    ensures W.ResolveFrom(snapshot, t, msg).next == t.next
  {
    if snapshot != [] { ResolveFromKeepsNext(snapshot[1..], W.ResolveOne(t, snapshot[0], msg), msg); }
  }

  lemma FailedWaiterSettles(s: State, msg: W.Message, throws: set<nat>, q: Q.Send)
    requires q in s.sends.queue && q.id in throws && q.waiter.Some? && q.waiter.value < s.waiters.next
    ensures var failed := Q.FailedWaiters(s.sends.queue, true, throws);
            q.waiter.value in CancelAll(W.Resolve(s.waiters, msg), failed).outcomes
  {
    FailedWaiterIsListed(s.sends.queue, true, throws, q);
    ResolveKeepsNext(s.waiters, msg);
    CancelAllSettles(W.Resolve(s.waiters, msg), Q.FailedWaiters(s.sends.queue, true, throws), q.waiter.value);
  }

  // The handshake sends every queued send that does not throw, and settles the waiters
  // of the others.
  lemma HandshakeFares(s: State, e: Event, q: Q.Send)
    requires TablesOk(s) && WaitersExist(s) && Handshake(s, e) && q in s.sends.queue
    ensures Fared(Step(s, e), q) && (SentIn(Step(s, e), q) <==> q.id !in e.throws)
  {
    var i :| 0 <= i < |s.sends.queue| && s.sends.queue[i] == q;
    Q.FlushIsExact(s.sends, true, e.throws);
    if q.id in e.throws && q.waiter.Some? { FailedWaiterSettles(s, e.msg, e.throws, q); }
  }

  lemma TimeOutFares(s: State, id: nat, q: Q.Send)
    requires TablesOk(s) && WaitersExist(s) && q in s.sends.queue
    ensures Fared(DoSendTimeout(s, id), q) && !SentIn(DoSendTimeout(s, id), q)
  {
    var i :| 0 <= i < |s.sends.queue| && s.sends.queue[i] == q;
    Q.TimeOutIsExact(s.sends, id);
    QueuedHasNoFate(s.sends, q);
    var found := Q.IndexOf(s.sends.queue, id);
    if q.id == id {
      assert Q.Queued(s.sends.queue, id);
      assert found.value == i;
      if q.waiter.Some? { CancelAllSettles(s.waiters, WaitersOfSend(s.sends.queue, id), q.waiter.value); }
    } else if found.Some? {
      var left := Q.TimeOut(s.sends, id).queue;
      assert left[if i < found.value then i else i - 1] == q;
    }
  }

  lemma DroppedFares(s: State, r: State, q: Q.Send)
    requires TablesOk(s) && Progress(s, r) && WaitersExist(s) && q in s.sends.queue
    requires r.sends == s.sends || Dropped(s, r)
    ensures Fared(r, q) && !SentIn(r, q)
  {
    var i :| 0 <= i < |s.sends.queue| && s.sends.queue[i] == q;
    QueuedHasNoFate(s.sends, q);
    if r.sends != s.sends {
      Q.FlushIsExact(s.sends, false, {});
      if q.waiter.Some? { assert !W.HasKey(r.waiters.pending, q.waiter.value); }
    }
  }

  // Every event either leaves a queued send alone, sends it, or settles its waiter with
  // it; and it sends it exactly when it is the handshake and the transport takes it.
  lemma QueuedSendFares(s: State, e: Event, q: Q.Send)
    requires TablesOk(s) && WaitersExist(s) && q in s.sends.queue
    ensures Fared(Step(s, e), q)
    ensures SentIn(Step(s, e), q) <==> Handshake(s, e) && q.id !in e.throws
  {
    if Handshake(s, e) {
      HandshakeFares(s, e, q);
    } else if e.SendTimesOut? {
      TimeOutFares(s, e.id, q);
    } else if e.Rpc? {
      QueuedHasNoFate(s.sends, q);
    } else {
      EventMovesQueue(s, e);
      StepProgress(s, e);
      DroppedFares(s, Step(s, e), q);
    }
  }

  lemma QueueShrinks(s: State, e: Event, q: Q.Send)
    requires TablesOk(s) && q in Step(s, e).sends.queue
    ensures q in s.sends.queue || (e.Rpc? && q.waiter == Some(s.waiters.next))
  {
    if Handshake(s, e) {
      Q.FlushKeepsValid(s.sends, true, e.throws);
    } else if !e.Rpc? && !e.SendTimesOut? {
      EventMovesQueue(s, e);
      Q.FlushKeepsValid(s.sends, false, {});
    }
  }

  lemma StepKeepsWaitersExist(s: State, e: Event, r: State)
    requires TablesOk(s) && WaitersExist(s) && r == Step(s, e)
    ensures WaitersExist(r)
  {
    StepProgress(s, e);
    forall q | q in r.sends.queue ensures q in s.sends.queue || (e.Rpc? && q.waiter == Some(s.waiters.next)) {
      QueueShrinks(s, e, q);
    }
    if e.Rpc? { OnePushed(s.sends.queue, s.sends.next, s.waiters.next, r.sends.queue); }
  }

  lemma OnePushed(queue: seq<Q.Send>, id: nat, key: nat, after: seq<Q.Send>)
    requires after == queue || after == queue + [Q.Send(id, Some(key))]
    ensures forall q | q in after && q !in queue :: q == Q.Send(id, Some(key))
  {
  }

  // ------------------------------------------------------------- giving up

  // The event settles waiter `k` while the send of its request may stay queued.
  predicate GivesUp(s: State, e: Event, k: nat) {
    match e
    case WaiterTimesOut(j) => j == k && W.TimerArmed(s.waiters, k)
    case CancelRpc(j) => j == k
    case OnSession(t, msg) => s.link.transport == Some(t) && k in W.Resolve(s.waiters, msg).outcomes
    case OnInvalid(t, id) =>
      var ws := s.waiters.pending;
      s.link.transport == Some(t) && id.Some? && exists i | 0 <= i < |ws| :: ws[i].key == k && ws[i].requestId == id
    case _ => false
  }

  lemma {:induction false} CancelAllSettlesOnly(t: W.Table, keys: seq<nat>, k: nat)
    requires k !in keys && k !in t.outcomes
    ensures k !in CancelAll(t, keys).outcomes
    decreases keys
  {
    if keys != [] {
      assert keys == [keys[0]] + keys[1..];
      CancelAllSettlesOnly(W.Cancel(t, keys[0]), keys[1..], k);
    }
  }

  lemma OtherTimeOut(s: State, id: nat, q: Q.Send, k: nat)
    requires TablesOk(s) && WaitersExist(s) && q in s.sends.queue && q.waiter == Some(k) && !Settled(s, k)
    requires q in DoSendTimeout(s, id).sends.queue
    ensures !Settled(DoSendTimeout(s, id), k)
  {
    var found := Q.IndexOf(s.sends.queue, id);
    if found.Some? {
      Q.TimeOutIsExact(s.sends, id);
      Q.TimeOutKeepsValid(s.sends, id);
      QueuedHasNoFate(Q.TimeOut(s.sends, id), q);
      assert Q.Queued(s.sends.queue, id);
      assert s.sends.queue[found.value] in s.sends.queue;
    }
    CancelAllSettlesOnly(s.waiters, WaitersOfSend(s.sends.queue, id), k);
  }

  // While its send stays queued, a waiter is settled by exactly these events.
  lemma GivesUpExactly(s: State, e: Event, q: Q.Send, k: nat)
    requires TablesOk(s) && WaitersExist(s) && q in s.sends.queue && q.waiter == Some(k) && !Settled(s, k)
    requires q in Step(s, e).sends.queue
    ensures Settled(Step(s, e), k) <==> GivesUp(s, e, k)
  {
    if !Particular(e) {
      EventMovesTables(s, e);
      Q.FlushKeepsValid(s.sends, false, {});
    } else if e.SendTimesOut? {
      OtherTimeOut(s, e.id, q, k);
    } else if e.OnInvalid? {
      if e.requestId.Some? { W.MalformedReplyIsExact(s.waiters, e.requestId.value, k); }
    } else if e.OnServerInfo? {
      if Handshake(s, e) { Q.FlushKeepsValid(s.sends, true, e.throws); }
    }
  }

  // ------------------------------------------------------------- whole runs

  lemma InitialWaitersExist(backoff: Backoff, enabled: bool)
    ensures WaitersExist(Initial(backoff, enabled))
  {
  }

  lemma {:induction false} WaitersExistAt(backoff: Backoff, enabled: bool, es: seq<Event>, n: nat)
    requires n <= |es|
    ensures TablesOk(At(Initial(backoff, enabled), es, n)) && WaitersExist(At(Initial(backoff, enabled), es, n))
  {
    var s0 := Initial(backoff, enabled);
    TablesOverRuns(backoff, enabled, es, n);
    if n == 0 {
      InitialWaitersExist(backoff, enabled);
    } else {
      WaitersExistAt(backoff, enabled, es, n - 1);
      StepKeepsWaitersExist(At(s0, es, n - 1), es[n - 1], At(s0, es, n));
    }
  }

  lemma FaredStep(s: State, e: Event, q: Q.Send)
    requires TablesOk(s) && WaitersExist(s) && Fared(s, q)
    ensures Fared(Step(s, e), q)
  {
    if q.id in s.sends.fates { StepProgress(s, e); } else { QueuedSendFares(s, e, q); }
  }

  // Over every run no rejected send leaves its caller waiting.
  lemma {:induction false} QueuedSendOverRuns(backoff: Backoff, enabled: bool, es: seq<Event>, k: nat, n: nat,
                                              q: Q.Send)
    requires k <= n <= |es| && q in At(Initial(backoff, enabled), es, k).sends.queue
    ensures Fared(At(Initial(backoff, enabled), es, n), q)
    decreases n - k
  {
    var s0 := Initial(backoff, enabled);
    if k == n {
      TablesOverRuns(backoff, enabled, es, n);
      QueuedHasNoFate(At(s0, es, n).sends, q);
    } else {
      QueuedSendOverRuns(backoff, enabled, es, k, n - 1, q);
      WaitersExistAt(backoff, enabled, es, n - 1);
      FaredStep(At(s0, es, n - 1), es[n - 1], q);
    }
  }

  lemma QueuedBefore(s: State, r: State, q: Q.Send)
    requires Monotone(s, r) && TablesOk(r) && Fared(s, q) && q in r.sends.queue
    ensures q in s.sends.queue
  {
    QueuedHasNoFate(r.sends, q);
  }

  lemma QueuedBetween(backoff: Backoff, enabled: bool, es: seq<Event>, k: nat, n: nat, q: Q.Send)
    requires k <= n <= |es| && q in At(Initial(backoff, enabled), es, k).sends.queue
    requires n < |es| && q in At(Initial(backoff, enabled), es, n + 1).sends.queue
    ensures q in At(Initial(backoff, enabled), es, n).sends.queue
  {
    var s0 := Initial(backoff, enabled);
    QueuedSendOverRuns(backoff, enabled, es, k, n, q);
    WaitersExistAt(backoff, enabled, es, n + 1);
    SettledOnceOverRuns(backoff, enabled, es, n, n + 1);
    QueuedBefore(At(s0, es, n), At(s0, es, n + 1), q);
  }

  lemma GivenUpStep(s: State, e: Event, r: State, q: Q.Send, k: nat)
    requires TablesOk(s) && WaitersExist(s) && q in s.sends.queue && q.waiter == Some(k)
    requires r == Step(s, e) && q in r.sends.queue
    ensures Settled(r, k) <==> Settled(s, k) || GivesUp(s, e, k)
  {
    if Settled(s, k) { StepProgress(s, e); } else { GivesUpExactly(s, e, q, k); }
  }

  ghost predicate GivesUpAt(s0: State, es: seq<Event>, m: nat, k: nat)
    requires m < |es|
  {
    GivesUp(At(s0, es, m), es[m], k)
  }

  // The caller of a queued request has given up exactly when one of those events has
  // come since.
  lemma {:induction false} GivenUpOverRuns(backoff: Backoff, enabled: bool, es: seq<Event>, i: nat, n: nat,
                                           q: Q.Send, k: nat)
    requires i <= n <= |es| && q.waiter == Some(k)
    requires q in At(Initial(backoff, enabled), es, i).sends.queue && !Settled(At(Initial(backoff, enabled), es, i), k)
    requires q in At(Initial(backoff, enabled), es, n).sends.queue
    ensures Settled(At(Initial(backoff, enabled), es, n), k) <==>
            exists m | i <= m < n :: GivesUpAt(Initial(backoff, enabled), es, m, k)
    decreases n - i
  {
    if i < n {
      var s0 := Initial(backoff, enabled);
      QueuedBetween(backoff, enabled, es, i, n - 1, q);
      GivenUpOverRuns(backoff, enabled, es, i, n - 1, q, k);
      WaitersExistAt(backoff, enabled, es, n - 1);
      GivenUpStep(At(s0, es, n - 1), es[n - 1], At(s0, es, n), q, k);
      assert GivesUpAt(s0, es, n - 1, k) <==> GivesUp(At(s0, es, n - 1), es[n - 1], k);
    }
  }

  // A request goes out after its caller has given up exactly when one of those events
  // comes between its acceptance and the handshake, and the transport takes it.
  lemma SentLateExactly(backoff: Backoff, enabled: bool, es: seq<Event>, i: nat, n: nat, q: Q.Send, k: nat)
    requires i <= n < |es| && q.waiter == Some(k)
    requires q in At(Initial(backoff, enabled), es, i).sends.queue && !Settled(At(Initial(backoff, enabled), es, i), k)
    requires q in At(Initial(backoff, enabled), es, n).sends.queue
    ensures var s := At(Initial(backoff, enabled), es, n);
            SentIn(Step(s, es[n]), q) && Settled(s, k) <==>
              && Handshake(s, es[n]) && q.id !in es[n].throws
              && exists m | i <= m < n :: GivesUpAt(Initial(backoff, enabled), es, m, k)
  {
    WaitersExistAt(backoff, enabled, es, n);
    QueuedSendFares(At(Initial(backoff, enabled), es, n), es[n], q);
    GivenUpOverRuns(backoff, enabled, es, i, n, q, k);
  }

  lemma TimedOutAlone(s: State, judge: W.Message -> W.Reply)
    requires s.waiters == W.Add(W.EMPTY, Some("a"), true, judge)
    ensures Step(s, WaiterTimesOut(0)).waiters == W.Table([], map[0 := W.Rejected(W.TimedOut)], 1)
  {
    var ws := s.waiters.pending;
    assert ws == [W.Waiter(0, Some("a"), true, judge)] && ws[0].key == 0 && ws[0].timed;
    assert W.Without(ws, 0) == [] by { assert ws[1..] == []; }
  }

  lemma FlushAlone(l: Q.Ledger)
    requires l.queue == [Q.Send(0, Some(0))] && l.wire == []
    ensures Q.Flush(l, true, {}).wire == [0]
  {
    var l1 := Q.FlushOne(l.(queue := []), l.queue[0], true, {});
    assert l1.wire == [0] && l.queue[1..] == [];
    assert Q.FlushFrom(l.queue[1..], l1, true, {}) == l1;
  }

  lemma LateRequest(s: State, judge: W.Message -> W.Reply, msg: W.Message)
    requires s.link.status == Connecting && s.link.transport == Some(0) && s.waiters == W.EMPTY && s.sends == Q.EMPTY
    ensures var r := Step(Step(s, Rpc(Some("a"), true, judge, true)), WaiterTimesOut(0));
            && r.waiters.outcomes == map[0 := W.Rejected(W.TimedOut)] && r.sends.wire == []
            && Step(r, OnServerInfo(0, msg, {})).sends.wire == [0]
  {
    var s1 := Step(s, Rpc(Some("a"), true, judge, true));
    assert s1.link == s.link && s1.waiters == W.Add(W.EMPTY, Some("a"), true, judge);
    assert s1.sends == Q.Push(Q.EMPTY, Some(0));
    TimedOutAlone(s1, judge);
    var s2 := Step(s1, WaiterTimesOut(0));
    assert s2.link == s.link && s2.sends == s1.sends;
    FlushAlone(s2.sends);
    assert Step(s2, OnServerInfo(0, msg, {})).sends == Q.Flush(s2.sends, true, {});
  }

  // The first request, made while connecting, goes out after its timeout has rejected it.
  lemma SentAfterTimeout(backoff: Backoff, enabled: bool, judge: W.Message -> W.Reply, msg: W.Message, es: seq<Event>)
    requires es == [Connect(Opens), Rpc(Some("a"), true, judge, true), WaiterTimesOut(0), OnServerInfo(0, msg, {})]
    ensures At(Initial(backoff, enabled), es, 3).waiters.outcomes == map[0 := W.Rejected(W.TimedOut)]
    ensures At(Initial(backoff, enabled), es, 3).sends.wire == []
    ensures At(Initial(backoff, enabled), es, 4).sends.wire == [0]
  {
    var s0 := Initial(backoff, enabled);
    var s1 := Step(s0, Connect(Opens));
    assert s1.link.status == Connecting && s1.link.transport == Some(0) && s1.waiters == W.EMPTY && s1.sends == Q.EMPTY;
    LateRequest(s1, judge, msg);
    AtThree(s0, es);
    var r := Step(Step(s1, es[1]), es[2]);
    assert At(s0, es, 3) == r;
    assert At(s0, es, 4) == Step(r, es[3]);
    assert Step(r, es[3]).sends.wire == [0];
  }
}
