/**
  What every request ends with: the first reply for it, its timeout, its cancel, the end
  of the connection, or its send being refused, whichever comes first.
*/
module RequestOutcomes {
  import opened Options
  import opened Connection
  import opened ConnectionInvariant
  import opened ConnectPromise
  import opened QueuedRequests
  import E = EngineEffects
  import T = SessionTables
  import Q = SendQueue
  import W = Waiters

  // The frame that the event delivers to the waiters.
  function FrameOf(s: State, e: Event): Option<W.Inbound> {
    if !E.Current(s, e) then None
    else match e
      case OnSession(_, msg) => Some(W.Validated(msg))
      case OnServerInfo(_, msg, _) => Some(W.Validated(msg))
      case OnInvalid(_, id) => if id.Some? then Some(W.Invalid(id.value)) else None
      case _ => None
  }

  // The event rejects the queued send of waiter `k`.
  predicate Undeliverable(s: State, e: Event, k: nat) {
    exists i | 0 <= i < |s.sends.queue| :: s.sends.queue[i].waiter == Some(k)
      && if Handshake(s, e) then s.sends.queue[i].id in e.throws else e.SendTimesOut? && e.id == s.sends.queue[i].id
  }

  // What one event settles a pending waiter with.
  function EndOf(s: State, e: Event, w: W.Waiter): Option<W.Outcome> {
    var x := FrameOf(s, e);
    if x.Some? && W.OutcomeOn(s.waiters.pending, w, x.value).Some? then W.OutcomeOn(s.waiters.pending, w, x.value)
    else if Undeliverable(s, e, w.key) then Some(W.Rejected(W.Cancelled))
    else match e
      case WaiterTimesOut(k) => if k == w.key && w.timed then Some(W.Rejected(W.TimedOut)) else None
      case CancelRpc(k) => if k == w.key then Some(W.Rejected(W.Cancelled)) else None
      case Close => Some(W.Rejected(W.ClientClosed))
      case _ => if E.Drops(E.Happens(s, e)) then Some(W.Rejected(W.ConnectionLost)) else None
  }

  // ------------------------------------------------------- one waiter of a table

  // The waiter is settled with `o`, or still in the set.
  ghost predicate EndsAs(t: W.Table, w: W.Waiter, o: Option<W.Outcome>) {
    if o.Some? then w.key in t.outcomes && t.outcomes[w.key] == o.value else w in t.pending && w.key !in t.outcomes
  }

  lemma PendingIsUnsettled(t: W.Table, w: W.Waiter)
    requires W.Valid(t) && w in t.pending
    ensures w.key < t.next && w.key !in t.outcomes
  {
    var i :| 0 <= i < |t.pending| && t.pending[i] == w;
    assert W.HasKey(t.pending, w.key);
  }

  lemma WithoutOther(ws: seq<W.Waiter>, w: W.Waiter, key: nat)
    requires w in ws && w.key != key
    ensures w in W.Without(ws, key)
  {
    W.WithoutKeeps(ws, key);
  }

  lemma ReceiveEnds(t: W.Table, x: W.Inbound, w: W.Waiter)
    requires W.Valid(t) && w in t.pending
    ensures EndsAs(W.Receive(t, x), w, W.OutcomeOn(t.pending, w, x)) && W.Valid(W.Receive(t, x))
    ensures W.Receive(t, x).next == t.next
  {
    var i :| 0 <= i < |t.pending| && t.pending[i] == w;
    W.DeliveryAt(t, x, i);
    W.StillPending(t, x, w);
  }

  lemma CancelEnds(t: W.Table, key: nat, w: W.Waiter)
    requires W.Valid(t) && w in t.pending
    ensures EndsAs(W.Cancel(t, key), w, if key == w.key then Some(W.Rejected(W.Cancelled)) else None)
  {
    PendingIsUnsettled(t, w);
    if key != w.key { WithoutOther(t.pending, w, key); }
  }

  lemma CancelKeepsSettled(t: W.Table, keys: seq<nat>, k: nat)
    requires k in t.outcomes
    ensures k in CancelAll(t, keys).outcomes && CancelAll(t, keys).outcomes[k] == t.outcomes[k]
    decreases keys
  {
    if keys != [] { CancelKeepsSettled(W.Cancel(t, keys[0]), keys[1..], k); }
  }

  lemma {:induction false} CancelAllEnds(t: W.Table, keys: seq<nat>, w: W.Waiter)
    requires W.Valid(t) && w in t.pending
    ensures EndsAs(CancelAll(t, keys), w, if w.key in keys then Some(W.Rejected(W.Cancelled)) else None)
    decreases keys
  {
    if keys == [] {
      PendingIsUnsettled(t, w);
    } else {
      var t1 := W.Cancel(t, keys[0]);
      assert keys == [keys[0]] + keys[1..];
      CancelEnds(t, keys[0], w);
      W.CancelKeepsValid(t, keys[0]);
      if keys[0] == w.key { CancelKeepsSettled(t1, keys[1..], w.key); } else { CancelAllEnds(t1, keys[1..], w); }
    }
  }

  lemma TimeoutEnds(t: W.Table, key: nat, w: W.Waiter)
    requires W.Valid(t) && w in t.pending
    ensures EndsAs(W.Timeout(t, key), w, if key == w.key && w.timed then Some(W.Rejected(W.TimedOut)) else None)
  {
    PendingIsUnsettled(t, w);
    var i :| 0 <= i < |t.pending| && t.pending[i] == w;
    if W.TimerArmed(t, key) {
      var j :| 0 <= j < |t.pending| && t.pending[j].key == key && t.pending[j].timed;
      if key != w.key { WithoutOther(t.pending, w, key); }
    }
  }

  lemma ClearEnds(t: W.Table, reason: W.Reason, w: W.Waiter)
    requires W.Valid(t) && w in t.pending
    ensures EndsAs(W.Clear(t, reason), w, Some(W.Rejected(reason)))
  {
    PendingIsUnsettled(t, w);
    var i :| 0 <= i < |t.pending| && t.pending[i] == w;
    W.RecordAllAt(t.pending, t.outcomes, W.Rejected(reason));
  }

  // ----------------------------------------------------------- which sends fail

  lemma {:induction false} FailedWaitersExactly(queue: seq<Q.Send>, throws: set<nat>, k: nat)
    ensures k in Q.FailedWaiters(queue, true, throws) <==>
            exists i | 0 <= i < |queue| :: queue[i].waiter == Some(k) && queue[i].id in throws
  {
    if queue != [] {
      var rest := queue[1..];
      FailedWaitersExactly(rest, throws, k);
      assert forall i | 0 <= i < |rest| :: rest[i] == queue[i + 1];
      assert (exists i | 0 <= i < |queue| :: queue[i].waiter == Some(k) && queue[i].id in throws) <==>
             (queue[0].waiter == Some(k) && queue[0].id in throws)
             || exists i | 0 <= i < |rest| :: rest[i].waiter == Some(k) && rest[i].id in throws by {
        if i :| 0 <= i < |rest| && rest[i].waiter == Some(k) && rest[i].id in throws {
          assert queue[i + 1].waiter == Some(k) && queue[i + 1].id in throws;
        }
        if i :| 0 < i < |queue| && queue[i].waiter == Some(k) && queue[i].id in throws {
          assert rest[i - 1].waiter == Some(k) && rest[i - 1].id in throws;
        }
      }
    }
  }

  lemma WaitersOfSendExactly(l: Q.Ledger, id: nat, k: nat)
    requires Q.Valid(l)
    ensures k in WaitersOfSend(l.queue, id) <==>
            exists i | 0 <= i < |l.queue| :: l.queue[i].waiter == Some(k) && l.queue[i].id == id
  {
    var found := Q.IndexOf(l.queue, id);
    if i :| 0 <= i < |l.queue| && l.queue[i].waiter == Some(k) && l.queue[i].id == id {
      assert Q.Queued(l.queue, id);
      assert found.value == i;
    }
  }

  // ---------------------------------------------------- what clears the whole set

  ghost predicate Cleared(s: State, reason: W.Reason, r: State) {
    r.waiters == W.Clear(s.waiters, reason) && r.sends == Q.RejectAll(s.sends)
  }

  lemma AttemptClears(s: State, a: Attempt)
    requires s.retry.wanted && E.Idling(s) && a != Opens
    ensures Cleared(s, W.ConnectionLost, AttemptConnect(s, a))
  {
  }

  lemma AttemptKeeps(s: State)
    requires s.retry.wanted && E.Idling(s)
    ensures Unmoved(s, AttemptConnect(s, Opens))
  {
  }

  lemma CheckClears(s: State, t: Tid, a: Attempt)
    requires ConnectionOk(s) && Q.Valid(s.sends) && s.link.transport == Some(t) && s.link.status == Connected
    ensures Cleared(s, W.ConnectionLost, DoVerificationFails(s, t, a))
  {
    var m := ScheduleReconnect(DisposeTransport(s), VerificationFailed);
    var m1 := m.(retry := m.retry.(wanted := true));
    Q.FlushKeepsValid(s.sends, false, {});
    assert E.Idling(m) && Cleared(s, W.ConnectionLost, m) && Q.RejectAll(m.sends) == m.sends;
    if a == Opens {
      AttemptKeeps(m1);
      AttemptKeeps(NewConnectPromise(m1));
    } else {
      AttemptClears(m1, a);
      AttemptClears(NewConnectPromise(m1), a);
    }
  }

  // The tables after an event that is for no request in particular.
  ghost predicate SetMoves(s: State, e: Event, r: State) {
    if E.Drops(E.Happens(s, e)) then Cleared(s, W.ConnectionLost, r)
    else if e.Close? then Cleared(s, W.ClientClosed, r)
    else Unmoved(s, r)
  }

  lemma AttemptSetMoves(s: State, a: Attempt, r: State)
    requires s.retry.wanted && E.Idling(s) && r == AttemptConnect(s, a)
    ensures if a == Opens then Unmoved(s, r) else Cleared(s, W.ConnectionLost, r)
  {
    if a == Opens { AttemptKeeps(s); } else { AttemptClears(s, a); }
  }

  lemma CheckSetMoves(s: State, t: Tid, a: Attempt)
    requires ConnectionOk(s) && PromiseOk(s) && Q.Valid(s.sends) && s.link.status != Disposed
    ensures SetMoves(s, VerificationFails(t, a), Step(s, VerificationFails(t, a)))
  {
    if t in s.live.verifying && s.link.transport == Some(t) && s.link.status == Connected { CheckClears(s, t, a); }
  }

  lemma RetrySetMoves(s: State, a: Attempt)
    requires ConnectionOk(s) && PromiseOk(s) && s.link.status != Disposed
    ensures SetMoves(s, ReconnectFires(a), Step(s, ReconnectFires(a)))
  {
    var s1 := s.(retry := s.retry.(timer := None));
    if E.Idling(s) { AttemptSetMoves(s1, a, AttemptConnect(s1, a)); }
  }

  lemma ConnectSetMoves(s: State, a: Attempt)
    requires ConnectionOk(s) && PromiseOk(s) && s.link.status != Disposed
    ensures SetMoves(s, Connect(a), Step(s, Connect(a)))
  {
    var n := NewConnectPromise(s);
    if E.Idling(s) { AttemptSetMoves(n, a, AttemptConnect(n, a)); }
  }

  lemma IdleEnsureSetMoves(s: State, v: bool, a: Attempt)
    requires ConnectionOk(s) && E.Idling(s)
    ensures var r := if s.connects.promise.Some? then AttemptConnect(s, a) else DoConnect(s, a);
            SetMoves(s, EnsureConnected(v, a), r)
  {
    var n := if s.connects.promise.Some? then s else NewConnectPromise(s);
    AttemptSetMoves(n, a, AttemptConnect(n, a));
  }

  lemma BusyEnsureSetMoves(s: State, v: bool, a: Attempt)
    requires s.link.status == Connecting || s.link.status == Connected
    ensures Unmoved(s, DoEnsureConnected(s, v, a)) && !E.Drops(E.Happens(s, EnsureConnected(v, a)))
  {
  }

  lemma EnsureSetMoves(s: State, v: bool, a: Attempt)
    requires ConnectionOk(s) && PromiseOk(s) && s.link.status != Disposed
    ensures SetMoves(s, EnsureConnected(v, a), Step(s, EnsureConnected(v, a)))
  {
    assert Step(s, EnsureConnected(v, a)) == DoEnsureConnected(s, v, a);
    if E.Idling(s) {
      assert s.(retry := s.retry.(wanted := true)) == s;
      IdleEnsureSetMoves(s, v, a);
    } else {
      BusyEnsureSetMoves(s, v, a);
    }
  }

  lemma TimerSetMoves(s: State, e: Event)
    requires ConnectionOk(s) && (e.HeartbeatFires? || e.ProbeTimesOut? || e.ConnectTimeoutFires? || e.ErrorTimerFires?)
    ensures SetMoves(s, e, Step(s, e))
  {
  }

  lemma OtherSetMoves(s: State, e: Event)
    requires ConnectionOk(s) && s.link.status != Disposed && !Particular(e) && !FromTimer(e)
    requires !e.Connect? && !e.EnsureConnected? && !e.VerificationFails?
    ensures SetMoves(s, e, Step(s, e))
  {
  }

  lemma EventSetMoves(s: State, e: Event)
    requires ConnectionOk(s) && PromiseOk(s) && Q.Valid(s.sends) && s.link.status != Disposed && !Particular(e)
    ensures SetMoves(s, e, Step(s, e))
  {
    match e {
      case Connect(a) => ConnectSetMoves(s, a);
      case EnsureConnected(v, a) => EnsureSetMoves(s, v, a);
      case VerificationFails(t, a) => CheckSetMoves(s, t, a);
      case ReconnectFires(a) => RetrySetMoves(s, a);
      case _ => if FromTimer(e) { TimerSetMoves(s, e); } else { OtherSetMoves(s, e); }
    }
  }

  // ------------------------------------------------------------------ one event

  ghost predicate Sound(s: State) {
    ConnectionOk(s) && PromiseOk(s) && T.TablesOk(s) && WaitersExist(s)
  }

  lemma FrameEnds(s: State, e: Event, w: W.Waiter)
    requires Sound(s) && w in s.waiters.pending && (e.OnSession? || e.OnInvalid?)
    ensures EndsAs(Step(s, e).waiters, w, EndOf(s, e, w))
  {
    PendingIsUnsettled(s.waiters, w);
    if FrameOf(s, e).Some? { ReceiveEnds(s.waiters, FrameOf(s, e).value, w); }
  }

  lemma ServerInfoEnds(s: State, e: Event, w: W.Waiter)
    requires Sound(s) && w in s.waiters.pending && e.OnServerInfo?
    ensures EndsAs(Step(s, e).waiters, w, EndOf(s, e, w))
  {
    PendingIsUnsettled(s.waiters, w);
    if E.Current(s, e) {
      var t := W.Receive(s.waiters, W.Validated(e.msg));
      ReceiveEnds(s.waiters, W.Validated(e.msg), w);
      if Handshake(s, e) {
        var failed := Q.FailedWaiters(s.sends.queue, true, e.throws);
        FailedWaitersExactly(s.sends.queue, e.throws, w.key);
        HandshakeEnds(t, failed, w, W.OutcomeOn(s.waiters.pending, w, W.Validated(e.msg)));
      }
    }
  }

  lemma HandshakeEnds(t: W.Table, failed: seq<nat>, w: W.Waiter, verdict: Option<W.Outcome>)
    requires W.Valid(t) && EndsAs(t, w, verdict)
    ensures EndsAs(CancelAll(t, failed), w,
                   if verdict.Some? then verdict else if w.key in failed then Some(W.Rejected(W.Cancelled)) else None)
  {
    if verdict.Some? { CancelKeepsSettled(t, failed, w.key); } else { CancelAllEnds(t, failed, w); }
  }

  lemma RpcEnds(s: State, id: Option<string>, timed: bool, judge: W.Message -> W.Reply, ok: bool, w: W.Waiter)
    requires Sound(s) && w in s.waiters.pending
    ensures EndsAs(DoRpc(s, id, timed, judge, ok).waiters, w, None) && EndOf(s, Rpc(id, timed, judge, ok), w).None?
  {
    assert !Undeliverable(s, Rpc(id, timed, judge, ok), w.key);
    PendingIsUnsettled(s.waiters, w);
    W.AddKeepsValid(s.waiters, id, timed, judge);
    CancelEnds(W.Add(s.waiters, id, timed, judge), s.waiters.next, w);
  }

  lemma TimedOutSendIs(s: State, id: nat, k: nat)
    requires Q.Valid(s.sends)
    ensures Undeliverable(s, SendTimesOut(id), k) <==> k in WaitersOfSend(s.sends.queue, id)
  {
    WaitersOfSendExactly(s.sends, id, k);
  }

  lemma SendTimeoutEnds(s: State, id: nat, w: W.Waiter)
    requires Sound(s) && w in s.waiters.pending
    ensures EndsAs(DoSendTimeout(s, id).waiters, w, EndOf(s, SendTimesOut(id), w))
  {
    TimedOutSendIs(s, id, w.key);
    CancelAllEnds(s.waiters, WaitersOfSend(s.sends.queue, id), w);
  }

  lemma WaiterCallEnds(s: State, e: Event, w: W.Waiter)
    requires Sound(s) && w in s.waiters.pending && (e.CancelRpc? || e.WaiterTimesOut?)
    ensures EndsAs(Step(s, e).waiters, w, EndOf(s, e, w))
  {
    assert !Undeliverable(s, e, w.key);
    if e.CancelRpc? { CancelEnds(s.waiters, e.key, w); } else { TimeoutEnds(s.waiters, e.key, w); }
  }

  lemma RequestEnds(s: State, e: Event, r: State, w: W.Waiter)
    requires Sound(s) && w in s.waiters.pending && r == Step(s, e)
    requires e.Rpc? || e.CancelRpc? || e.WaiterTimesOut? || e.SendTimesOut?
    ensures EndsAs(r.waiters, w, EndOf(s, e, w))
  {
    if e.Rpc? {
      assert r == DoRpc(s, e.requestId, e.timed, e.judge, e.sendOk);
      RpcEnds(s, e.requestId, e.timed, e.judge, e.sendOk, w);
    } else if e.SendTimesOut? {
      assert r == DoSendTimeout(s, e.id);
      SendTimeoutEnds(s, e.id, w);
    } else {
      WaiterCallEnds(s, e, w);
    }
  }

  lemma SetEndIs(s: State, e: Event, w: W.Waiter)
    requires !Particular(e)
    ensures EndOf(s, e, w) == if e.Close? then Some(W.Rejected(W.ClientClosed))
                              else if E.Drops(E.Happens(s, e)) then Some(W.Rejected(W.ConnectionLost)) else None
  {
    assert FrameOf(s, e).None? && !Undeliverable(s, e, w.key);
  }

  lemma SetEnds(s: State, e: Event, w: W.Waiter)
    requires Sound(s) && w in s.waiters.pending && !Particular(e)
    ensures EndsAs(Step(s, e).waiters, w, EndOf(s, e, w))
  {
    PendingIsUnsettled(s.waiters, w);
    SetEndIs(s, e, w);
    EventSetMoves(s, e);
    ClearEnds(s.waiters, W.ConnectionLost, w);
    ClearEnds(s.waiters, W.ClientClosed, w);
  }

  // Every event settles a pending waiter with exactly what it should, or leaves it.
  lemma WaiterEnds(s: State, e: Event, w: W.Waiter)
    requires Sound(s) && w in s.waiters.pending
    ensures EndsAs(Step(s, e).waiters, w, EndOf(s, e, w))
  {
    if e.OnSession? || e.OnInvalid? {
      FrameEnds(s, e, w);
    } else if e.OnServerInfo? {
      ServerInfoEnds(s, e, w);
    } else if Particular(e) {
      RequestEnds(s, e, Step(s, e), w);
    } else {
      SetEnds(s, e, w);
    }
  }

  lemma HandshakeEmptiesQueue(s: State, e: Event)
    requires Sound(s) && e.OnServerInfo?
    ensures Step(s, e).sends.queue == if Handshake(s, e) then [] else s.sends.queue
  {
    if Handshake(s, e) { Q.FlushKeepsValid(s.sends, true, e.throws); }
  }

  lemma QueueOnlyGrows(s: State, e: Event)
    requires e.Rpc? || e.CancelRpc? || e.WaiterTimesOut? || e.OnSession? || e.OnInvalid?
    ensures s.sends.queue <= Step(s, e).sends.queue
  {
  }

  lemma SendInParticular(s: State, e: Event, r: State, q: Q.Send)
    requires Sound(s) && q in s.sends.queue && Particular(e) && r == Step(s, e)
    ensures q in r.sends.queue <==> !Handshake(s, e) && e != SendTimesOut(q.id)
  {
    if e.OnServerInfo? {
      HandshakeEmptiesQueue(s, e);
    } else if e.SendTimesOut? {
      assert r == DoSendTimeout(s, e.id);
      SendTimesOutOfQueue(s.sends, e.id, q);
    } else {
      QueueOnlyGrows(s, e);
    }
  }

  // A queued send leaves the queue at the handshake, at its own timeout and when the
  // connection is dropped, and at nothing else.
  lemma SendLeavesQueue(s: State, e: Event, q: Q.Send)
    requires Sound(s) && q in s.sends.queue
    ensures q in Step(s, e).sends.queue <==>
            !Handshake(s, e) && e != SendTimesOut(q.id) && !e.Close? && !E.Drops(E.Happens(s, e))
  {
    if Particular(e) {
      SendInParticular(s, e, Step(s, e), q);
    } else {
      EventSetMoves(s, e);
      DroppedQueue(s, e, Step(s, e), q);
    }
  }

  lemma DroppedQueue(s: State, e: Event, r: State, q: Q.Send)
    requires Q.Valid(s.sends) && q in s.sends.queue && SetMoves(s, e, r)
    ensures q in r.sends.queue <==> !e.Close? && !E.Drops(E.Happens(s, e))
  {
    Q.FlushKeepsValid(s.sends, false, {});
  }

  lemma SendTimesOutOfQueue(l: Q.Ledger, id: nat, q: Q.Send)
    requires Q.Valid(l) && q in l.queue
    ensures q in Q.TimeOut(l, id).queue <==> q.id != id
  {
    var found, i :| found == Q.IndexOf(l.queue, id) && 0 <= i < |l.queue| && l.queue[i] == q;
    if found.Some? {
      var left := Q.TimeOut(l, id).queue;
      if q.id != id { assert left[if i < found.value then i else i - 1] == q; }
    } else {
      assert Q.Queued(l.queue, q.id);
    }
  }

  // A request waits for its reply on a connected client whose transport took it, and
  // on a connecting one with its send queued; otherwise it is rejected at once.
  lemma RequestStarts(s: State, id: Option<string>, timed: bool, judge: W.Message -> W.Reply, ok: bool)
    requires Sound(s)
    ensures var r, k := Step(s, Rpc(id, timed, judge, ok)), s.waiters.next;
            && (if (s.link.status == Connected && ok) || s.link.status == Connecting then
                  W.Waiter(k, id, timed, judge) in r.waiters.pending
                else k in r.waiters.outcomes && r.waiters.outcomes[k] == W.Rejected(W.Cancelled))
            && r.sends.queue == (if s.link.status == Connecting then s.sends.queue + [Q.Send(s.sends.next, Some(k))]
                                 else s.sends.queue)
  {
    var t := W.Add(s.waiters, id, timed, judge);
    W.AddKeepsValid(s.waiters, id, timed, judge);
    assert t.pending[|s.waiters.pending|] == W.Waiter(s.waiters.next, id, timed, judge);
    CancelEnds(t, s.waiters.next, W.Waiter(s.waiters.next, id, timed, judge));
  }

  // ----------------------------------------------------------------- whole runs

  lemma SoundAt(backoff: Backoff, enabled: bool, es: seq<Event>, n: nat)
    requires n <= |es|
    ensures Sound(At(Initial(backoff, enabled), es, n))
  {
    PromiseOkAt(backoff, enabled, es, n);
    WaitersExistAt(backoff, enabled, es, n);
  }

  // The first thing that settles `w`, which waits before event `k`, up to event `n`.
  ghost function FirstEnd(s0: State, es: seq<Event>, k: nat, n: nat, w: W.Waiter): Option<W.Outcome>
    requires k <= n <= |es|
    decreases n
  {
    if n == k then None
    else if FirstEnd(s0, es, k, n - 1, w).Some? then FirstEnd(s0, es, k, n - 1, w)
    else EndOf(At(s0, es, n - 1), es[n - 1], w)
  }

  lemma EndStays(s: State, e: Event, w: W.Waiter, o: W.Outcome)
    requires Sound(s) && EndsAs(s.waiters, w, Some(o))
    ensures EndsAs(Step(s, e).waiters, w, Some(o))
  {
    T.StepProgress(s, e);
  }

  lemma EndStep(s: State, e: Event, r: State, w: W.Waiter, o: Option<W.Outcome>)
    requires Sound(s) && EndsAs(s.waiters, w, o) && r == Step(s, e)
    ensures EndsAs(r.waiters, w, if o.Some? then o else EndOf(s, e, w))
  {
    if o.Some? { EndStays(s, e, w, o.value); } else { WaiterEnds(s, e, w); }
  }

  // Over every history a waiter is settled with the first of these, and waits as long
  // as there is none.
  lemma {:induction false} RequestOutcomeOverRuns(backoff: Backoff, enabled: bool, es: seq<Event>, k: nat, n: nat,
                                                  w: W.Waiter)
    requires k <= n <= |es| && w in At(Initial(backoff, enabled), es, k).waiters.pending
    ensures var s0 := Initial(backoff, enabled); EndsAs(At(s0, es, n).waiters, w, FirstEnd(s0, es, k, n, w))
    decreases n - k
  {
    var s0 := Initial(backoff, enabled);
    if n == k {
      T.TablesOverRuns(backoff, enabled, es, k);
      PendingIsUnsettled(At(s0, es, k).waiters, w);
    } else {
      RequestOutcomeOverRuns(backoff, enabled, es, k, n - 1, w);
      SoundAt(backoff, enabled, es, n - 1);
      EndStep(At(s0, es, n - 1), es[n - 1], At(s0, es, n), w, FirstEnd(s0, es, k, n - 1, w));
    }
  }

  lemma ReplyVerdict(ws: seq<W.Waiter>, w: W.Waiter, id: string, responseType: string, payload: string)
    requires responseType != "rpc_error"
    requires w.judge == W.RequestJudge(id, responseType, (text: string) => W.Hit(W.Payload(text)))
    requires W.NoneClears(ws, W.Validated(W.Message(responseType, id, payload)))
    ensures W.OutcomeOn(ws + [w], w, W.Validated(W.Message(responseType, id, payload))) ==
              Some(W.Resolved(W.Payload(payload)))
  {
    var m := W.Message(responseType, id, payload);
    assert w.judge(m) == W.Reply(W.Hit(W.Payload(payload)), false);
    assert forall i | 0 <= i < |ws| :: (ws + [w])[i] == ws[i];
    assert (ws + [w])[|ws|] == w;
  }

  // The state of a connected client after a request that its transport takes.
  lemma RequestWaits(s: State, id: string, judge: W.Message -> W.Reply, m: State)
    requires Sound(s) && s.link.status == Connected && s.link.transport.Some?
    requires m == Step(s, Rpc(Some(id), true, judge, true))
    ensures Sound(m) && m.link == s.link
    ensures m.waiters.pending == s.waiters.pending + [W.Waiter(s.waiters.next, Some(id), true, judge)]
  {
    var rpc := Rpc(Some(id), true, judge, true);
    StepKeepsConnectionOk(s, rpc);
    StepKeepsPromiseOk(s, rpc, m);
    T.StepProgress(s, rpc);
    StepKeepsWaitersExist(s, rpc, m);
  }

  // In particular: a request of a connected client is resolved with the payload of the
  // response that arrives next, on the connection it was made on.
  lemma ReplyIsDelivered(s: State, id: string, responseType: string, payload: string)
    requires Sound(s) && s.link.status == Connected && s.link.transport.Some? && responseType != "rpc_error"
    requires W.NoneClears(s.waiters.pending, W.Validated(W.Message(responseType, id, payload)))
    ensures var judge := W.RequestJudge(id, responseType, (text: string) => W.Hit(W.Payload(text)));
            var m := Step(s, Rpc(Some(id), true, judge, true));
            var r := Step(m, OnSession(s.link.transport.value, W.Message(responseType, id, payload)));
            && s.waiters.next in r.waiters.outcomes
            && r.waiters.outcomes[s.waiters.next] == W.Resolved(W.Payload(payload))
  {
    var judge := W.RequestJudge(id, responseType, (text: string) => W.Hit(W.Payload(text)));
    var m := Step(s, Rpc(Some(id), true, judge, true));
    var w := W.Waiter(s.waiters.next, Some(id), true, judge);
    RequestWaits(s, id, judge, m);
    assert m.waiters.pending[|s.waiters.pending|] == w;
    FrameEnds(m, OnSession(s.link.transport.value, W.Message(responseType, id, payload)), w);
    ReplyVerdict(s.waiters.pending, w, id, responseType, payload);
  }
}
