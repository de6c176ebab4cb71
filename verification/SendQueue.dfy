/**
  The queue of session messages accepted while the client is still connecting.

  Every accepted send gets the next id. `fates` is the settled state of its
  promise, `wire` the order in which the queued sends reached the transport.
*/
module SendQueue {
  import opened Options

  datatype Send = Send(id: nat, waiter: Option<nat>)

  datatype Fate = Sent | Failed

  datatype Ledger = Ledger(queue: seq<Send>, fates: map<nat, Fate>, wire: seq<nat>, next: nat)

  const EMPTY := Ledger([], map[], [], 0)

  predicate Queued(q: seq<Send>, id: nat) {
    exists i | 0 <= i < |q| :: q[i].id == id
  }

  // Every accepted send is either still queued or has exactly one fate, and both
  // the queue and the wire are in acceptance order.
  ghost predicate Valid(l: Ledger) {
    && (forall i, j | 0 <= i < j < |l.queue| :: l.queue[i].id < l.queue[j].id)
    && (forall i, j | 0 <= i < j < |l.wire| :: l.wire[i] < l.wire[j])
    && (forall i, j | 0 <= i < |l.wire| && 0 <= j < |l.queue| :: l.wire[i] < l.queue[j].id)
    && (forall id :: id in l.fates ==> id < l.next)
    && (forall id: nat :: Queued(l.queue, id) <==> id < l.next && id !in l.fates)
    && (forall id: nat :: id in l.wire <==> id in l.fates && l.fates[id] == Sent)
  }

  // ---------------------------------------------------------------- operations

  function Push(l: Ledger, waiter: Option<nat>): Ledger {
    l.(queue := l.queue + [Send(l.next, waiter)], next := l.next + 1)
  }

  function IndexOf(q: seq<Send>, id: nat): (r: Option<nat>)
    ensures r.Some? ==> r.value < |q| && q[r.value].id == id
    ensures r.None? ==> !Queued(q, id)
  {
    if q == [] then None
    else if q[0].id == id then Some(0)
    else
      var r := IndexOf(q[1..], id);
      assert Queued(q, id) ==> Queued(q[1..], id) by {
        if Queued(q, id) {
          var i :| 0 <= i < |q| && q[i].id == id;
          assert q[1..][i - 1].id == id;
        }
      }
      if r.Some? then Some(r.value + 1) else None
  }

  // The per-send timeout: splice the entry out of the middle and reject it.
  function TimeOut(l: Ledger, id: nat): Ledger {
    match IndexOf(l.queue, id)
    case None => l
    case Some(i) => l.(queue := l.queue[..i] + l.queue[i + 1..], fates := l.fates[id := Failed])
  }

  // One turn of the flush loop: the transport is re-checked before each send, and
  // a send that throws is rejected without stopping the loop.
  function FlushOne(l: Ledger, s: Send, open: bool, throws: set<nat>): Ledger {
    if open && s.id !in throws then l.(fates := l.fates[s.id := Sent], wire := l.wire + [s.id])
    else l.(fates := l.fates[s.id := Failed])
  }

  function FlushFrom(q: seq<Send>, l: Ledger, open: bool, throws: set<nat>): Ledger {
    if q == [] then l else FlushFrom(q[1..], FlushOne(l, q[0], open, throws), open, throws)
  }

  // `flushPendingSendQueue`
  function Flush(l: Ledger, open: bool, throws: set<nat>): Ledger {
    FlushFrom(l.queue, l.(queue := []), open, throws)
  }

  // `rejectPendingSendQueue`
  function RejectAll(l: Ledger): Ledger {
    FlushFrom(l.queue, l.(queue := []), false, {})
  }

  // The waiters whose send was rejected by the flush: `sendRequest` cancels them.
  function FailedWaiters(q: seq<Send>, open: bool, throws: set<nat>): seq<nat> {
    if q == [] then []
    else if (open && q[0].id !in throws) || q[0].waiter.None? then FailedWaiters(q[1..], open, throws)
    else [q[0].waiter.value] + FailedWaiters(q[1..], open, throws)
  }

  // ----------------------------------------------------------------- the law

  lemma PushKeepsValid(l: Ledger, waiter: Option<nat>)
    requires Valid(l)
    ensures Valid(Push(l, waiter)) && Queued(Push(l, waiter).queue, l.next)
  {
    var q := l.queue + [Send(l.next, waiter)];
    forall i | 0 <= i < |l.queue| ensures l.queue[i].id < l.next { assert Queued(l.queue, l.queue[i].id); }
    forall id: nat ensures Queued(q, id) <==> id == l.next || Queued(l.queue, id) {
      assert q[|l.queue|].id == l.next;
      if Queued(l.queue, id) {
        var i :| 0 <= i < |l.queue| && l.queue[i].id == id;
        assert q[i].id == id;
      }
    }
    forall i | 0 <= i < |l.wire| ensures l.wire[i] < l.next { assert l.wire[i] in l.wire; }
  }

  lemma SpliceIds(q: seq<Send>, i: nat, k: nat)
    requires i < |q| && forall a, b | 0 <= a < b < |q| :: q[a].id < q[b].id
    ensures Queued(q[..i] + q[i + 1..], k) <==> k != q[i].id && Queued(q, k)
  {
    var r := q[..i] + q[i + 1..];
    if Queued(r, k) {
      var j :| 0 <= j < |r| && r[j].id == k;
      assert q[if j < i then j else j + 1].id == k;
    }
    if k != q[i].id && Queued(q, k) {
      var j :| 0 <= j < |q| && q[j].id == k;
      assert r[if j < i then j else j - 1].id == k;
    }
  }

  lemma TimeOutKeepsValid(l: Ledger, id: nat)
    requires Valid(l)
    ensures Valid(TimeOut(l, id))
  {
    if IndexOf(l.queue, id).Some? {
      var i := IndexOf(l.queue, id).value;
      var r := TimeOut(l, id);
      assert Queued(l.queue, id);
      forall a | 0 <= a < |r.queue| ensures r.queue[a] == l.queue[if a < i then a else a + 1] {}
      forall k: nat ensures Queued(r.queue, k) <==> k != id && Queued(l.queue, k) { SpliceIds(l.queue, i, k); }
      assert id !in l.wire;
    }
  }

  // The loop state of a flush: `q` is what is left of the detached queue.
  ghost predicate MidFlush(q: seq<Send>, l: Ledger) {
    l.queue == [] && Valid(l.(queue := q))
  }

  lemma FlushOneStep(q: seq<Send>, l: Ledger, open: bool, throws: set<nat>)
    requires q != [] && MidFlush(q, l)
    ensures MidFlush(q[1..], FlushOne(l, q[0], open, throws))
  {
    var l' := FlushOne(l, q[0], open, throws);
    assert Queued(q, q[0].id);
    forall k: nat ensures Queued(q[1..], k) <==> k != q[0].id && Queued(q, k) {
      if Queued(q[1..], k) {
        var j :| 0 <= j < |q[1..]| && q[1..][j].id == k;
        assert q[j + 1].id == k;
      }
      if k != q[0].id && Queued(q, k) {
        var j :| 0 <= j < |q| && q[j].id == k;
        assert q[1..][j - 1].id == k;
      }
    }
    forall id: nat ensures id in l'.wire <==> id in l'.fates && l'.fates[id] == Sent {
      assert id in l.wire <==> id in l.fates && l.fates[id] == Sent;
    }
  }

  lemma {:induction false} FlushFromKeepsValid(q: seq<Send>, l: Ledger, open: bool, throws: set<nat>)
    requires MidFlush(q, l)
    ensures Valid(FlushFrom(q, l, open, throws)) && FlushFrom(q, l, open, throws).queue == []
    ensures FlushFrom(q, l, open, throws).next == l.next
  {
    if q != [] {
      FlushOneStep(q, l, open, throws);
      FlushFromKeepsValid(q[1..], FlushOne(l, q[0], open, throws), open, throws);
    }
  }

  lemma {:induction false} FlushFromKeepsNext(q: seq<Send>, l: Ledger, open: bool, throws: set<nat>)
    ensures FlushFrom(q, l, open, throws).next == l.next
  {
    if q != [] { FlushFromKeepsNext(q[1..], FlushOne(l, q[0], open, throws), open, throws); }
  }

  lemma FlushKeepsValid(l: Ledger, open: bool, throws: set<nat>)
    requires Valid(l)
    ensures Valid(Flush(l, open, throws)) && Flush(l, open, throws).queue == []
    ensures Valid(RejectAll(l)) && RejectAll(l).queue == []
  {
    assert MidFlush(l.queue, l.(queue := [])) by { assert l.(queue := []).(queue := l.queue) == l; }
    FlushFromKeepsValid(l.queue, l.(queue := []), open, throws);
    FlushFromKeepsValid(l.queue, l.(queue := []), false, {});
  }

  // ------------------------------------------------------ what a flush does

  // A flush of an open transport puts on the wire exactly the queued sends that
  // do not throw, behind everything sent before, and rejects exactly the others.
  lemma {:induction false} FlushFromIsExact(q: seq<Send>, l: Ledger, open: bool, throws: set<nat>)
    requires forall i, j | 0 <= i < j < |q| :: q[i].id != q[j].id
    ensures var r := FlushFrom(q, l, open, throws);
            && l.wire <= r.wire
            && (forall i | 0 <= i < |q| ::
                  q[i].id in r.fates && r.fates[q[i].id] == if open && q[i].id !in throws then Sent else Failed)
            && (forall id :: id in l.fates && !Queued(q, id) ==> id in r.fates && r.fates[id] == l.fates[id])
            && (forall id :: id in r.fates ==> id in l.fates || Queued(q, id))
  {
    if q != [] {
      var l1 := FlushOne(l, q[0], open, throws);
      FlushFromIsExact(q[1..], l1, open, throws);
      assert forall id: nat :: Queued(q[1..], id) ==> Queued(q, id) by {
        forall id: nat | Queued(q[1..], id) ensures Queued(q, id) {
          var j :| 0 <= j < |q[1..]| && q[1..][j].id == id;
          assert q[j + 1].id == id;
        }
      }
      assert Queued(q, q[0].id);
      forall i | 0 <= i < |q| ensures
        var r := FlushFrom(q, l, open, throws);
        q[i].id in r.fates && r.fates[q[i].id] == if open && q[i].id !in throws then Sent else Failed
      {
        if i > 0 { assert q[1..][i - 1] == q[i]; }
        else { assert !Queued(q[1..], q[0].id); }
      }
      forall id | id in l.fates && !Queued(q, id) ensures id in l1.fates && l1.fates[id] == l.fates[id] {}
    }
  }

  lemma FlushIsExact(l: Ledger, open: bool, throws: set<nat>)
    requires Valid(l)
    ensures var r := Flush(l, open, throws);
            && l.wire <= r.wire
            && (forall i | 0 <= i < |l.queue| :: l.queue[i].id in r.fates
                  && r.fates[l.queue[i].id] == if open && l.queue[i].id !in throws then Sent else Failed)
            && (forall id :: id in l.fates ==> id in r.fates && r.fates[id] == l.fates[id])
  {
    FlushFromIsExact(l.queue, l.(queue := []), open, throws);
    forall id | id in l.fates ensures !Queued(l.queue, id) {}
  }

  // A timeout rejects the one entry it is for and touches no other promise.
  lemma TimeOutIsExact(l: Ledger, id: nat)
    requires Valid(l)
    ensures var r := TimeOut(l, id);
            && r.wire == l.wire
            && (forall k: nat :: k in r.fates <==> k in l.fates || (k == id && Queued(l.queue, id)))
            && (forall k :: k in l.fates ==> r.fates[k] == l.fates[k])
            && (Queued(l.queue, id) ==> r.fates[id] == Failed)
  {
    if Queued(l.queue, id) && id in l.fates { assert false; }
    if IndexOf(l.queue, id).Some? { assert Queued(l.queue, id); }
  }

  // ------------------------------------------------------------- conservation

  function CountFate(l: Ledger, f: Fate, n: nat): nat {
    if n == 0 then 0 else CountFate(l, f, n - 1) + if n - 1 in l.fates && l.fates[n - 1] == f then 1 else 0
  }

  function CountQueued(q: seq<Send>, n: nat): nat {
    if n == 0 then 0 else CountQueued(q, n - 1) + if Queued(q, n - 1) then 1 else 0
  }

  lemma {:induction false} CountsAddUp(l: Ledger, n: nat)
    requires Valid(l) && n <= l.next
    ensures CountFate(l, Sent, n) + CountFate(l, Failed, n) + CountQueued(l.queue, n) == n
  {
    if n > 0 {
      CountsAddUp(l, n - 1);
      assert Queued(l.queue, n - 1) <==> n - 1 !in l.fates;
    }
  }

  lemma {:induction false} SortedQueueCount(q: seq<Send>, n: nat)
    requires forall i, j | 0 <= i < j < |q| :: q[i].id < q[j].id
    requires forall i | 0 <= i < |q| :: q[i].id < n
    ensures CountQueued(q, n) == |q|
  {
    if n > 0 {
      if Queued(q, n - 1) {
        var i :| 0 <= i < |q| && q[i].id == n - 1;
        assert q[i].id <= q[|q| - 1].id;
        var p := q[..|q| - 1];
        SortedQueueCount(p, n - 1);
        QueuedPrefix(q, n - 1);
      } else {
        forall i | 0 <= i < |q| ensures q[i].id < n - 1 { assert Queued(q, q[i].id); }
        SortedQueueCount(q, n - 1);
      }
    }
  }

  lemma {:induction false} QueuedPrefix(q: seq<Send>, n: nat)
    requires q != [] && q[|q| - 1].id >= n
    ensures CountQueued(q, n) == CountQueued(q[..|q| - 1], n)
  {
    if n > 0 {
      QueuedPrefix(q, n - 1);
      var p := q[..|q| - 1];
      if Queued(q, n - 1) {
        var i :| 0 <= i < |q| && q[i].id == n - 1;
        assert p[i].id == n - 1;
      }
      if Queued(p, n - 1) {
        var i :| 0 <= i < |p| && p[i].id == n - 1;
        assert q[i].id == n - 1;
      }
    }
  }

  lemma {:induction false} SortedWireCount(l: Ledger, w: seq<nat>, n: nat)
    requires forall i, j | 0 <= i < j < |w| :: w[i] < w[j]
    requires forall i | 0 <= i < |w| :: w[i] < n
    requires forall id: nat | id < n :: id in w <==> id in l.fates && l.fates[id] == Sent
    ensures CountFate(l, Sent, n) == |w|
  {
    if n > 0 {
      if n - 1 in w {
        var i :| 0 <= i < |w| && w[i] == n - 1;
        assert w[i] <= w[|w| - 1];
        var p := w[..|w| - 1];
        forall id: nat | id < n - 1 ensures id in p <==> id in l.fates && l.fates[id] == Sent {
          if id in w {
            var j :| 0 <= j < |w| && w[j] == id;
            assert p[j] == id;
          }
        }
        SortedWireCount(l, p, n - 1);
      } else {
        forall i | 0 <= i < |w| ensures w[i] < n - 1 { assert w[i] in w; }
        SortedWireCount(l, w, n - 1);
      }
    }
  }

  // sent + rejected + still queued == accepted
  lemma Conservation(l: Ledger)
    requires Valid(l)
    ensures |l.wire| + CountFate(l, Failed, l.next) + |l.queue| == l.next
  {
    CountsAddUp(l, l.next);
    forall i | 0 <= i < |l.queue| ensures l.queue[i].id < l.next { assert Queued(l.queue, l.queue[i].id); }
    SortedQueueCount(l.queue, l.next);
    forall i | 0 <= i < |l.wire| ensures l.wire[i] < l.next { assert l.wire[i] in l.wire; }
    SortedWireCount(l, l.wire, l.next);
  }
}
