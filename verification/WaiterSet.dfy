/**
  The waiter set as the source keeps it: a Set of waiter objects, each with the
  settlement of its promise, shared with the closures that cancel it or time it out.
  Every operation is proved to be the one of the same name on the table of values.
*/
module WaiterSet {
  import opened Options
  import opened Waiters

  class WaiterObject {
    const key: nat
    const requestId: Option<string>
    const timed: bool
    const judge: Message -> Reply
    var outcome: Option<Outcome>      // the `settled` flag and what the promise settled to

    ghost function Value(): Waiter { Waiter(key, requestId, timed, judge) }

    constructor (key: nat, requestId: Option<string>, timed: bool, judge: Message -> Reply)
      ensures Value() == Waiter(key, requestId, timed, judge) && outcome.None?
    {
      this.key, this.requestId, this.timed, this.judge, outcome := key, requestId, timed, judge, None;
    }

    // `wrappedResolve` and `wrappedReject`
    method Settle(o: Outcome)
      modifies this
      ensures outcome == if old(outcome).Some? then old(outcome) else Some(o)
    {
      if outcome.None? { outcome := Some(o); }
    }
  }

  ghost function Values(ws: seq<WaiterObject>): seq<Waiter> {
    seq(|ws|, i requires 0 <= i < |ws| => ws[i].Value())
  }

  function Delete(ws: seq<WaiterObject>, w: WaiterObject): seq<WaiterObject> {
    if ws == [] then [] else if ws[0] == w then Delete(ws[1..], w) else [ws[0]] + Delete(ws[1..], w)
  }

  // Each object is the one made for its key.
  ghost predicate MadeAs(ws: seq<WaiterObject>, made: seq<WaiterObject>) {
    forall i | 0 <= i < |ws| :: ws[i].key < |made| && made[ws[i].key] == ws[i]
  }

  // Deleting an object is deleting its key.
  lemma {:induction false} DeleteIsWithout(ws: seq<WaiterObject>, w: WaiterObject, made: seq<WaiterObject>)
    requires MadeAs(ws, made) && MadeAs([w], made)
    ensures Values(Delete(ws, w)) == Without(Values(ws), w.key) && MadeAs(Delete(ws, w), made)
  {
    assert [w][0] == w;
    if ws != [] {
      var rest := ws[1..];
      DeleteIsWithout(rest, w, made);
      assert Values(ws)[0] == ws[0].Value() && Values(ws)[1..] == Values(rest);
      assert ws[0].key == w.key ==> ws[0] == w;
      if ws[0] != w { assert Values([ws[0]] + Delete(rest, w)) == [ws[0].Value()] + Values(Delete(rest, w)); }
    }
  }

  ghost function Settlement(outcomes: map<nat, Outcome>, k: nat): Option<Outcome> {
    if k in outcomes then Some(outcomes[k]) else None
  }

  class WaiterSet {
    var waiters: seq<WaiterObject>    // the Set, in insertion order
    var made: seq<WaiterObject>       // every waiter ever, which its closures still hold
    ghost var table: Table

    ghost predicate Holds(outcomes: map<nat, Outcome>)
      reads this`made, made
    {
      && (forall k | 0 <= k < |made| :: made[k].outcome == Settlement(outcomes, k))
      && (forall k | k in outcomes :: k < |made|)
    }

    ghost predicate Linked()
      reads this
    {
      && |made| == table.next && (forall k | 0 <= k < |made| :: made[k].key == k)
      && MadeAs(waiters, made) && Values(waiters) == table.pending
    }

    ghost predicate Valid()
      reads this, made
    {
      Linked() && Holds(table.outcomes)
    }

    constructor ()
      ensures Valid() && table == EMPTY && made == []
    {
      waiters, made, table := [], [], EMPTY;
    }

    method Add(requestId: Option<string>, timed: bool, judge: Message -> Reply) returns (w: WaiterObject)
      requires Valid()
      modifies this
      ensures Valid() && table == Waiters.Add(old(table), requestId, timed, judge)
      ensures fresh(w) && made == old(made) + [w] && w.key == old(table).next
    {
      w := new WaiterObject(|made|, requestId, timed, judge);
      waiters, made := waiters + [w], made + [w];
      table := Waiters.Add(table, requestId, timed, judge);
    }

    method Settle(w: WaiterObject, o: Outcome)
      requires Valid() && MadeAs([w], made)
      modifies this`waiters, this`table, w
      ensures Valid() && table == Waiters.Settle(old(table), w.key, o)
    {
      assert [w][0] == w;
      DeleteIsWithout(waiters, w, made);
      waiters := Delete(waiters, w);
      w.Settle(o);
      table := Waiters.Settle(table, w.key, o);
    }

    // Settling an object without taking it from the set.
    method Mark(w: WaiterObject, o: Outcome, ghost outcomes: map<nat, Outcome>)
      requires Linked() && Holds(outcomes) && MadeAs([w], made)
      modifies w
      ensures Linked() && Holds(Record(outcomes, w.key, o))
    {
      assert [w][0] == w;
      w.Settle(o);
    }

    method Clear(reason: Reason)
      requires Valid()
      modifies this`waiters, this`table, made
      ensures Valid() && table == Waiters.Clear(old(table), reason)
    {
      ghost var outcomes := table.outcomes;
      var i := 0;
      while i < |waiters|
        invariant i <= |waiters| && waiters == old(waiters) && table == old(table) && Linked() && Holds(outcomes)
        invariant RecordAll(Values(waiters)[i..], outcomes, Rejected(reason)) ==
                  RecordAll(table.pending, table.outcomes, Rejected(reason))
      {
        ghost var rest := Values(waiters)[i..];
        assert rest[0] == waiters[i].Value() && rest[1..] == Values(waiters)[i + 1..];
        Mark(waiters[i], Rejected(reason), outcomes);
        outcomes := Record(outcomes, waiters[i].key, Rejected(reason));
        i := i + 1;
      }
      waiters, table := [], Waiters.Clear(table, reason);
    }

    // One turn of the loop: the predicate may clear the set under it.
    method ResolveOne(w: WaiterObject, msg: Message)
      requires Valid() && MadeAs([w], made)
      modifies this`waiters, this`table, made
      ensures Valid() && table == Waiters.ResolveOne(old(table), w.Value(), msg)
    {
      assert [w][0] == w;
      var reply := w.judge(msg);
      if reply.clears { Clear(ClientClosed); }
      match reply.verdict {
        case Miss =>
        case Hit(v) => Settle(w, Resolved(v));
        case Throws(error) => Settle(w, Rejected(Threw(error)));
      }
    }

    method Resolve(msg: Message)
      requires Valid()
      modifies this`waiters, this`table, made
      ensures Valid() && table == Waiters.Resolve(old(table), msg)
    {
      var snapshot, i := waiters, 0;
      while i < |snapshot|
        invariant i <= |snapshot| && Valid()
        invariant ResolveFrom(Values(snapshot)[i..], table, msg) == Waiters.Resolve(old(table), msg)
      {
        ghost var rest := Values(snapshot)[i..];
        assert rest[0] == snapshot[i].Value() && rest[1..] == Values(snapshot)[i + 1..];
        ResolveOne(snapshot[i], msg);
        i := i + 1;
      }
    }

    method RejectForRequestId(requestId: string)
      requires Valid()
      modifies this`waiters, this`table, made
      ensures Valid() && table == Waiters.RejectForRequestId(old(table), requestId)
    {
      var snapshot, i := waiters, 0;
      while i < |snapshot|
        invariant i <= |snapshot| && Valid()
        invariant RejectFrom(Values(snapshot)[i..], table, requestId) ==
                  Waiters.RejectForRequestId(old(table), requestId)
      {
        var w := snapshot[i];
        ghost var rest := Values(snapshot)[i..];
        assert rest[0] == w.Value() && rest[1..] == Values(snapshot)[i + 1..] && [w][0] == w;
        if w.requestId == Some(requestId) { Settle(w, Rejected(Malformed)); }
        i := i + 1;
      }
    }

    // The `cancel` closure.
    method Cancel(w: WaiterObject)
      requires Valid() && MadeAs([w], made)
      modifies this`waiters, this`table, w
      ensures Valid() && table == Waiters.Cancel(old(table), w.key)
    {
      assert [w][0] == w;
      if w.outcome.None? { Settle(w, Rejected(Cancelled)); }
    }

    // The timeout, whose handle is cleared whenever the waiter leaves the set.
    method Timeout(w: WaiterObject)
      requires Valid() && MadeAs([w], made)
      modifies this`waiters, this`table, w
      ensures Valid() && table == Waiters.Timeout(old(table), w.key)
    {
      assert [w][0] == w;
      if w.timed && w in waiters {
        assert TimerArmed(table, w.key) by {
          var i :| 0 <= i < |waiters| && waiters[i] == w;
          assert table.pending[i] == w.Value();
        }
        Settle(w, Rejected(TimedOut));
      } else if i :| 0 <= i < |waiters| && waiters[i].key == w.key && waiters[i].timed {
        assert waiters[i] == w;
      }
    }
  }
}
