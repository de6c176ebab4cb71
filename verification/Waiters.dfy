/**
  The set of pending RPC waiters of the daemon client.

  A waiter is one promise together with the predicate that recognises its reply.
  `pending` is the JavaScript Set in insertion order; `outcomes` is the `settled`
  flag and the promise value that each waiter's closure carries.
*/
module Waiters {
  import opened Options

  // A validated session message, reduced to what the RPC predicates look at.
  datatype Message = Message(kind: string, requestId: string, payload: string)

  // What a waiter promise resolves to: a payload, or the daemon's `rpc_error`.
  datatype Value = Payload(text: string) | RpcFailure(error: string)

  datatype Verdict = Miss | Hit(value: Value) | Throws(error: string)

  // What running a predicate does: its verdict, and whether it re-entered the
  // client and cleared the waiter set while the delivery loop was iterating.
  datatype Reply = Reply(verdict: Verdict, clears: bool)

  datatype Reason = ConnectionLost | ClientClosed | TimedOut | Cancelled | Malformed | Threw(error: string)

  datatype Outcome = Resolved(value: Value) | Rejected(reason: Reason)

  datatype Waiter = Waiter(key: nat, requestId: Option<string>, timed: bool, judge: Message -> Reply)

  datatype Table = Table(pending: seq<Waiter>, outcomes: map<nat, Outcome>, next: nat)

  const EMPTY := Table([], map[], 0)

  predicate HasKey(ws: seq<Waiter>, key: nat) {
    exists i | 0 <= i < |ws| :: ws[i].key == key
  }

  predicate Distinct(ws: seq<Waiter>) {
    forall i, j | 0 <= i < j < |ws| :: ws[i].key != ws[j].key
  }

  // A waiter is in the set exactly when its promise is unsettled.
  ghost predicate Valid(t: Table) {
    && Distinct(t.pending)
    && (forall k :: k in t.outcomes ==> k < t.next)
    && (forall k: nat :: HasKey(t.pending, k) <==> k < t.next && k !in t.outcomes)
  }

  // ---------------------------------------------------------------- operations

  function Without(ws: seq<Waiter>, key: nat): (r: seq<Waiter>)
    ensures forall k: nat :: HasKey(r, k) ==> HasKey(ws, k) && k != key
  {
    if ws == [] then []
    else
      var rest := Without(ws[1..], key);
      assert forall k: nat :: HasKey(ws[1..], k) ==> HasKey(ws, k) by { HasKeyOfTail(ws); }
      if ws[0].key == key then rest
      else
        assert forall k: nat :: HasKey([ws[0]] + rest, k) ==> k == ws[0].key || HasKey(rest, k) by {
          HasKeyOfCons(ws[0], rest);
        }
        [ws[0]] + rest
  }

  // `wrappedResolve` and `wrappedReject`: only the first settlement counts.
  function Record(outcomes: map<nat, Outcome>, key: nat, o: Outcome): map<nat, Outcome> {
    if key in outcomes then outcomes else outcomes[key := o]
  }

  function Settle(t: Table, key: nat, o: Outcome): Table {
    Table(Without(t.pending, key), Record(t.outcomes, key, o), t.next)
  }

  // `waitForWithCancel`: a new waiter joins the set unsettled.
  function Add(t: Table, requestId: Option<string>, timed: bool, judge: Message -> Reply): Table {
    Table(t.pending + [Waiter(t.next, requestId, timed, judge)], t.outcomes, t.next + 1)
  }

  function RecordAll(ws: seq<Waiter>, outcomes: map<nat, Outcome>, o: Outcome): map<nat, Outcome> {
    if ws == [] then outcomes else RecordAll(ws[1..], Record(outcomes, ws[0].key, o), o)
  }

  // `clearWaiters`
  function Clear(t: Table, reason: Reason): Table {
    Table([], RecordAll(t.pending, t.outcomes, Rejected(reason)), t.next)
  }

  // One turn of the `resolveWaiters` loop.
  function ResolveOne(t: Table, w: Waiter, msg: Message): Table {
    var reply := w.judge(msg);
    var t1 := if reply.clears then Clear(t, ClientClosed) else t;
    match reply.verdict
    case Miss => t1
    case Hit(v) => Settle(t1, w.key, Resolved(v))
    case Throws(e) => Settle(t1, w.key, Rejected(Threw(e)))
  }

  function ResolveFrom(snapshot: seq<Waiter>, t: Table, msg: Message): Table {
    if snapshot == [] then t else ResolveFrom(snapshot[1..], ResolveOne(t, snapshot[0], msg), msg)
  }

  // `resolveWaiters`: the loop runs over a snapshot of the set.
  function Resolve(t: Table, msg: Message): Table {
    ResolveFrom(t.pending, t, msg)
  }

  function RejectFrom(snapshot: seq<Waiter>, t: Table, requestId: string): Table {
    if snapshot == [] then t
    else if snapshot[0].requestId != Some(requestId) then RejectFrom(snapshot[1..], t, requestId)
    else RejectFrom(snapshot[1..], Settle(t, snapshot[0].key, Rejected(Malformed)), requestId)
  }

  // `rejectWaitersForRequestId`
  function RejectForRequestId(t: Table, requestId: string): Table {
    RejectFrom(t.pending, t, requestId)
  }

  predicate TimerArmed(t: Table, key: nat) {
    exists i | 0 <= i < |t.pending| :: t.pending[i].key == key && t.pending[i].timed
  }

  // The waiter's timeout: its handle is cleared whenever the waiter leaves the set.
  function Timeout(t: Table, key: nat): Table {
    if TimerArmed(t, key) then Settle(t, key, Rejected(TimedOut)) else t
  }

  // The `cancel` closure: nothing happens once the promise is settled.
  function Cancel(t: Table, key: nat): Table {
    if key in t.outcomes || key >= t.next then t else Settle(t, key, Rejected(Cancelled))
  }

  // ------------------------------------------------------------------- helpers

  lemma HasKeyOfTail(ws: seq<Waiter>)
    requires ws != []
    ensures forall k: nat :: HasKey(ws, k) <==> k == ws[0].key || HasKey(ws[1..], k)
  {
  }

  lemma HasKeyOfCons(w: Waiter, ws: seq<Waiter>)
    ensures forall k: nat :: HasKey([w] + ws, k) <==> k == w.key || HasKey(ws, k)
  {
    assert ([w] + ws)[1..] == ws;
    HasKeyOfTail([w] + ws);
  }

  lemma {:induction false} WithoutKeys(ws: seq<Waiter>, key: nat)
    requires Distinct(ws)
    ensures Distinct(Without(ws, key))
    ensures forall k: nat :: HasKey(Without(ws, key), k) <==> HasKey(ws, k) && k != key
  {
    if ws != [] {
      var rest := Without(ws[1..], key);
      WithoutKeys(ws[1..], key);
      HasKeyOfTail(ws);
      HasKeyOfCons(ws[0], rest);
      forall i | 0 <= i < |rest| ensures rest[i].key != ws[0].key {
        assert HasKey(rest, rest[i].key);
      }
    }
  }

  lemma {:induction false} RecordAllAt(ws: seq<Waiter>, outcomes: map<nat, Outcome>, o: Outcome)
    ensures var r := RecordAll(ws, outcomes, o);
            forall k: nat :: (k in r <==> k in outcomes || HasKey(ws, k))
                             && (k in r ==> r[k] == if k in outcomes then outcomes[k] else o)
  {
    if ws != [] {
      RecordAllAt(ws[1..], Record(outcomes, ws[0].key, o), o);
      HasKeyOfTail(ws);
    }
  }

  // ---------------------------------------------------- the set-membership law

  lemma SettleKeepsValid(t: Table, key: nat, o: Outcome)
    requires Valid(t) && key < t.next
    ensures Valid(Settle(t, key, o))
  {
    WithoutKeys(t.pending, key);
  }

  lemma AddKeepsValid(t: Table, requestId: Option<string>, timed: bool, judge: Message -> Reply)
    requires Valid(t)
    ensures Valid(Add(t, requestId, timed, judge))
    ensures HasKey(Add(t, requestId, timed, judge).pending, t.next)
  {
    var w := Waiter(t.next, requestId, timed, judge);
    var ws := t.pending + [w];
    forall k: nat ensures HasKey(ws, k) <==> k == t.next || HasKey(t.pending, k) {
      if HasKey(t.pending, k) {
        var i :| 0 <= i < |t.pending| && t.pending[i].key == k;
        assert ws[i].key == k;
      }
      assert ws[|t.pending|].key == t.next;
    }
    forall i | 0 <= i < |t.pending| ensures t.pending[i].key < t.next {
      assert HasKey(t.pending, t.pending[i].key);
    }
  }

  lemma ClearKeepsValid(t: Table, reason: Reason)
    requires Valid(t)
    ensures Valid(Clear(t, reason)) && Clear(t, reason).pending == []
  {
    RecordAllAt(t.pending, t.outcomes, Rejected(reason));
  }

  lemma {:induction false} ResolveFromKeepsValid(snapshot: seq<Waiter>, t: Table, msg: Message)
    requires Valid(t) && forall i | 0 <= i < |snapshot| :: snapshot[i].key < t.next
    ensures Valid(ResolveFrom(snapshot, t, msg)) && ResolveFrom(snapshot, t, msg).next == t.next
  {
    if snapshot != [] {
      var w := snapshot[0];
      var reply := w.judge(msg);
      ClearKeepsValid(t, ClientClosed);
      var t1 := if reply.clears then Clear(t, ClientClosed) else t;
      match reply.verdict {
        case Miss =>
        case Hit(v) => SettleKeepsValid(t1, w.key, Resolved(v));
        case Throws(e) => SettleKeepsValid(t1, w.key, Rejected(Threw(e)));
      }
      ResolveFromKeepsValid(snapshot[1..], ResolveOne(t, w, msg), msg);
    }
  }

  lemma PendingKeys(t: Table)
    requires Valid(t)
    ensures forall i | 0 <= i < |t.pending| :: t.pending[i].key < t.next && t.pending[i].key !in t.outcomes
  {
    forall i | 0 <= i < |t.pending| ensures t.pending[i].key < t.next && t.pending[i].key !in t.outcomes {
      assert HasKey(t.pending, t.pending[i].key);
    }
  }

  // Delivery keeps the law whatever the predicates do, even when one of them
  // clears the set half way through the snapshot.
  lemma ResolveKeepsValid(t: Table, msg: Message)
    requires Valid(t)
    ensures Valid(Resolve(t, msg)) && Resolve(t, msg).next == t.next
  {
    PendingKeys(t);
    ResolveFromKeepsValid(t.pending, t, msg);
  }

  lemma {:induction false} RejectFromKeepsValid(snapshot: seq<Waiter>, t: Table, requestId: string)
    requires Valid(t) && forall i | 0 <= i < |snapshot| :: snapshot[i].key < t.next
    ensures Valid(RejectFrom(snapshot, t, requestId)) && RejectFrom(snapshot, t, requestId).next == t.next
  {
    if snapshot != [] {
      SettleKeepsValid(t, snapshot[0].key, Rejected(Malformed));
      RejectFromKeepsValid(snapshot[1..],
        if snapshot[0].requestId != Some(requestId) then t
        else Settle(t, snapshot[0].key, Rejected(Malformed)), requestId);
    }
  }

  lemma RejectForKeepsValid(t: Table, requestId: string)
    requires Valid(t)
    ensures Valid(RejectForRequestId(t, requestId)) && RejectForRequestId(t, requestId).next == t.next
  {
    PendingKeys(t);
    RejectFromKeepsValid(t.pending, t, requestId);
  }

  lemma TimeoutKeepsValid(t: Table, key: nat)
    requires Valid(t)
    ensures Valid(Timeout(t, key)) && Timeout(t, key).next == t.next
  {
    if TimerArmed(t, key) {
      assert HasKey(t.pending, key);
      SettleKeepsValid(t, key, Rejected(TimedOut));
    }
  }

  lemma CancelKeepsValid(t: Table, key: nat)
    requires Valid(t)
    ensures Valid(Cancel(t, key)) && Cancel(t, key).next == t.next
  {
    if key !in t.outcomes && key < t.next { SettleKeepsValid(t, key, Rejected(Cancelled)); }
  }

  // ----------------------------------------------------------- settle-once law

  // No operation on the table ever changes the value of a settled promise.
  ghost predicate Preserves(t: Table, t': Table) {
    t.next <= t'.next && forall k :: k in t.outcomes ==> k in t'.outcomes && t'.outcomes[k] == t.outcomes[k]
  }

  lemma {:induction false} ResolveFromSettlesOnce(snapshot: seq<Waiter>, t: Table, msg: Message)
    ensures Preserves(t, ResolveFrom(snapshot, t, msg))
  {
    if snapshot != [] {
      RecordAllAt(t.pending, t.outcomes, Rejected(ClientClosed));
      ResolveFromSettlesOnce(snapshot[1..], ResolveOne(t, snapshot[0], msg), msg);
    }
  }

  lemma {:induction false} RejectFromSettlesOnce(snapshot: seq<Waiter>, t: Table, requestId: string)
    ensures Preserves(t, RejectFrom(snapshot, t, requestId))
  {
    if snapshot != [] {
      RejectFromSettlesOnce(snapshot[1..],
        if snapshot[0].requestId != Some(requestId) then t
        else Settle(t, snapshot[0].key, Rejected(Malformed)), requestId);
    }
  }

  lemma SettledOnce(t: Table, msg: Message, id: string, key: nat, reason: Reason)
    ensures Preserves(t, Resolve(t, msg))
    ensures Preserves(t, RejectForRequestId(t, id))
    ensures Preserves(t, Clear(t, reason))
    ensures Preserves(t, Timeout(t, key)) && Preserves(t, Cancel(t, key))
  {
    ResolveFromSettlesOnce(t.pending, t, msg);
    RejectFromSettlesOnce(t.pending, t, id);
    RecordAllAt(t.pending, t.outcomes, Rejected(reason));
  }

  // ---------------------------------------------------- what a delivery settles

  // The outcome one inbound frame gives one waiter, if any.
  datatype Inbound = Validated(msg: Message) | Invalid(requestId: string)

  function IdOf(x: Inbound): string {
    match x case Validated(m) => m.requestId case Invalid(id) => id
  }

  function VerdictOn(w: Waiter, x: Inbound): Option<Outcome> {
    match x
    case Validated(m) =>
      (match w.judge(m).verdict
       case Miss => None
       case Hit(v) => Some(Resolved(v))
       case Throws(e) => Some(Rejected(Threw(e))))
    case Invalid(id) => if w.requestId == Some(id) then Some(Rejected(Malformed)) else None
  }

  function ReceiveFrom(snapshot: seq<Waiter>, t: Table, x: Inbound): Table {
    match x
    case Validated(m) => ResolveFrom(snapshot, t, m)
    case Invalid(id) => RejectFrom(snapshot, t, id)
  }

  // `handleJsonPayload`, as far as the waiters are concerned.
  function Receive(t: Table, x: Inbound): Table {
    match x
    case Validated(m) => Resolve(t, m)
    case Invalid(id) => RejectForRequestId(t, id)
  }

  // A waiter made by `sendRequest`: its predicate only looks at messages that
  // carry its own request id, and has no side effect.
  ghost predicate Correlated(w: Waiter) {
    && w.requestId.Some?
    && forall m: Message :: !w.judge(m).clears
                   && (w.judge(m).verdict != Miss ==> m.requestId == w.requestId.value)
  }

  ghost predicate NeverClears(ws: seq<Waiter>) {
    forall i, m: Message | 0 <= i < |ws| :: !ws[i].judge(m).clears
  }

  ghost predicate NoneClears(ws: seq<Waiter>, x: Inbound) {
    x.Validated? ==> forall i | 0 <= i < |ws| :: !ws[i].judge(x.msg).clears
  }

  // The predicate that `sendCorrelatedRequest` hands to `sendRequest`.
  function RequestJudge(requestId: string, responseType: string, select: string -> Verdict): Message -> Reply {
    (m: Message) =>
      if m.kind == "rpc_error" && m.requestId == requestId then Reply(Hit(RpcFailure(m.payload)), false)
      else if m.kind != responseType then Reply(Miss, false)
      else if m.requestId != requestId then Reply(Miss, false)
      else Reply(select(m.payload), false)
  }

  lemma RequestJudgeIsCorrelated(key: nat, timed: bool, requestId: string, responseType: string,
                                 select: string -> Verdict)
    ensures Correlated(Waiter(key, Some(requestId), timed, RequestJudge(requestId, responseType, select)))
  {
  }

  lemma {:induction false} WithoutKeeps(ws: seq<Waiter>, key: nat)
    ensures forall i :: 0 <= i < |Without(ws, key)| ==> Without(ws, key)[i] in ws
    ensures forall i :: 0 <= i < |ws| && ws[i].key != key ==> ws[i] in Without(ws, key)
  {
    if ws != [] { WithoutKeeps(ws[1..], key); }
  }

  // Delivering one frame to the rest of the snapshot settles exactly the
  // snapshot's waiters that the frame is for, and leaves every other one as it was.
  lemma {:induction false} ReceiveFromAt(snapshot: seq<Waiter>, t: Table, x: Inbound, k: nat)
    requires Distinct(snapshot) && NoneClears(snapshot, x)
    requires forall i | 0 <= i < |snapshot| :: snapshot[i].key !in t.outcomes
    ensures var r := ReceiveFrom(snapshot, t, x);
            && (k in r.outcomes <==>
                  k in t.outcomes || exists i | 0 <= i < |snapshot| ::
                    snapshot[i].key == k && VerdictOn(snapshot[i], x).Some?)
            && (forall i | 0 <= i < |snapshot| :: snapshot[i].key == k && VerdictOn(snapshot[i], x).Some? ==>
                  k in r.outcomes && r.outcomes[k] == VerdictOn(snapshot[i], x).value)
            && (k in t.outcomes ==> r.outcomes[k] == t.outcomes[k])
  {
    if snapshot != [] {
      var w, rest := snapshot[0], snapshot[1..];
      var t1 := if x.Validated? then ResolveOne(t, w, x.msg)
                else if w.requestId != Some(x.requestId) then t else Settle(t, w.key, Rejected(Malformed));
      assert forall i | 0 <= i < |rest| :: rest[i] == snapshot[i + 1];
      ReceiveFromAt(rest, t1, x, k);
    }
  }

  lemma {:induction false} ReceiveFromPending(snapshot: seq<Waiter>, t: Table, x: Inbound)
    ensures var r := ReceiveFrom(snapshot, t, x);
            forall i :: 0 <= i < |r.pending| ==> r.pending[i] in t.pending
  {
    if snapshot != [] {
      var w, rest := snapshot[0], snapshot[1..];
      var t1 := if x.Validated? then ResolveOne(t, w, x.msg)
                else if w.requestId != Some(x.requestId) then t else Settle(t, w.key, Rejected(Malformed));
      WithoutKeeps(t.pending, w.key);
      WithoutKeeps([], w.key);
      assert forall i :: 0 <= i < |t1.pending| ==> t1.pending[i] in t.pending;
      ReceiveFromPending(rest, t1, x);
      var r := ReceiveFrom(snapshot, t, x);
      assert r == ReceiveFrom(rest, t1, x);
      forall i | 0 <= i < |r.pending| ensures r.pending[i] in t.pending {
        var j :| 0 <= j < |t1.pending| && t1.pending[j] == r.pending[i];
      }
    }
  }

  // One frame, seen from one waiter: it is settled with the frame's verdict, or
  // stays in the set.
  lemma ReceiveAt(t: Table, x: Inbound, i: nat)
    requires Valid(t) && NeverClears(t.pending) && i < |t.pending|
    ensures Valid(Receive(t, x)) && Receive(t, x).next == t.next
    ensures var k := t.pending[i].key; var r := Receive(t, x); var v := VerdictOn(t.pending[i], x);
            if v.Some? then k in r.outcomes && r.outcomes[k] == v.value
            else k !in r.outcomes && exists j | 0 <= j < |r.pending| :: r.pending[j] == t.pending[i]
    ensures NeverClears(Receive(t, x).pending)
  {
    var w := t.pending[i];
    PendingKeys(t);
    ReceiveFromAt(t.pending, t, x, w.key);
    ReceiveFromPending(t.pending, t, x);
    match x { case Validated(m) => ResolveKeepsValid(t, m); case Invalid(id) => RejectForKeepsValid(t, id); }
    var r := Receive(t, x);
    forall j, m: Message | 0 <= j < |r.pending| ensures !r.pending[j].judge(m).clears {
      assert r.pending[j] in t.pending;
      var n :| 0 <= n < |t.pending| && t.pending[n] == r.pending[j];
    }
    if VerdictOn(w, x).None? {
      assert w.key !in r.outcomes;
      assert HasKey(r.pending, w.key);
      var j :| 0 <= j < |r.pending| && r.pending[j].key == w.key;
      assert r.pending[j] in t.pending;
    }
  }

  // The first waiter whose predicate clears the set on this message, if there is one.
  function FirstClearing(ws: seq<Waiter>, m: Message): (c: nat)
    ensures c <= |ws| && (forall i | 0 <= i < c :: !ws[i].judge(m).clears)
    ensures c < |ws| ==> ws[c].judge(m).clears
  {
    if ws == [] || ws[0].judge(m).clears then 0
    else
      var c := FirstClearing(ws[1..], m);
      assert forall i | 0 < i < 1 + c :: ws[i] == ws[1..][i - 1];
      1 + c
  }

  // What a frame settles a waiter of the set with: its verdict, unless a predicate that
  // comes first clears the set and so rejects it, and the one that clears it too.
  function OutcomeOn(ws: seq<Waiter>, w: Waiter, x: Inbound): Option<Outcome> {
    var v, c := VerdictOn(w, x), if x.Validated? then FirstClearing(ws, x.msg) else |ws|;
    if c == |ws| || (HasKey(ws[..c], w.key) && v.Some?) then v else Some(Rejected(ClientClosed))
  }

  lemma {:induction false} ResolveFromAppend(a: seq<Waiter>, b: seq<Waiter>, t: Table, m: Message)
    ensures ResolveFrom(a + b, t, m) == ResolveFrom(b, ResolveFrom(a, t, m), m)
  {
    if a == [] {
      assert a + b == b;
    } else {
      assert (a + b)[1..] == a[1..] + b;
      ResolveFromAppend(a[1..], b, ResolveOne(t, a[0], m), m);
    }
  }

  // The predicate of `v` clears the set: whoever is in it is rejected.
  lemma ClearingTurn(t: Table, v: Waiter, m: Message, k: nat)
    requires v.judge(m).clears && (k in t.outcomes || HasKey(t.pending, k))
    ensures var r := ResolveOne(t, v, m);
            && r.pending == [] && k in r.outcomes
            && r.outcomes[k] == if k in t.outcomes then t.outcomes[k] else Rejected(ClientClosed)
  {
    RecordAllAt(t.pending, t.outcomes, Rejected(ClientClosed));
  }

  lemma NothingPending(b: seq<Waiter>, t: Table, m: Message, k: nat)
    requires t.pending == [] && k in t.outcomes
    ensures var r := ResolveFrom(b, t, m); r.pending == [] && k in r.outcomes && r.outcomes[k] == t.outcomes[k]
  {
    ResolveFromSettlesOnce(b, t, m);
    ReceiveFromPending(b, t, Validated(m));
    var r := ResolveFrom(b, t, m);
    assert r == ReceiveFrom(b, t, Validated(m));
  }

  // The turns before the one that clears the set.
  lemma BeforeClearing(t: Table, m: Message, c: nat, i: nat)
    requires Valid(t) && c <= |t.pending| && i < |t.pending| && NoneClears(t.pending[..c], Validated(m))
    ensures var k, v := t.pending[i].key, VerdictOn(t.pending[i], Validated(m));
            var t1 := ResolveFrom(t.pending[..c], t, m);
            if i < c && v.Some? then k in t1.outcomes && t1.outcomes[k] == v.value
            else k !in t1.outcomes && HasKey(t1.pending, k)
  {
    var k, a := t.pending[i].key, t.pending[..c];
    PendingKeys(t);
    ReceiveFromAt(a, t, Validated(m), k);
    ResolveFromKeepsValid(a, t, m);
    assert ReceiveFrom(a, t, Validated(m)) == ResolveFrom(a, t, m);
    if i < c { assert a[i] == t.pending[i]; }
    assert forall j | 0 <= j < |a| :: a[j].key == k ==> j == i;
  }

  // A delivery during which a predicate clears the set settles every waiter of it.
  lemma ClearedDelivery(t: Table, m: Message, i: nat)
    requires Valid(t) && i < |t.pending| && FirstClearing(t.pending, m) < |t.pending|
    ensures var k, v, c := t.pending[i].key, VerdictOn(t.pending[i], Validated(m)), FirstClearing(t.pending, m);
            var r := Resolve(t, m);
            && r.pending == [] && k in r.outcomes
            && r.outcomes[k] == if i < c && v.Some? then v.value else Rejected(ClientClosed)
  {
    var k, c := t.pending[i].key, FirstClearing(t.pending, m);
    var a, v, b := t.pending[..c], t.pending[c], t.pending[c + 1..];
    assert t.pending == a + ([v] + b);
    ResolveFromAppend(a, [v] + b, t, m);
    BeforeClearing(t, m, c, i);
    var t1 := ResolveFrom(a, t, m);
    ClearingTurn(t1, v, m, k);
    assert ([v] + b)[1..] == b;
    NothingPending(b, ResolveOne(t1, v, m), m, k);
  }

  lemma PositionIs(ws: seq<Waiter>, c: nat, i: nat)
    requires Distinct(ws) && c <= |ws| && i < |ws|
    ensures HasKey(ws[..c], ws[i].key) <==> i < c
  {
    if i < c { assert ws[..c][i].key == ws[i].key; }
  }

  // One frame, seen from one waiter, whatever the predicates of the others do.
  lemma DeliveryAt(t: Table, x: Inbound, i: nat)
    requires Valid(t) && i < |t.pending|
    ensures var k, r, o := t.pending[i].key, Receive(t, x), OutcomeOn(t.pending, t.pending[i], x);
            if o.Some? then k in r.outcomes && r.outcomes[k] == o.value
            else k !in r.outcomes && t.pending[i] in r.pending
  {
    var w := t.pending[i];
    if x.Validated? && FirstClearing(t.pending, x.msg) < |t.pending| {
      ClearedDelivery(t, x.msg, i);
      PositionIs(t.pending, FirstClearing(t.pending, x.msg), i);
    } else {
      PendingKeys(t);
      ReceiveFromAt(t.pending, t, x, w.key);
      StillPending(t, x, w);
    }
  }

  lemma StillPending(t: Table, x: Inbound, w: Waiter)
    requires Valid(t) && w in t.pending
    ensures Valid(Receive(t, x)) && Receive(t, x).next == t.next
    ensures w.key in Receive(t, x).outcomes || w in Receive(t, x).pending
  {
    match x { case Validated(m) => ResolveKeepsValid(t, m); case Invalid(id) => RejectForKeepsValid(t, id); }
    ReceiveFromPending(t.pending, t, x);
    PendingKeys(t);
    var r := Receive(t, x);
    assert r == ReceiveFrom(t.pending, t, x);
    if w.key !in r.outcomes {
      assert HasKey(r.pending, w.key);
      var j :| 0 <= j < |r.pending| && r.pending[j].key == w.key;
      assert r.pending[j] in t.pending;
    }
  }

  // A malformed response rejects the waiters that carry its request id and no other.
  lemma MalformedReplyIsExact(t: Table, id: string, k: nat)
    requires Valid(t)
    ensures var r := RejectForRequestId(t, id);
            && (k in r.outcomes && k !in t.outcomes <==>
                  exists i | 0 <= i < |t.pending| :: t.pending[i].key == k && t.pending[i].requestId == Some(id))
            && (k in r.outcomes && k !in t.outcomes ==> r.outcomes[k] == Rejected(Malformed))
  {
    var silent := seq(|t.pending|,
        i requires 0 <= i < |t.pending| => t.pending[i].(judge := (m: Message) => Reply(Miss, false)));
    PendingKeys(t);
    RejectIgnoresJudge(t.pending, silent, t, id);
    ReceiveFromAt(silent, t, Invalid(id), k);
    assert forall i | 0 <= i < |silent| ::
      silent[i].key == t.pending[i].key && silent[i].requestId == t.pending[i].requestId;
    if k in RejectForRequestId(t, id).outcomes && k !in t.outcomes {
      var i :| 0 <= i < |silent| && silent[i].key == k && VerdictOn(silent[i], Invalid(id)).Some?;
      assert t.pending[i].key == k && t.pending[i].requestId == Some(id);
    }
    if i :| 0 <= i < |t.pending| && t.pending[i].key == k && t.pending[i].requestId == Some(id) {
      assert silent[i].key == k && VerdictOn(silent[i], Invalid(id)).Some?;
    }
  }

  lemma {:induction false} RejectIgnoresJudge(a: seq<Waiter>, b: seq<Waiter>, t: Table, id: string)
    requires |a| == |b| && forall i | 0 <= i < |a| :: a[i].key == b[i].key && a[i].requestId == b[i].requestId
    ensures RejectFrom(a, t, id) == RejectFrom(b, t, id)
  {
    if a != [] {
      RejectIgnoresJudge(a[1..], b[1..],
        if a[0].requestId != Some(id) then t else Settle(t, a[0].key, Rejected(Malformed)), id);
    }
  }

  // -------------------------------------------------- reply-order independence

  function ReceiveAll(t: Table, xs: seq<Inbound>): Table
    decreases xs
  {
    if xs == [] then t else ReceiveAll(Receive(t, xs[0]), xs[1..])
  }

  // The first frame that settles `w`, and what it settles it with.
  function FirstVerdict(w: Waiter, xs: seq<Inbound>): Option<Outcome> {
    if xs == [] then None
    else if VerdictOn(w, xs[0]).Some? then VerdictOn(w, xs[0])
    else FirstVerdict(w, xs[1..])
  }

  lemma {:induction false} ReceiveAllPreserves(t: Table, xs: seq<Inbound>)
    ensures Preserves(t, ReceiveAll(t, xs))
    decreases xs
  {
    if xs != [] {
      match xs[0] {
        case Validated(m) => ResolveFromSettlesOnce(t.pending, t, m);
        case Invalid(id) => RejectFromSettlesOnce(t.pending, t, id);
      }
      ReceiveAllPreserves(Receive(t, xs[0]), xs[1..]);
    }
  }

  // Over any run of inbound frames a waiter ends with the verdict of the first
  // frame that is for it, and stays pending when there is none.
  lemma {:induction false} OutcomeIsFirstVerdict(t: Table, xs: seq<Inbound>, i: nat)
    requires Valid(t) && NeverClears(t.pending) && i < |t.pending|
    ensures var k := t.pending[i].key; var r := ReceiveAll(t, xs); var v := FirstVerdict(t.pending[i], xs);
            if v.Some? then k in r.outcomes && r.outcomes[k] == v.value else k !in r.outcomes
    decreases xs
  {
    if xs == [] {
      PendingKeys(t);
    } else {
      var t1 := Receive(t, xs[0]);
      ReceiveAt(t, xs[0], i);
      if VerdictOn(t.pending[i], xs[0]).Some? {
        ReceiveAllPreserves(t1, xs[1..]);
      } else {
        var j :| 0 <= j < |t1.pending| && t1.pending[j] == t.pending[i];
        OutcomeIsFirstVerdict(t1, xs[1..], j);
      }
    }
  }

  ghost predicate AtMostOneFor(id: string, xs: seq<Inbound>) {
    forall i, j | 0 <= i < j < |xs| :: !(IdOf(xs[i]) == id && IdOf(xs[j]) == id)
  }

  lemma {:induction false} FirstVerdictIsSome(w: Waiter, xs: seq<Inbound>)
    ensures FirstVerdict(w, xs).Some? ==> exists i | 0 <= i < |xs| :: VerdictOn(w, xs[i]) == FirstVerdict(w, xs)
    ensures FirstVerdict(w, xs).None? ==> forall i | 0 <= i < |xs| :: VerdictOn(w, xs[i]).None?
  {
    if xs != [] && VerdictOn(w, xs[0]).None? {
      FirstVerdictIsSome(w, xs[1..]);
      if FirstVerdict(w, xs).Some? {
        var i :| 0 <= i < |xs[1..]| && VerdictOn(w, xs[1..][i]) == FirstVerdict(w, xs[1..]);
        assert VerdictOn(w, xs[i + 1]) == FirstVerdict(w, xs);
      }
      forall i | 0 <= i < |xs| && FirstVerdict(w, xs).None? ensures VerdictOn(w, xs[i]).None? {
        if i > 0 { assert xs[1..][i - 1] == xs[i]; }
      }
    }
  }

  lemma MultisetIndex(xs: seq<Inbound>, ys: seq<Inbound>, i: nat) returns (j: nat)
    requires multiset(xs) == multiset(ys) && i < |xs|
    ensures j < |ys| && ys[j] == xs[i]
  {
    assert xs[i] in multiset(xs);
    assert xs[i] in multiset(ys);
    j :| 0 <= j < |ys| && ys[j] == xs[i];
  }

  lemma FirstVerdictOrderFree(w: Waiter, xs: seq<Inbound>, ys: seq<Inbound>)
    requires Correlated(w) && AtMostOneFor(w.requestId.value, xs)
    requires multiset(xs) == multiset(ys)
    ensures FirstVerdict(w, xs) == FirstVerdict(w, ys)
  {
    FirstVerdictIsSome(w, xs);
    FirstVerdictIsSome(w, ys);
    if FirstVerdict(w, xs).Some? {
      var i :| 0 <= i < |xs| && VerdictOn(w, xs[i]) == FirstVerdict(w, xs);
      var j := MultisetIndex(xs, ys, i);
      assert FirstVerdict(w, ys).Some?;
      var j' :| 0 <= j' < |ys| && VerdictOn(w, ys[j']) == FirstVerdict(w, ys);
      var i' := MultisetIndex(ys, xs, j');
      assert IdOf(xs[i]) == w.requestId.value && IdOf(xs[i']) == w.requestId.value;
      assert i == i';
    } else if FirstVerdict(w, ys).Some? {
      var j :| 0 <= j < |ys| && VerdictOn(w, ys[j]) == FirstVerdict(w, ys);
      var i := MultisetIndex(ys, xs, j);
      assert false;
    }
  }

  // Any permutation of the inbound frames gives every request the same outcome,
  // as long as its own id is answered at most once.
  lemma ReplyOrderDoesNotMatter(t: Table, xs: seq<Inbound>, ys: seq<Inbound>, i: nat)
    requires Valid(t) && NeverClears(t.pending)
    requires i < |t.pending| && Correlated(t.pending[i]) && AtMostOneFor(t.pending[i].requestId.value, xs)
    requires multiset(xs) == multiset(ys)
    ensures var k := t.pending[i].key; var a, b := ReceiveAll(t, xs).outcomes, ReceiveAll(t, ys).outcomes;
            (k in a <==> k in b) && (k in a ==> a[k] == b[k])
  {
    FirstVerdictOrderFree(t.pending[i], xs, ys);
    OutcomeIsFirstVerdict(t, xs, i);
    OutcomeIsFirstVerdict(t, ys, i);
  }
}
