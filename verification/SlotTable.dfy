/**
  Histories of attaching, detaching and clearing on the terminal stream router, as
  values: which attaches the slot table lists, and which of them are open.
*/
module SlotTable {
  // ------------------------------------------------------- histories, as values

  // A detach names the attach, by its position among all of them, whose closure it is.
  datatype Command =
    | AttachTo(subscriptionId: string, terminalId: string, slot: int)
    | DetachOf(index: nat)
    | Clear

  function Attached(cs: seq<Command>): nat {
    if cs == [] then 0 else Attached(Front(cs)) + if Last(cs).AttachTo? then 1 else 0
  }

  function Front(cs: seq<Command>): seq<Command> requires cs != [] { cs[..|cs| - 1] }

  function Last(cs: seq<Command>): Command requires cs != [] { cs[|cs| - 1] }

  // A closure can only be called once there is one.
  predicate Callable(cs: seq<Command>) {
    cs != [] ==> Callable(Front(cs)) && (Last(cs).DetachOf? ==> Last(cs).index < Attached(Front(cs)))
  }

  // The attaches that nothing has ended yet.
  function Open(cs: seq<Command>): set<nat> {
    if cs == [] then {}
    else match Last(cs)
      case AttachTo(_, _, _) => Open(Front(cs)) + {Attached(Front(cs))}
      case DetachOf(i) => Open(Front(cs)) - {i}
      case Clear => {}
  }

  // Each detach is called at most once, and not after the slots were cleared.
  predicate Disciplined(cs: seq<Command>) {
    cs != [] ==> Disciplined(Front(cs)) && (Last(cs).DetachOf? ==> Last(cs).index in Open(Front(cs)))
  }

  // The table with its sets named by numbers: `home` is the set that an attach joined
  // and its closure captured, `spots` the slot number a set was made for, `owner` the
  // set that a slot number lists.
  datatype Table = Table(sets: seq<set<nat>>, spots: seq<int>, home: seq<nat>, owner: map<int, nat>)

  ghost predicate Owns(t: Table, s: int, n: nat) {
    n < |t.sets| && n < |t.spots| && t.spots[n] == s && t.sets[n] != {}
  }

  ghost predicate Joined(t: Table, n: nat, i: nat) { i < |t.home| && t.home[i] == n }

  ghost predicate Consistent(t: Table) {
    && |t.spots| == |t.sets|
    && (forall i | 0 <= i < |t.home| :: t.home[i] < |t.sets|)
    && (forall n: nat, i | n < |t.sets| && i in t.sets[n] :: Joined(t, n, i))
    && (forall s | s in t.owner :: Owns(t, s, t.owner[s]))
  }

  function Apply(t: Table, c: Command): Table
    requires Consistent(t) && (c.DetachOf? ==> c.index < |t.home|)
  {
    match c
    case AttachTo(_, _, slot) =>
      var i := |t.home|;
      if slot in t.owner then
        var n := t.owner[slot];
        t.(sets := t.sets[n := t.sets[n] + {i}], home := t.home + [n])
      else Table(t.sets + [{i}], t.spots + [slot], t.home + [|t.sets|], t.owner[slot := |t.sets|])
    case DetachOf(i) =>
      var n := t.home[i];
      var left := t.sets[n] - {i};
      t.(sets := t.sets[n := left], owner := if left == {} then t.owner - {t.spots[n]} else t.owner)
    case Clear => t.(owner := map[])
  }

  predicate Lists(t: Table, i: nat)
    requires Consistent(t) && i < |t.home|
  {
    var n := t.home[i];
    t.spots[n] in t.owner && t.owner[t.spots[n]] == n && i in t.sets[n]
  }

  // The attaches that a frame on their slot reaches.
  function Listed(t: Table): set<nat>
    requires Consistent(t)
  {
    set i | 0 <= i < |t.home| && Lists(t, i)
  }

  // A detach of a set that it leaves empty while another set owns the slot number.
  predicate StaleIn(t: Table, i: nat)
    requires Consistent(t) && i < |t.home|
  {
    var n := t.home[i];
    t.spots[n] in t.owner && t.owner[t.spots[n]] != n && t.sets[n] <= {i}
  }

  lemma AttachConsistent(t: Table, c: Command)
    requires Consistent(t) && c.AttachTo?
    ensures Consistent(Apply(t, c))
  {
    var r := Apply(t, c);
    forall s | s in r.owner ensures Owns(r, s, r.owner[s]) {
      if s in t.owner { assert Owns(t, s, t.owner[s]); }
    }
    forall k: nat, j | k < |r.sets| && j in r.sets[k] ensures Joined(r, k, j) {
      if j != |t.home| { assert Joined(t, k, j); }
    }
  }

  lemma AttachLists(t: Table, c: Command, i: nat)
    requires Consistent(t) && c.AttachTo? && Consistent(Apply(t, c)) && i <= |t.home|
    ensures Lists(Apply(t, c), i) <==> i == |t.home| || Lists(t, i)
  {
    if i < |t.home| {
      var spot := t.spots[t.home[i]];
      if spot in t.owner { assert Owns(t, spot, t.owner[spot]); }
    }
  }

  lemma AttachListed(t: Table, c: Command)
    requires Consistent(t) && c.AttachTo?
    ensures Consistent(Apply(t, c)) && Listed(Apply(t, c)) == Listed(t) + {|t.home|}
  {
    AttachConsistent(t, c);
    forall i: nat | i <= |t.home| ensures Lists(Apply(t, c), i) <==> i == |t.home| || Lists(t, i) {
      AttachLists(t, c, i);
    }
  }

  lemma ClearListed(t: Table)
    requires Consistent(t)
    ensures Consistent(Apply(t, Clear)) && Listed(Apply(t, Clear)) == {}
  {
  }

  // A stale detach loses every attach that its slot number lists; any other loses
  // exactly its own.
  lemma DetachListed(t: Table, i: nat)
    requires Consistent(t) && i < |t.home|
    ensures Consistent(Apply(t, DetachOf(i)))
    ensures !StaleIn(t, i) <==> Listed(Apply(t, DetachOf(i))) == Listed(t) - {i}
  {
    var n, r := t.home[i], Apply(t, DetachOf(i));
    assert Consistent(r) by {
      forall s | s in r.owner ensures Owns(r, s, r.owner[s]) { assert Owns(t, s, t.owner[s]); }
      forall k: nat, j | k < |r.sets| && j in r.sets[k] ensures Joined(r, k, j) { assert Joined(t, k, j); }
    }
    if StaleIn(t, i) {
      var m := t.owner[t.spots[n]];
      assert Owns(t, t.spots[n], m);
      var j :| j in t.sets[m];
      assert Joined(t, m, j);
      assert Lists(t, j) && !Lists(r, j);
      assert j in Listed(t) && j !in Listed(r);
    } else {
      forall j | 0 <= j < |t.home| ensures Lists(r, j) <==> Lists(t, j) && j != i {}
    }
  }

  lemma ApplyKeeps(t: Table, c: Command)
    requires Consistent(t) && (c.DetachOf? ==> c.index < |t.home|)
    ensures Consistent(Apply(t, c))
  {
    match c {
      case AttachTo(_, _, _) => AttachListed(t, c);
      case DetachOf(i) => DetachListed(t, i);
      case Clear => ClearListed(t);
    }
  }

  function TableAfter(cs: seq<Command>): (t: Table)
    requires Callable(cs)
    ensures Consistent(t) && |t.home| == Attached(cs)
  {
    if cs == [] then Table([], [], [], map[])
    else
      var t := TableAfter(Front(cs));
      ApplyKeeps(t, Last(cs));
      Apply(t, Last(cs))
  }

  lemma {:induction false} CallablePrefix(cs: seq<Command>, k: nat)
    requires Callable(cs) && k <= |cs|
    ensures Callable(cs[..k])
  {
    if k < |cs| {
      assert Front(cs)[..k] == cs[..k];
      CallablePrefix(Front(cs), k);
    } else {
      assert cs[..k] == cs;
    }
  }

  // The slot of the `i`-th attach.
  function SlotOf(cs: seq<Command>, i: nat): int
    requires i < Attached(cs)
  {
    if Last(cs).AttachTo? && i == Attached(Front(cs)) then Last(cs).slot else SlotOf(Front(cs), i)
  }

  lemma {:induction false} SpotIsSlot(cs: seq<Command>, i: nat)
    requires Callable(cs) && i < Attached(cs)
    ensures var t := TableAfter(cs); t.spots[t.home[i]] == SlotOf(cs, i)
  {
    if i < Attached(Front(cs)) { SpotIsSlot(Front(cs), i); }
  }

  // At every point of the history the table lists exactly the open attaches.
  predicate AlwaysExact(cs: seq<Command>)
    requires Callable(cs)
  {
    Listed(TableAfter(cs)) == Open(cs) && (cs != [] ==> AlwaysExact(Front(cs)))
  }

  predicate NeverStale(cs: seq<Command>)
    requires Callable(cs)
  {
    cs != [] ==> NeverStale(Front(cs)) && (Last(cs).DetachOf? ==> !StaleIn(TableAfter(Front(cs)), Last(cs).index))
  }

  lemma {:induction false} ExactExactly(cs: seq<Command>)
    requires Callable(cs)
    ensures AlwaysExact(cs) <==> NeverStale(cs)
  {
    if cs != [] {
      ExactExactly(Front(cs));
      var t := TableAfter(Front(cs));
      match Last(cs) {
        case AttachTo(_, _, _) => AttachListed(t, Last(cs));
        case DetachOf(i) => DetachListed(t, i);
        case Clear => ClearListed(t);
      }
    }
  }

  lemma {:induction false} DisciplineSuffices(cs: seq<Command>)
    requires Callable(cs) && Disciplined(cs)
    ensures AlwaysExact(cs)
  {
    if cs != [] {
      DisciplineSuffices(Front(cs));
      ExactExactly(Front(cs));
      ExactExactly(cs);
    }
  }

  // The `i`-th attach is at `p`, and nothing after it ends it.
  ghost predicate OpenSince(cs: seq<Command>, p: nat, i: nat) {
    && p < |cs| && cs[p].AttachTo? && Attached(cs[..p]) == i
    && forall q | p < q < |cs| :: cs[q] != Clear && cs[q] != DetachOf(i)
  }

  // What being open means, so that a disciplined detach is the first one of its attach
  // and comes before any clearing.
  lemma {:induction false} OpenMeans(cs: seq<Command>, i: nat)
    requires Callable(cs)
    ensures i in Open(cs) <==> exists p: nat :: OpenSince(cs, p, i)
  {
    if cs != [] {
      var front, n := Front(cs), |cs| - 1;
      OpenMeans(front, i);
      OpenIsAttached(front);
      if p: nat :| OpenSince(front, p, i) && cs[n] != Clear && cs[n] != DetachOf(i) {
        assert cs[..p] == front[..p];
        assert OpenSince(cs, p, i);
      }
      if cs[n].AttachTo? && Attached(front) == i { assert OpenSince(cs, n, i); }
      if p: nat :| OpenSince(cs, p, i) && p < n {
        assert cs[..p] == front[..p];
        assert OpenSince(front, p, i);
      }
    }
  }

  lemma {:induction false} OpenIsAttached(cs: seq<Command>)
    requires Callable(cs)
    ensures forall i | i in Open(cs) :: i < Attached(cs)
  {
    if cs != [] { OpenIsAttached(Front(cs)); }
  }
}
