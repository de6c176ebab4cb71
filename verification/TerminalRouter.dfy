/**
  The terminal stream router: a table from slot numbers to shared mutable sets of
  registrations, and the detach closures that capture one of those sets by identity.
  The table is proved to refine a plain set of live (slot, registration) pairs.
*/
module TerminalRouter {
  import opened SlotTable

  datatype Opcode = Output | Restore | Snapshot | Other

  // `decodes` says whether the payload of a snapshot frame decodes.
  datatype Frame = Frame(opcode: Opcode, slot: int, payload: seq<bv8>, decodes: bool) {
    predicate Delivered() { opcode != Other && (opcode == Snapshot ==> decodes) }
  }

  datatype Event = Event(subscriptionId: string, terminalId: string, kind: Opcode, payload: seq<bv8>)

  class Registration {
    const subscriptionId: string
    const terminalId: string
    ghost const owner: RegistrationSet

    constructor (subscriptionId: string, terminalId: string, ghost owner: RegistrationSet)
      ensures this.subscriptionId == subscriptionId && this.terminalId == terminalId && this.owner == owner
    {
      this.subscriptionId, this.terminalId, this.owner := subscriptionId, terminalId, owner;
    }
  }

  // A JavaScript Set in insertion order.
  class RegistrationSet {
    var items: seq<Registration>
    ghost const home: int

    ghost predicate Valid() reads this { items != [] && NoRepeats(items) && OwnedBy(items, this) }

    constructor (ghost home: int)
      ensures items == [] && this.home == home
    {
      items, this.home := [], home;
    }
  }

  ghost predicate OwnedBy(items: seq<Registration>, owner: RegistrationSet) {
    forall i | 0 <= i < |items| :: items[i].owner == owner
  }

  // What a detach closure captures.
  datatype Detach = Detach(registrations: RegistrationSet, registration: Registration, slot: int)

  function Remove(items: seq<Registration>, x: Registration): seq<Registration> {
    if items == [] then []
    else if items[0] == x then Remove(items[1..], x)
    else [items[0]] + Remove(items[1..], x)
  }

  lemma {:induction false} RemoveIsExact(items: seq<Registration>, x: Registration)
    requires NoRepeats(items)
    ensures NoRepeats(Remove(items, x))
    ensures forall y :: y in Remove(items, x) <==> y in items && y != x
    ensures forall k | 0 <= k < |Remove(items, x)| :: Remove(items, x)[k] in items
  {
    if items != [] {
      var rest := Remove(items[1..], x);
      RemoveIsExact(items[1..], x);
      assert items[0] !in items[1..];
      assert items[0] !in rest;
    }
  }

  lemma RemoveOnly(r: Registration)
    ensures Remove([r], r) == []
  {
    assert [r][1..] == [];
  }

  ghost predicate NoRepeats(items: seq<Registration>) {
    forall i, j | 0 <= i < j < |items| :: items[i] != items[j]
  }

  ghost function Elements(items: seq<Registration>): set<Registration> { set r | r in items }

  // The registrations of these attaches.
  ghost function Registered(hs: seq<Detach>, indices: set<nat>): set<Registration> {
    set i | i in indices && i < |hs| :: hs[i].registration
  }

  ghost function Pairs(hs: seq<Detach>, indices: set<nat>): set<(int, Registration)> {
    set i | i in indices && i < |hs| :: (hs[i].slot, hs[i].registration)
  }

  ghost predicate AllDifferent(hs: seq<Detach>) {
    forall i, j | 0 <= i < j < |hs| :: hs[i].registration != hs[j].registration
  }

  // The sets hold, each once, the registrations of the attaches that the table puts there.
  ghost predicate Fits(items: seq<seq<Registration>>, members: seq<set<nat>>, hs: seq<Detach>) {
    |items| == |members|
    && forall n | 0 <= n < |items| :: NoRepeats(items[n]) && Elements(items[n]) == Registered(hs, members[n])
  }

  lemma RegisteredOneLess(hs: seq<Detach>, indices: set<nat>, i: nat)
    requires AllDifferent(hs) && i < |hs|
    ensures Registered(hs, indices - {i}) == Registered(hs, indices) - {hs[i].registration}
  {
  }

  lemma RegisteredEmpty(hs: seq<Detach>, indices: set<nat>)
    requires forall i | i in indices :: i < |hs|
    ensures Registered(hs, indices) == {} <==> indices == {}
  {
    if i :| i in indices { assert hs[i].registration in Registered(hs, indices); }
  }

  lemma RegisteredOneMore(hs: seq<Detach>, d: Detach, indices: set<nat>)
    requires forall i | i in indices :: i < |hs|
    ensures Registered(hs + [d], indices) == Registered(hs, indices)
    ensures Registered(hs + [d], indices + {|hs|}) == Registered(hs, indices) + {d.registration}
  {
    assert forall i | i in indices :: (hs + [d])[i] == hs[i];
  }

  // What a closure carries, of a router that has made these sets.
  ghost predicate IssuedBy(d: Detach, known: set<RegistrationSet>) {
    d.registrations in known && d.registrations.home == d.slot && d.registration.owner == d.registrations
  }

  // The sets and closures of the heap are those that the value table names.
  ghost predicate Names(slots: map<int, RegistrationSet>, known: set<RegistrationSet>, t: Table, hs: seq<Detach>,
                        sets: seq<RegistrationSet>)
  {
    && Consistent(t) && |hs| == |t.home| && |sets| == |t.sets|
    && (forall n | 0 <= n < |sets| :: sets[n] in known && sets[n].home == t.spots[n])
    && (forall m, n | 0 <= m < n < |sets| :: sets[m] != sets[n])
    && (forall i | 0 <= i < |hs| :: hs[i].registrations == sets[t.home[i]] && IssuedBy(hs[i], known))
    && slots.Keys == t.owner.Keys && (forall s | s in t.owner :: slots[s] == sets[t.owner[s]])
  }

  lemma AttachFits(t: Table, c: Command, hs: seq<Detach>, d: Detach, before: seq<seq<Registration>>)
    requires Consistent(t) && c.AttachTo? && |hs| == |t.home| && Fits(before, t.sets, hs)
    requires forall n | 0 <= n < |before| :: d.registration !in before[n]
    ensures Fits(if c.slot in t.owner then before[t.owner[c.slot] := before[t.owner[c.slot]] + [d.registration]]
                 else before + [[d.registration]], Apply(t, c).sets, hs + [d])
  {
    forall n | 0 <= n < |t.sets| ensures forall i | i in t.sets[n] :: i < |hs| {
      forall i | i in t.sets[n] ensures i < |hs| { assert Joined(t, n, i); }
    }
    forall n | 0 <= n < |t.sets| { RegisteredOneMore(hs, d, t.sets[n]); }
    RegisteredOneMore(hs, d, {});
    assert {} + {|hs|} == {|hs|};
    if c.slot in t.owner { assert Owns(t, c.slot, t.owner[c.slot]); }
  }

  lemma DetachFits(t: Table, hs: seq<Detach>, items: seq<seq<Registration>>, i: nat)
    requires Consistent(t) && |hs| == |t.home| && AllDifferent(hs) && Fits(items, t.sets, hs) && i < |hs|
    ensures var n := t.home[i]; var left := Remove(items[n], hs[i].registration);
            Fits(items[n := left], Apply(t, DetachOf(i)).sets, hs) && (left == [] <==> t.sets[n] - {i} == {})
  {
    var n := t.home[i];
    var left := Remove(items[n], hs[i].registration);
    RemoveIsExact(items[n], hs[i].registration);
    RegisteredOneLess(hs, t.sets[n], i);
    forall j | j in t.sets[n] ensures j < |hs| { assert Joined(t, n, j); }
    RegisteredEmpty(hs, t.sets[n] - {i});
    assert Elements(left) == Elements(items[n]) - {hs[i].registration};
    if left != [] { assert left[0] in Elements(left); }
  }

  lemma AttachNames(slots: map<int, RegistrationSet>, known: set<RegistrationSet>, c: Command, t: Table,
                    hs: seq<Detach>, sets: seq<RegistrationSet>, d: Detach)
    requires Names(slots, known, t, hs, sets) && c.AttachTo? && d.slot == c.slot
    requires if c.slot in slots then d.registrations == slots[c.slot] else d.registrations !in known
    requires IssuedBy(d, known + {d.registrations})
    ensures Consistent(Apply(t, c))
    ensures Names(slots[c.slot := d.registrations], known + {d.registrations}, Apply(t, c), hs + [d],
                  if c.slot in t.owner then sets else sets + [d.registrations])
  {
    AttachListed(t, c);
  }

  // What a new closure brings to a router with these slots and sets.
  ghost predicate NewHere(d: Detach, c: Command, slots: map<int, RegistrationSet>, known: set<RegistrationSet>,
                          hs: seq<Detach>, items: seq<seq<Registration>>)
  {
    && c.AttachTo? && d.slot == c.slot && IssuedBy(d, known + {d.registrations})
    && (if c.slot in slots then d.registrations == slots[c.slot] else d.registrations !in known)
    && (forall n | 0 <= n < |items| :: d.registration !in items[n])
    && (forall i | 0 <= i < |hs| :: hs[i].registration != d.registration)
  }

  // Where its registration goes.
  ghost predicate Placed(d: Detach, shared: bool, sets: seq<RegistrationSet>, items: seq<seq<Registration>>,
                         sets': seq<RegistrationSet>, items': seq<seq<Registration>>)
  {
    && |sets| == |items| && |sets'| == |items'| && sets' == (if shared then sets else sets + [d.registrations])
    && (shared || d.registrations !in sets)
    && (forall n | 0 <= n < |sets'| && sets'[n] != d.registrations :: items'[n] == items[n])
    && (forall n | 0 <= n < |sets'| && sets'[n] == d.registrations ::
          items'[n] == if shared then items[n] + [d.registration] else [d.registration])
  }

  ghost predicate AllKnown(sets: seq<RegistrationSet>, known: set<RegistrationSet>) {
    forall n | 0 <= n < |sets| :: sets[n] in known
  }

  lemma AllAreKnown(slots: map<int, RegistrationSet>, known: set<RegistrationSet>, t: Table, hs: seq<Detach>,
                    sets: seq<RegistrationSet>)
    requires Names(slots, known, t, hs, sets)
    ensures AllKnown(sets, known)
  {
  }

  // The value side of the router: sets named by the table, holding what it says.
  ghost predicate Traced(slots: map<int, RegistrationSet>, known: set<RegistrationSet>, t: Table, hs: seq<Detach>,
                         sets: seq<RegistrationSet>, items: seq<seq<Registration>>)
  {
    Names(slots, known, t, hs, sets) && AllDifferent(hs) && Fits(items, t.sets, hs)
  }

  lemma AttachValues(c: Command, t: Table, hs: seq<Detach>, sets: seq<RegistrationSet>, items: seq<seq<Registration>>,
                     d: Detach, slots: map<int, RegistrationSet>, known: set<RegistrationSet>)
      returns (sets': seq<RegistrationSet>, items': seq<seq<Registration>>)
    requires Traced(slots, known, t, hs, sets, items) && NewHere(d, c, slots, known, hs, items)
    ensures Traced(slots[c.slot := d.registrations], known + {d.registrations}, Apply(t, c), hs + [d], sets', items')
    ensures Placed(d, c.slot in slots, sets, items, sets', items')
  {
    AttachNames(slots, known, c, t, hs, sets, d);
    AttachFits(t, c, hs, d, items);
    if c.slot in t.owner {
      var n := t.owner[c.slot];
      sets', items' := sets, items[n := items[n] + [d.registration]];
    } else {
      sets', items' := sets + [d.registrations], items + [[d.registration]];
    }
  }

  ghost predicate Hold(sets: seq<RegistrationSet>, items: seq<seq<Registration>>)
    reads sets
  {
    |sets| == |items| && forall n | 0 <= n < |sets| :: sets[n].items == items[n]
  }

  class TerminalStreamRouter {
    var slots: map<int, RegistrationSet>
    ghost var known: set<RegistrationSet>   // every set this router ever made

    constructor ()
      ensures Valid() && Live() == {} && known == {}
    {
      slots, known := map[], {};
    }

    // Every listed set is non-empty, sits under its own slot number, and holds
    // only registrations made for it.
    ghost predicate Valid()
      reads this, known
    {
      forall s | s in slots :: slots[s] in known && slots[s].home == s && slots[s].Valid()
    }

    // The abstraction: who is registered where.
    ghost function Live(): set<(int, Registration)>
      reads this, slots.Values
    {
      set s, r | s in slots && r in slots[s].items :: (s, r)
    }

    ghost predicate Issued(d: Detach) reads this { IssuedBy(d, known) }

    // A detach whose own set is empty without its registration, while another set
    // now owns its slot number.
    ghost predicate Stale(d: Detach)
      reads this, d.registrations
    {
      d.slot in slots && slots[d.slot] != d.registrations && Remove(d.registrations.items, d.registration) == []
    }

    method Attach(subscriptionId: string, terminalId: string, slot: int) returns (d: Detach)
      requires Valid()
      modifies this, if slot in slots then {slots[slot]} else {}
      ensures Valid() && Issued(d) && d.slot == slot && fresh(d.registration)
      ensures d.registration.subscriptionId == subscriptionId && d.registration.terminalId == terminalId
      ensures Live() == old(Live()) + {(slot, d.registration)}
      ensures slots == old(slots)[slot := d.registrations] && known == old(known) + {d.registrations}
      ensures slot in old(slots) ==> d.registrations == old(slots)[slot]
                                     && d.registrations.items == old(slots[slot].items) + [d.registration]
      ensures slot !in old(slots) ==> fresh(d.registrations) && d.registrations.items == [d.registration]
    {
      var registrations;
      if slot in slots {
        registrations := slots[slot];
      } else {
        registrations := new RegistrationSet(slot);
      }
      var registration := new Registration(subscriptionId, terminalId, registrations);
      registrations.items := registrations.items + [registration];
      slots := slots[slot := registrations];
      known := known + {registrations};
      d := Detach(registrations, registration, slot);
    }

    // The detach closure. It removes exactly its own registration unless it is
    // stale; a stale one drops every registration of its slot number.
    method RunDetach(d: Detach)
      requires Valid() && Issued(d)
      modifies this, d.registrations
      ensures Valid() && known == old(known)
      ensures !old(Stale(d)) <==> Live() == old(Live()) - {(d.slot, d.registration)}
      ensures old(Stale(d)) ==> Live() == set p | p in old(Live()) && p.0 != d.slot
      ensures d.registrations.items == Remove(old(d.registrations.items), d.registration)
      ensures slots == if d.registrations.items == [] then old(slots) - {d.slot} else old(slots)
    {
      ghost var before := d.registrations.items;
      if d.slot in slots && slots[d.slot] == d.registrations {
        RemoveIsExact(before, d.registration);
        ghost var after := Remove(before, d.registration);
        forall k | 0 <= k < |after| ensures after[k].owner == d.registrations {
          assert after[k] in before;
          var i :| 0 <= i < |before| && before[i] == after[k];
        }
      }
      d.registrations.items := Remove(d.registrations.items, d.registration);
      if |d.registrations.items| == 0 { slots := slots - {d.slot}; }
      ghost var was := old(slots);
      if old(Stale(d)) {
        assert (d.slot, was[d.slot].items[0]) in old(Live());
        assert was[d.slot].items[0].owner == was[d.slot];
        assert (d.slot, was[d.slot].items[0]) !in Live();
      } else {
        forall p ensures p in Live() <==> p in old(Live()) - {(d.slot, d.registration)} {
          if p.0 in was && was[p.0] == d.registrations { assert p.0 == d.slot; }
        }
      }
    }

    method ClearSlots()
      requires Valid()
      modifies this`slots
      ensures Valid() && Live() == {} && slots == map[]
    {
      slots := map[];
    }

    // What each registration's callback is handed for one frame, in order, and what
    // every passive listener hears. `throwing` are the callbacks that throw; a listener
    // that throws changes nothing.
    method HandleFrame(f: Frame, throwing: set<Registration>)
        returns (deliveries: seq<(Registration, Event)>, heard: seq<Event>, thrown: bool)
      requires Valid()
      ensures var reaches := f.opcode == Output || f.opcode == Restore || (f.opcode == Snapshot && f.decodes);
              && (thrown || forall r: Registration ::
                    multiset(Receivers(deliveries))[r] == if (f.slot, r) in Live() && reaches then 1 else 0)
              && (thrown <==> reaches && exists r | r in throwing :: (f.slot, r) in Live())
      ensures f.slot in slots ==> Receivers(deliveries) <= slots[f.slot].items
      ensures thrown ==> f.slot in slots && deliveries != []
      ensures forall i | 0 <= i < |deliveries| :: deliveries[i].0 in throwing <==> thrown && i == |deliveries| - 1
      ensures forall i | 0 <= i < |deliveries| ::
                var (r, event) := deliveries[i]; event == Event(r.subscriptionId, r.terminalId, f.opcode, f.payload)
      ensures heard == Events(if thrown then deliveries[..|deliveries| - 1] else deliveries)
    {
      deliveries, heard, thrown := [], [], false;
      if f.slot !in slots { return; }
      var registrations := slots[f.slot].items;
      var i := 0;
      while i < |registrations|
        invariant i <= |registrations| && (i > 0 ==> f.Delivered())
        invariant Receivers(deliveries) == registrations[..i] && heard == Events(deliveries) && !thrown
        invariant forall k | 0 <= k < |deliveries| ::
                    deliveries[k].0 == registrations[k] && deliveries[k].0 !in throwing
        invariant forall k | 0 <= k < |deliveries| ::
                    var (r, event) := deliveries[k]; event == Event(r.subscriptionId, r.terminalId, f.opcode, f.payload)
      {
        var r := registrations[i];
        if !f.Delivered() { return; }
        var event := Event(r.subscriptionId, r.terminalId, f.opcode, f.payload);
        ghost var before := deliveries;
        deliveries := deliveries + [(r, event)];
        assert deliveries[..|before|] == before;
        if r in throwing {
          thrown := true;
          assert (f.slot, r) in Live();
          return;
        }
        heard, i := heard + [event], i + 1;
      }
      assert registrations[..i] == registrations;
      forall r: Registration ensures multiset(registrations)[r] == if r in registrations then 1 else 0 {
        NoRepeatsCount(registrations, r);
      }
    }

    method AttachAndDetach(slot: int) returns (d: Detach)
      requires Valid() && slot !in slots
      modifies this
      ensures Valid() && Live() == old(Live()) && slots == old(slots) && d.slot == slot
      ensures fresh(d.registrations) && d.registrations.items == [] && Issued(d)
    {
      d := Attach("first", "terminal", slot);
      assert !Stale(d);
      RemoveOnly(d.registration);
      assert d.registrations.items == [d.registration];
      RunDetach(d);
    }

    // Detaching twice is harmful: once the slot number has been taken over, the
    // second call drops the newcomer.
    method DetachTwice(slot: int) returns (newcomer: Registration)
      requires Valid() && slot !in slots
      modifies this
      ensures Valid() && fresh(newcomer)
      ensures (slot, newcomer) !in Live() && Live() == old(Live())
    {
      var first := AttachAndDetach(slot);
      ghost var others := Live();
      var second := Attach("second", "terminal", slot);
      newcomer := second.registration;
      assert Stale(first);
      RunDetach(first);
      assert forall p | p in others :: p.0 != slot;
    }

    // So is detaching for the first time after the slots were cleared.
    method DetachAfterClear(slot: int) returns (newcomer: Registration)
      requires Valid() && slot !in slots
      modifies this
      ensures Valid() && fresh(newcomer) && (slot, newcomer) !in Live() && Live() == {}
    {
      var first := Attach("first", "terminal", slot);
      RemoveOnly(first.registration);
      assert first.registrations.items == [first.registration];
      ClearSlots();
      var second := Attach("second", "terminal", slot);
      newcomer := second.registration;
      assert Stale(first);
      RunDetach(first);
    }

    // ---------------------------------------------------------- whole histories

    ghost predicate Mirrors(t: Table, hs: seq<Detach>, sets: seq<RegistrationSet>, items: seq<seq<Registration>>)
      reads this, sets
    {
      Traced(slots, known, t, hs, sets, items) && Hold(sets, items)
    }

    // The sets hold these registrations but for the new one.
    ghost predicate HoldBut(d: Detach, sets: seq<RegistrationSet>, items: seq<seq<Registration>>)
      reads sets
    {
      |sets| == |items| && forall n | 0 <= n < |sets| ::
        sets[n].items == if sets[n] == d.registrations then items[n] + [d.registration] else items[n]
    }

    method AttachTracked(c: Command, hs: seq<Detach>, ghost sets: seq<RegistrationSet>,
                         ghost items: seq<seq<Registration>>)
        returns (d: Detach)
      requires Valid() && c.AttachTo? && Hold(sets, items) && AllKnown(sets, known)
      modifies this, if c.slot in slots then {slots[c.slot]} else {}
      ensures Valid() && slots == old(slots)[c.slot := d.registrations] && known == old(known) + {d.registrations}
      ensures NewHere(d, c, old(slots), old(known), hs, items) && HoldBut(d, sets, items)
      ensures c.slot !in old(slots) ==> fresh(d.registrations) && d.registrations.items == [d.registration]
      ensures fresh(known - old(known))
    {
      d := Attach(c.subscriptionId, c.terminalId, c.slot);
    }

    lemma AttachHolds(sets: seq<RegistrationSet>, items: seq<seq<Registration>>, sets': seq<RegistrationSet>,
                      items': seq<seq<Registration>>, d: Detach, shared: bool)
      requires Placed(d, shared, sets, items, sets', items') && HoldBut(d, sets, items)
      requires shared || d.registrations.items == [d.registration]
      ensures Hold(sets', items') && sets <= sets'
    {
    }

    lemma AttachMirrors(c: Command, t: Table, hs: seq<Detach>, sets: seq<RegistrationSet>,
                        items: seq<seq<Registration>>, d: Detach, before: map<int, RegistrationSet>,
                        made: set<RegistrationSet>)
        returns (sets': seq<RegistrationSet>, items': seq<seq<Registration>>)
      requires Traced(before, made, t, hs, sets, items) && NewHere(d, c, before, made, hs, items)
      requires HoldBut(d, sets, items) && (c.slot in before || d.registrations.items == [d.registration])
      requires slots == before[c.slot := d.registrations] && known == made + {d.registrations}
      ensures Mirrors(Apply(t, c), hs + [d], sets', items')
      ensures sets' == if c.slot in before then sets else sets + [d.registrations]
    {
      sets', items' := AttachValues(c, t, hs, sets, items, d, before, made);
      AttachHolds(sets, items, sets', items', d, c.slot in before);
    }

    method AttachNext(c: Command, ghost t: Table, hs: seq<Detach>, ghost sets: seq<RegistrationSet>,
                      ghost items: seq<seq<Registration>>)
        returns (d: Detach, ghost sets': seq<RegistrationSet>, ghost items': seq<seq<Registration>>)
      requires Valid() && Mirrors(t, hs, sets, items) && c.AttachTo?
      modifies this, if c.slot in slots then {slots[c.slot]} else {}
      ensures Valid() && Mirrors(Apply(t, c), hs + [d], sets', items') && sets <= sets' && fresh(known - old(known))
      ensures forall n | |sets| <= n < |sets'| :: fresh(sets'[n])
    {
      AllAreKnown(slots, known, t, hs, sets);
      d := AttachTracked(c, hs, sets, items);
      sets', items' := AttachMirrors(c, t, hs, sets, items, d, old(slots), old(known));
    }

    method DetachNext(ghost t: Table, hs: seq<Detach>, ghost sets: seq<RegistrationSet>,
                      ghost items: seq<seq<Registration>>, i: nat)
        returns (ghost items': seq<seq<Registration>>)
      requires Valid() && Mirrors(t, hs, sets, items) && i < |hs|
      modifies this, hs[i].registrations
      ensures Valid() && Mirrors(Apply(t, DetachOf(i)), hs, sets, items') && known == old(known)
    {
      ghost var n := t.home[i];
      DetachFits(t, hs, items, i);
      DetachListed(t, i);
      RunDetach(hs[i]);
      items' := items[n := Remove(items[n], hs[i].registration)];
    }

    lemma LiveIsListed(t: Table, hs: seq<Detach>, sets: seq<RegistrationSet>, items: seq<seq<Registration>>)
      requires Mirrors(t, hs, sets, items)
      ensures Live() == Pairs(hs, Listed(t))
    {
      forall p | p in Live() ensures p in Pairs(hs, Listed(t)) {
        var n := t.owner[p.0];
        assert Owns(t, p.0, n);
        assert p.1 in Elements(items[n]);
        var i :| i in t.sets[n] && i < |hs| && hs[i].registration == p.1;
        assert Joined(t, n, i) && Lists(t, i);
      }
      forall i | i in Listed(t) ensures (hs[i].slot, hs[i].registration) in Live() {
        assert hs[i].registration in Registered(hs, t.sets[t.home[i]]);
        assert hs[i].registration in Elements(items[t.home[i]]);
      }
    }

    method ExecuteNext(c: Command, ghost t: Table, hs: seq<Detach>, ghost sets: seq<RegistrationSet>,
                       ghost items: seq<seq<Registration>>)
        returns (hs': seq<Detach>, ghost sets': seq<RegistrationSet>, ghost items': seq<seq<Registration>>)
      requires Valid() && Mirrors(t, hs, sets, items) && (c.DetachOf? ==> c.index < |hs|)
      modifies this, sets
      ensures Valid() && Mirrors(Apply(t, c), hs', sets', items') && sets <= sets' && fresh(known - old(known))
      ensures forall n | |sets| <= n < |sets'| :: fresh(sets'[n])
    {
      hs', sets', items' := hs, sets, items;
      match c {
        case AttachTo(_, _, _) =>
          var d;
          d, sets', items' := AttachNext(c, t, hs, sets, items);
          hs' := hs + [d];
        case DetachOf(i) => items' := DetachNext(t, hs, sets, items, i);
        case Clear => ClearSlots();
      }
    }

    // Carry out a history on a router that lists nothing; each detach is the closure
    // that the attach it names returned.
    method Execute(cs: seq<Command>) returns (hs: seq<Detach>)
      requires Valid() && slots == map[] && Callable(cs)
      modifies this
      ensures Valid() && |hs| == Attached(cs) && AllDifferent(hs)
      ensures forall i | 0 <= i < |hs| :: hs[i].slot == SlotOf(cs, i)
      ensures Live() == Pairs(hs, Listed(TableAfter(cs)))
      ensures Disciplined(cs) ==> Live() == Pairs(hs, Open(cs))
    {
      hs := [];
      ghost var sets: seq<RegistrationSet>, items: seq<seq<Registration>> := [], [];
      ghost var t := TableAfter([]);
      for k := 0 to |cs|
        invariant Callable(cs[..k]) && t == TableAfter(cs[..k])
        invariant Valid() && Mirrors(t, hs, sets, items)
        invariant fresh(known - old(known)) && forall n | 0 <= n < |sets| :: fresh(sets[n])
      {
        CallablePrefix(cs, k + 1);
        assert Front(cs[..k + 1]) == cs[..k] && Last(cs[..k + 1]) == cs[k];
        hs, sets, items := ExecuteNext(cs[k], t, hs, sets, items);
        t := Apply(t, cs[k]);
      }
      assert cs[..|cs|] == cs;
      LiveIsListed(t, hs, sets, items);
      forall i | 0 <= i < |hs| ensures hs[i].slot == SlotOf(cs, i) { SpotIsSlot(cs, i); }
      if Disciplined(cs) { DisciplineSuffices(cs); }
    }

    // After a disciplined history a frame reaches each open registration of its slot
    // once, and no other.
    method Deliver(cs: seq<Command>, f: Frame) returns (hs: seq<Detach>, deliveries: seq<(Registration, Event)>)
      requires Valid() && slots == map[] && Callable(cs) && Disciplined(cs)
      modifies this
      ensures |hs| == Attached(cs) && AllDifferent(hs)
      ensures var reaches := f.opcode == Output || f.opcode == Restore || (f.opcode == Snapshot && f.decodes);
              forall r: Registration :: multiset(Receivers(deliveries))[r] ==
                if (f.slot, r) in Pairs(hs, Open(cs)) && reaches then 1 else 0
    {
      hs := Execute(cs);
      var received, _, _ := HandleFrame(f, {});
      deliveries := received;
    }
  }

  function Events(deliveries: seq<(Registration, Event)>): seq<Event> {
    seq(|deliveries|, i requires 0 <= i < |deliveries| => deliveries[i].1)
  }

  ghost function Receivers(deliveries: seq<(Registration, Event)>): seq<Registration> {
    seq(|deliveries|, i requires 0 <= i < |deliveries| => deliveries[i].0)
  }

  lemma {:induction false} NoRepeatsCount(items: seq<Registration>, r: Registration)
    requires NoRepeats(items)
    ensures multiset(items)[r] == if r in items then 1 else 0
  {
    if items != [] {
      assert items == [items[0]] + items[1..];
      NoRepeatsCount(items[1..], r);
    }
  }
}
