/**
  Waiting until every provider has left its loading state: the race between one
  snapshot reply and a stream of updates that may come before or after it.
*/
module ProvidersReady {
  import opened Options

  datatype Entry = Entry(provider: string, loading: bool)

  type Cwd = Option<string>

  datatype Snapshot = Snapshot(requestId: string, cwd: Cwd, entries: seq<Entry>)

  datatype Failure = TimedOut(loading: seq<string>) | ApiDisposed | RequestFailed(error: string)

  datatype Outcome = Pending | Resolved(snapshot: Snapshot) | Rejected(failure: Failure)

  datatype Event =
    | Update(cwd: Cwd, entries: seq<Entry>)
    | Reply(snapshot: Snapshot)
    | ReplyFails(error: string)
    | Abort
    | Timeout

  predicate Ready(entries: seq<Entry>) {
    forall i | 0 <= i < |entries| :: !entries[i].loading
  }

  function LoadingProviders(entries: seq<Entry>): seq<string> {
    if entries == [] then []
    else (if entries[0].loading then [entries[0].provider] else []) + LoadingProviders(entries[1..])
  }

  // ------------------------------------------------------ what the wait does

  // `settled` of the source is `outcome != Pending`.
  datatype Wait = Wait(
    requestId: Option<string>, cwd: Cwd, pending: map<Cwd, seq<Entry>>, latest: seq<Entry>, outcome: Outcome)

  const START := Wait(None, None, map[], [], Pending)

  function Settle(w: Wait, o: Outcome): Wait {
    if w.outcome == Pending then w.(outcome := o) else w
  }

  // `!requestId` also holds of the empty string.
  predicate NoRequestId(w: Wait) {
    w.requestId.None? || w.requestId.value == ""
  }

  function Step(w: Wait, e: Event): Wait {
    match e
    case Update(cwd, entries) =>
      if NoRequestId(w) then w.(pending := w.pending[cwd := entries])
      else if cwd != w.cwd then w
      else
        var w1 := w.(latest := entries);
        if Ready(entries) then Settle(w1, Resolved(Snapshot(w1.requestId.value, cwd, entries))) else w1
    case Reply(s) =>
      var w1 := w.(requestId := Some(s.requestId), cwd := s.cwd, latest := s.entries);
      if Ready(s.entries) then Settle(w1, Resolved(s))
      else if s.cwd in w1.pending && Ready(w1.pending[s.cwd]) then
        Settle(w1, Resolved(Snapshot(s.requestId, s.cwd, w1.pending[s.cwd])))
      else w1
    case ReplyFails(error) => Settle(w, Rejected(RequestFailed(error)))
    case Abort => Settle(w, Rejected(ApiDisposed))
    case Timeout => Settle(w, Rejected(TimedOut(LoadingProviders(w.latest))))
  }

  function Run(es: seq<Event>): Wait {
    if es == [] then START else Step(Run(es[..|es| - 1]), es[|es| - 1])
  }

  // ---------------------------------------------------- what it should return

  predicate Stops(e: Event) { e.ReplyFails? || e.Abort? || e.Timeout? }

  // The position of the first event that ends the wait without a snapshot.
  function StopAt(es: seq<Event>): (f: nat)
    ensures f <= |es|
  {
    if es == [] || Stops(es[0]) then 0 else 1 + StopAt(es[1..])
  }

  // The position of the snapshot reply.
  function ReplyAt(es: seq<Event>): (k: nat)
    ensures k <= |es| && (k < |es| ==> es[k].Reply?)
  {
    if es == [] || es[0].Reply? then 0 else 1 + ReplyAt(es[1..])
  }

  function LastUpdate(es: seq<Event>, cwd: Cwd): Option<seq<Entry>> {
    if es == [] then None
    else
      var e := es[|es| - 1];
      if e.Update? && e.cwd == cwd then Some(e.entries) else LastUpdate(es[..|es| - 1], cwd)
  }

  function FirstReady(es: seq<Event>, cwd: Cwd): Option<seq<Entry>> {
    if es == [] then None
    else
      var e, before := es[|es| - 1], FirstReady(es[..|es| - 1], cwd);
      if before.Some? then before else if e.Update? && e.cwd == cwd && Ready(e.entries) then Some(e.entries) else None
  }

  // The snapshot if it is ready, else the latest earlier update of its directory if
  // that is ready, else the first later one that is.
  function Choose(s: Snapshot, earlier: Option<seq<Entry>>, later: Option<seq<Entry>>): Option<Snapshot> {
    if Ready(s.entries) then Some(s)
    else if earlier.Some? && Ready(earlier.value) then Some(Snapshot(s.requestId, s.cwd, earlier.value))
    else if later.Some? then Some(Snapshot(s.requestId, s.cwd, later.value))
    else None
  }

  function Choice(es: seq<Event>): Option<Snapshot> {
    var k := ReplyAt(es);
    if k == |es| then None
    else
      var s := es[k].snapshot;
      Choose(s, LastUpdate(es[..k], s.cwd), FirstReady(es[k + 1..], s.cwd))
  }

  // The entries that a timeout reports on.
  function Latest(es: seq<Event>): seq<Entry> {
    var k := ReplyAt(es);
    if k == |es| then []
    else
      LatestOf(es[k].snapshot, LastUpdate(es[k + 1..], es[k].snapshot.cwd))
  }

  function Ending(before: seq<Event>, stop: Event): Outcome
    requires Stops(stop)
  {
    var choice := Choice(before);
    if choice.Some? then Resolved(choice.value)
    else match stop
      case ReplyFails(error) => Rejected(RequestFailed(error))
      case Abort => Rejected(ApiDisposed)
      case Timeout => Rejected(TimedOut(LoadingProviders(Latest(before))))
  }

  function Expected(es: seq<Event>): Outcome {
    var f := StopAt(es);
    if f < |es| then StopAtStops(es); Ending(es[..f], es[f])
    else if Choice(es).Some? then Resolved(Choice(es).value)
    else Pending
  }

  lemma {:induction false} StopAtStops(es: seq<Event>)
    ensures StopAt(es) < |es| ==> Stops(es[StopAt(es)])
  {
    if es != [] && !Stops(es[0]) { StopAtStops(es[1..]); }
  }

  // The request has one reply, and it carries this id.
  ghost predicate OneReply(es: seq<Event>, id: string) {
    && (forall i | 0 <= i < |es| && es[i].Reply? :: es[i].snapshot.requestId == id)
    && (forall i, j | 0 <= i < j < |es| && es[i].Reply? :: !es[j].Reply?)
  }

  ghost predicate NoStop(es: seq<Event>) { forall i | 0 <= i < |es| :: !Stops(es[i]) }

  // ------------------------------------------------------------------- proofs

  lemma {:induction false} ReplyAtIs(es: seq<Event>, k: nat)
    requires k <= |es| && (k < |es| ==> es[k].Reply?) && forall i | 0 <= i < k :: !es[i].Reply?
    ensures ReplyAt(es) == k
  {
    if k > 0 { ReplyAtIs(es[1..], k - 1); }
  }

  lemma {:induction false} ReplyAtIsFirst(es: seq<Event>)
    ensures forall i | 0 <= i < ReplyAt(es) :: !es[i].Reply?
  {
    if es != [] && !es[0].Reply? {
      ReplyAtIsFirst(es[1..]);
      forall i | 0 <= i < ReplyAt(es) ensures !es[i].Reply? { if i > 0 { assert es[i] == es[1..][i - 1]; } }
    }
  }

  lemma {:induction false} StopAtIsFirst(es: seq<Event>)
    ensures NoStop(es[..StopAt(es)]) && (StopAt(es) < |es| ==> Stops(es[StopAt(es)]))
  {
    if es != [] && !Stops(es[0]) {
      StopAtIsFirst(es[1..]);
      forall i | 0 <= i < StopAt(es) ensures !Stops(es[i]) {
        if i > 0 { assert es[i] == es[1..][..StopAt(es[1..])][i - 1]; }
      }
    }
  }

  lemma OneMoreUpdate(es: seq<Event>, e: Event, cwd: Cwd)
    requires e.Update?
    ensures LastUpdate(es + [e], cwd) == if e.cwd == cwd then Some(e.entries) else LastUpdate(es, cwd)
    ensures FirstReady(es + [e], cwd) ==
              if FirstReady(es, cwd).None? && e.cwd == cwd && Ready(e.entries) then Some(e.entries)
              else FirstReady(es, cwd)
  {
  }

  // Before the reply: the pending updates are the latest of each directory.
  ghost predicate TracksEarly(w: Wait, es: seq<Event>) {
    && w.requestId == None && w.latest == [] && w.outcome == Pending
    && forall cwd :: (cwd in w.pending <==> LastUpdate(es, cwd).Some?)
                     && (cwd in w.pending ==> LastUpdate(es, cwd).value == w.pending[cwd])
  }

  ghost predicate OnlyUpdates(es: seq<Event>) { forall i | 0 <= i < |es| :: es[i].Update? }

  lemma {:induction false} EarlyRun(es: seq<Event>)
    requires OnlyUpdates(es)
    ensures TracksEarly(Run(es), es)
  {
    if es != [] {
      var before, e := es[..|es| - 1], es[|es| - 1];
      EarlyRun(before);
      assert es == before + [e];
      forall cwd ensures LastUpdate(es, cwd) == if e.cwd == cwd then Some(e.entries) else LastUpdate(before, cwd) {
        OneMoreUpdate(before, e, cwd);
      }
    }
  }

  function LatestOf(s: Snapshot, later: Option<seq<Entry>>): seq<Entry> {
    if later.Some? then later.value else s.entries
  }

  // The parts of a history around its reply.
  lemma ChoiceIs(es: seq<Event>, a: seq<Event>, s: Snapshot, b: seq<Event>)
    requires es == a + [Reply(s)] + b && forall i | 0 <= i < |a| :: !a[i].Reply?
    ensures ReplyAt(es) == |a| && es[|a|] == Reply(s)
    ensures Choice(es) == Choose(s, LastUpdate(a, s.cwd), FirstReady(b, s.cwd))
    ensures Latest(es) == LatestOf(s, LastUpdate(b, s.cwd))
  {
    ReplyAtIs(es, |a|);
    assert es[..|a|] == a && es[|a| + 1..] == b;
  }

  // After it: the outcome is the choice among the snapshot and the updates so far.
  ghost predicate TracksLate(w: Wait, s: Snapshot, earlier: Option<seq<Entry>>, b: seq<Event>) {
    var choice := Choose(s, earlier, FirstReady(b, s.cwd));
    && w.requestId == Some(s.requestId) && w.cwd == s.cwd
    && w.outcome == (if choice.Some? then Resolved(choice.value) else Pending)
    && w.latest == LatestOf(s, LastUpdate(b, s.cwd))
  }

  lemma LateUpdate(w: Wait, s: Snapshot, earlier: Option<seq<Entry>>, b: seq<Event>, e: Event)
    requires TracksLate(w, s, earlier, b) && e.Update? && s.requestId != ""
    ensures TracksLate(Step(w, e), s, earlier, b + [e])
  {
  }

  lemma ReplyTracks(w: Wait, a: seq<Event>, s: Snapshot)
    requires TracksEarly(w, a)
    ensures TracksLate(Step(w, Reply(s)), s, LastUpdate(a, s.cwd), [])
  {
  }

  lemma {:induction false} LateRun(a: seq<Event>, s: Snapshot, b: seq<Event>)
    requires OnlyUpdates(a) && OnlyUpdates(b) && s.requestId != ""
    ensures TracksLate(Run(a + [Reply(s)] + b), s, LastUpdate(a, s.cwd), b)
  {
    var es := a + [Reply(s)] + b;
    if b == [] {
      EarlyRun(a);
      ReplyTracks(Run(a), a, s);
      assert es[..|es| - 1] == a && es[|es| - 1] == Reply(s);
    } else {
      var before, e := b[..|b| - 1], b[|b| - 1];
      LateRun(a, s, before);
      assert es[..|es| - 1] == a + [Reply(s)] + before && es[|es| - 1] == e && b == before + [e];
      LateUpdate(Run(a + [Reply(s)] + before), s, LastUpdate(a, s.cwd), before, e);
    }
  }

  // What an unstopped history leads to.
  lemma UnstoppedRun(es: seq<Event>, id: string)
    requires OneReply(es, id) && NoStop(es) && id != ""
    ensures Run(es).outcome == (if Choice(es).Some? then Resolved(Choice(es).value) else Pending)
    ensures Run(es).latest == Latest(es)
  {
    var k := ReplyAt(es);
    ReplyAtIsFirst(es);
    if k == |es| {
      EarlyRun(es);
    } else {
      var a, s, b := es[..k], es[k].snapshot, es[k + 1..];
      forall i | 0 <= i < |b| ensures b[i].Update? { assert b[i] == es[k + 1 + i]; }
      assert es == a + [Reply(s)] + b;
      ChoiceIs(es, a, s, b);
      LateRun(a, s, b);
    }
  }

  // The promise settles at most once.
  lemma {:induction false} SettlesOnce(es: seq<Event>, n: nat)
    requires n <= |es| && Run(es[..n]).outcome != Pending
    ensures Run(es).outcome == Run(es[..n]).outcome
  {
    if n == |es| {
      assert es[..n] == es;
    } else {
      assert es[..|es| - 1][..n] == es[..n];
      SettlesOnce(es[..|es| - 1], n);
    }
  }

  lemma StopEnds(w: Wait, p: seq<Event>, e: Event)
    requires w.outcome == (if Choice(p).Some? then Resolved(Choice(p).value) else Pending)
    requires w.latest == Latest(p) && Stops(e)
    ensures Step(w, e).outcome == Ending(p, e) != Pending
  {
  }

  lemma RunOneMore(es: seq<Event>, f: nat)
    requires f < |es|
    ensures Run(es[..f + 1]) == Step(Run(es[..f]), es[f])
  {
    assert es[..f + 1][..f] == es[..f];
  }

  lemma OneReplyPrefix(es: seq<Event>, id: string, f: nat)
    requires OneReply(es, id) && f <= |es|
    ensures OneReply(es[..f], id)
  {
  }

  lemma StopRejects(es: seq<Event>, id: string, f: nat)
    requires OneReply(es, id) && id != "" && StopAt(es) == f < |es|
    ensures Run(es[..f + 1]).outcome == Expected(es) != Pending
  {
    StopAtIsFirst(es);
    OneReplyPrefix(es, id, f);
    UnstoppedRun(es[..f], id);
    RunOneMore(es, f);
    StopEnds(Run(es[..f]), es[..f], es[f]);
  }

  lemma WaitIsExact(es: seq<Event>, id: string)
    requires OneReply(es, id) && id != ""
    ensures Run(es).outcome == Expected(es)
  {
    var f := StopAt(es);
    StopAtIsFirst(es);
    if f == |es| {
      assert es[..f] == es;
      UnstoppedRun(es, id);
    } else {
      StopRejects(es, id, f);
      SettlesOnce(es, f + 1);
    }
  }

  // A result never holds a loading entry, whatever the request id.
  lemma {:induction false} NeverLoading(es: seq<Event>)
    ensures var o := Run(es).outcome;
            o.Resolved? ==> forall i | 0 <= i < |o.snapshot.entries| :: !o.snapshot.entries[i].loading
  {
    if es != [] { NeverLoading(es[..|es| - 1]); }
  }

  // `names` are the providers of the entries that are loading, in their order: `at` says
  // where in the list each of them is.
  ghost predicate NamesLoading(entries: seq<Entry>, names: seq<string>, at: seq<nat>) {
    && |at| == |names|
    && (forall k | 0 <= k < |at| :: at[k] < |entries| && names[k] == entries[at[k]].provider)
    && (forall j, k | 0 <= j < k < |at| :: at[j] < at[k])
    && (forall i | 0 <= i < |entries| :: entries[i].loading <==> i in at)
  }

  lemma SkipName(entries: seq<Entry>, names: seq<string>, at: seq<nat>, e: Entry)
    requires NamesLoading(entries, names, at) && !e.loading
    ensures NamesLoading(entries + [e], names, at)
  {
    var more := entries + [e];
    assert forall i | 0 <= i < |entries| :: more[i] == entries[i];
    assert |entries| !in at;
  }

  lemma AddName(entries: seq<Entry>, names: seq<string>, at: seq<nat>, e: Entry)
    requires NamesLoading(entries, names, at) && e.loading
    ensures NamesLoading(entries + [e], names + [e.provider], at + [|entries|])
  {
    var more, at' := entries + [e], at + [|entries|];
    assert forall i | 0 <= i < |entries| :: more[i] == entries[i];
    assert at'[|at|] == |entries|;
    forall i | 0 <= i < |more| ensures more[i].loading <==> i in at' {
      if i < |entries| { assert i in at' <==> i in at; }
    }
  }

  lemma {:induction false} LoadingAppend(entries: seq<Entry>, e: Entry)
    ensures LoadingProviders(entries + [e]) == LoadingProviders(entries) + (if e.loading then [e.provider] else [])
  {
    if entries == [] {
      assert entries + [e] == [e];
    } else {
      assert (entries + [e])[1..] == entries[1..] + [e];
      LoadingAppend(entries[1..], e);
    }
  }

  lemma {:induction false} LoadingAreNamed(entries: seq<Entry>) returns (at: seq<nat>)
    ensures NamesLoading(entries, LoadingProviders(entries), at)
  {
    if entries == [] {
      at := [];
    } else {
      var before, e := entries[..|entries| - 1], entries[|entries| - 1];
      at := LoadingAreNamed(before);
      assert entries == before + [e];
      LoadingAppend(before, e);
      if e.loading {
        AddName(before, LoadingProviders(before), at, e);
        at := at + [|before|];
      } else {
        SkipName(before, LoadingProviders(before), at, e);
        assert LoadingProviders(before) + [] == LoadingProviders(before);
      }
    }
  }

  // A wait that times out does so at its first stopping event, and names exactly the
  // providers that are loading in the latest entries before it.
  lemma TimeoutNamesLoading(es: seq<Event>, id: string) returns (at: seq<nat>)
    requires OneReply(es, id) && id != ""
    requires Run(es).outcome.Rejected? && Run(es).outcome.failure.TimedOut?
    ensures var f := StopAt(es);
            f < |es| && es[f] == Timeout && NamesLoading(Latest(es[..f]), Run(es).outcome.failure.loading, at)
  {
    WaitIsExact(es, id);
    StopAtIsFirst(es);
    at := LoadingAreNamed(Latest(es[..StopAt(es)]));
  }

  lemma {:induction false} LaterIsBusy(b: seq<Event>, cwd: Cwd)
    requires FirstReady(b, cwd).None? && LastUpdate(b, cwd).Some?
    ensures !Ready(LastUpdate(b, cwd).value)
  {
    if b != [] && FirstReady(b[..|b| - 1], cwd).None? && LastUpdate(b[..|b| - 1], cwd).Some? {
      LaterIsBusy(b[..|b| - 1], cwd);
    }
  }

  lemma NoChoiceIsBusy(s: Snapshot, earlier: Option<seq<Entry>>, b: seq<Event>)
    requires Choose(s, earlier, FirstReady(b, s.cwd)).None?
    ensures !Ready(LatestOf(s, LastUpdate(b, s.cwd)))
  {
    if LastUpdate(b, s.cwd).Some? { LaterIsBusy(b, s.cwd); }
  }

  // While a wait goes on after the reply, some provider of the latest entries is loading.
  lemma PendingIsLoading(es: seq<Event>, id: string)
    requires OneReply(es, id) && id != "" && Run(es).outcome == Pending && ReplyAt(es) < |es|
    ensures exists i :: 0 <= i < |Latest(es)| && Latest(es)[i].loading
  {
    if StopAt(es) < |es| {
      StopRejects(es, id, StopAt(es));
      SettlesOnce(es, StopAt(es) + 1);
    } else {
      StopAtIsFirst(es);
      assert es[..|es|] == es;
      UnstoppedRun(es, id);
      var k := ReplyAt(es);
      NoChoiceIsBusy(es[k].snapshot, LastUpdate(es[..k], es[k].snapshot.cwd), es[k + 1..]);
      assert !Ready(Latest(es));
    }
  }

  lemma EmptyIdMissesUpdates()
    ensures exists es :: OneReply(es, "") && Run(es).outcome != Expected(es)
  {
    var busy, done := [Entry("a", true)], [Entry("a", false)];
    var reply, update := Reply(Snapshot("", None, busy)), Update(None, done);
    var es := [reply, update];
    assert es[..1] == [reply] && es[..1][..0] == [] && es[..2] == es && es[1..] == [update] && es[1..][1..] == [];
    assert busy[0].loading;
    assert [update][..0] == [] && es[..0] == [];
    assert StopAt(es[1..]) == 1 && StopAt(es) == 2;
    assert FirstReady([update], None) == Some(done);
    assert Choice(es) == Some(Snapshot("", None, done));
    assert Run(es[..1]).outcome == Pending;
    assert Run(es).outcome == Pending;
    assert OneReply(es, "");
  }

  // Every interleaving returns what it should if and only if the request id is not
  // the empty string, which the code takes for a snapshot that has not come yet.
  lemma WaitExactly(id: string)
    ensures (forall es | OneReply(es, id) :: Run(es).outcome == Expected(es)) <==> id != ""
  {
    if id == "" {
      EmptyIdMissesUpdates();
    } else {
      forall es | OneReply(es, id) ensures Run(es).outcome == Expected(es) { WaitIsExact(es, id); }
    }
  }

  // -------------------------------------------------- the closures of the wait

  class ProvidersWait {
    var settled: bool
    var requestId: Option<string>
    var snapshotCwd: Cwd
    var pendingUpdates: map<Cwd, seq<Entry>>
    var latestEntries: seq<Entry>
    var promise: Outcome

    ghost function Model(): Wait reads this { Wait(requestId, snapshotCwd, pendingUpdates, latestEntries, promise) }

    ghost predicate Valid() reads this { settled <==> promise != Pending }

    constructor ()
      ensures Valid() && Model() == START
    {
      settled, requestId, snapshotCwd, pendingUpdates, latestEntries, promise := false, None, None, map[], [], Pending;
    }

    method Finish(o: Outcome)
      requires Valid() && o != Pending
      modifies this`settled, this`promise
      ensures Valid() && Model() == Settle(old(Model()), o)
    {
      if settled { return; }
      settled, promise := true, o;
    }

    method OnUpdate(cwd: Cwd, entries: seq<Entry>)
      requires Valid()
      modifies this
      ensures Valid() && Model() == Step(old(Model()), Update(cwd, entries))
    {
      if requestId.None? || requestId.value == "" {
        pendingUpdates := pendingUpdates[cwd := entries];
        return;
      }
      if cwd != snapshotCwd { return; }
      latestEntries := entries;
      if Ready(entries) { Finish(Resolved(Snapshot(requestId.value, cwd, entries))); }
    }

    method OnSnapshot(s: Snapshot)
      requires Valid()
      modifies this
      ensures Valid() && Model() == Step(old(Model()), Reply(s))
    {
      requestId, snapshotCwd, latestEntries := Some(s.requestId), s.cwd, s.entries;
      if Ready(s.entries) {
        Finish(Resolved(s));
      } else if s.cwd in pendingUpdates && Ready(pendingUpdates[s.cwd]) {
        Finish(Resolved(Snapshot(s.requestId, s.cwd, pendingUpdates[s.cwd])));
      }
    }

    method OnSnapshotFailed(error: string)
      requires Valid()
      modifies this
      ensures Valid() && Model() == Step(old(Model()), ReplyFails(error))
    {
      Finish(Rejected(RequestFailed(error)));
    }

    method OnAbort()
      requires Valid()
      modifies this
      ensures Valid() && Model() == Step(old(Model()), Abort)
    {
      Finish(Rejected(ApiDisposed));
    }

    method OnTimeout()
      requires Valid()
      modifies this
      ensures Valid() && Model() == Step(old(Model()), Timeout)
    {
      Finish(Rejected(TimedOut(LoadingProviders(latestEntries))));
    }
  }
}
