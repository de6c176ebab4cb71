/**
  The rolling metrics window: counters and handler timings that are recorded in place,
  cut into buckets by each flush, pruned by age and merged into one aggregate.
  The aggregate is proved to be a direct tally of the recorded events.
*/
module Metrics {
  datatype AgentEvent = Timeline(item: string) | Plain(name: string)

  datatype Event =
    | Message(kind: string, bytes: int, ms: real)
    | AgentStream(agent: string, event: AgentEvent)
    | BinaryFrame(kind: string, bytes: int, ms: real)

  function TypeOf(e: AgentEvent): string {
    if e.Timeline? then "timeline:" + e.item else e.name
  }

  // ------------------------------------------------------- the direct tally

  // What one event adds under one key.
  datatype Entry = Entry(key: string, amount: int, ms: real)

  datatype Channel = Messages | Handled | Streams | Agents | Frames

  function Contribution(c: Channel, e: Event): seq<Entry> {
    match (c, e)
    case (Messages, Message(kind, bytes, ms)) => [Entry(kind, 1, ms)]
    case (Handled, Message(kind, bytes, ms)) => [Entry(kind, bytes, ms)]
    case (Handled, BinaryFrame(kind, bytes, ms)) => [Entry("binary:" + kind, bytes, ms)]
    case (Streams, AgentStream(agent, event)) => [Entry(TypeOf(event), 1, 0.0)]
    case (Agents, AgentStream(agent, event)) => [Entry(agent, 1, 0.0)]
    case (Frames, BinaryFrame(kind, bytes, ms)) => [Entry(kind, 1, ms)]
    case _ => []
  }

  function Project(c: Channel, es: seq<Event>): seq<Entry>
    decreases es
  {
    if es == [] then [] else Contribution(c, es[0]) + Project(c, es[1..])
  }

  function Keys(es: seq<Entry>): set<string> { set i | 0 <= i < |es| :: es[i].key }

  function Sum(es: seq<Entry>, k: string): int {
    if es == [] then 0 else (if es[0].key == k then es[0].amount else 0) + Sum(es[1..], k)
  }

  function Occurrences(es: seq<Entry>, k: string): nat {
    if es == [] then 0 else (if es[0].key == k then 1 else 0) + Occurrences(es[1..], k)
  }

  function TotalMs(es: seq<Entry>, k: string): real {
    if es == [] then 0.0 else (if es[0].key == k then es[0].ms else 0.0) + TotalMs(es[1..], k)
  }

  function Max(a: real, b: real): real { if a < b then b else a }

  function PeakMs(es: seq<Entry>, k: string): real
    requires k in Keys(es)
  {
    if es[0].key != k then KeysTail(es, k); PeakMs(es[1..], k)
    else if k in Keys(es[1..]) then Max(es[0].ms, PeakMs(es[1..], k))
    else es[0].ms
  }

  lemma KeysTail(es: seq<Entry>, k: string)
    requires es != []
    ensures k in Keys(es) <==> es[0].key == k || k in Keys(es[1..])
  {
  }

  lemma KeysAppend(a: seq<Entry>, b: seq<Entry>, k: string)
    ensures k in Keys(a + b) <==> k in Keys(a) || k in Keys(b)
  {
    if k in Keys(a) {
      var i :| 0 <= i < |a| && a[i].key == k;
      assert (a + b)[i].key == k;
    }
    if k in Keys(b) {
      var i :| 0 <= i < |b| && b[i].key == k;
      assert (a + b)[|a| + i].key == k;
    }
  }

  // The peak is the largest recorded duration of its key.
  lemma {:induction false} PeakIsMaximum(es: seq<Entry>, k: string)
    requires k in Keys(es)
    ensures exists i :: 0 <= i < |es| && es[i].key == k && es[i].ms == PeakMs(es, k)
    ensures forall i | 0 <= i < |es| && es[i].key == k :: es[i].ms <= PeakMs(es, k)
  {
    KeysTail(es, k);
    if k in Keys(es[1..]) {
      PeakIsMaximum(es[1..], k);
      var j :| 0 <= j < |es| - 1 && es[1..][j].key == k && es[1..][j].ms == PeakMs(es[1..], k);
      assert es[j + 1] == es[1..][j];
      forall i | 0 <= i < |es| && es[i].key == k ensures es[i].ms <= PeakMs(es, k) {
        if i > 0 { assert es[i] == es[1..][i - 1]; }
      }
    } else {
      forall i | 0 < i < |es| ensures es[i].key != k { assert es[i] == es[1..][i - 1]; }
      assert es[0].key == k;
    }
  }

  datatype Timing = Timing(count: nat, totalMs: real, maxMs: real)

  function Sums(es: seq<Entry>): map<string, int> {
    map k | k in Keys(es) :: Sum(es, k)
  }

  function Timings(es: seq<Entry>): map<string, Timing> {
    map k | k in Keys(es) :: Timing(Occurrences(es, k), TotalMs(es, k), PeakMs(es, k))
  }

  datatype Counters = Counters(
    messages: map<string, int>, bytes: map<string, int>, streams: map<string, int>,
    agents: map<string, int>, frames: map<string, int>)

  // The reference: every counter computed from the events alone.
  function Tally(es: seq<Event>): Counters {
    Counters(Sums(Project(Messages, es)), Sums(Project(Handled, es)), Sums(Project(Streams, es)),
             Sums(Project(Agents, es)), Sums(Project(Frames, es)))
  }

  function TimingTally(es: seq<Event>): map<string, Timing> { Timings(Project(Handled, es)) }

  // ---------------------------------------------------------------- merging

  function Get(m: map<string, int>, k: string): int { if k in m then m[k] else 0 }

  function Merged(a: map<string, int>, b: map<string, int>): map<string, int> {
    map k | k in a.Keys + b.Keys :: Get(a, k) + Get(b, k)
  }

  function MergedCounters(a: Counters, b: Counters): Counters {
    Counters(Merged(a.messages, b.messages), Merged(a.bytes, b.bytes), Merged(a.streams, b.streams),
             Merged(a.agents, b.agents), Merged(a.frames, b.frames))
  }

  function Join(a: Timing, b: Timing): Timing {
    Timing(a.count + b.count, a.totalMs + b.totalMs, Max(a.maxMs, b.maxMs))
  }

  function Joined(a: map<string, Timing>, b: map<string, Timing>): map<string, Timing> {
    map k | k in a.Keys + b.Keys :: if k !in b then a[k] else if k !in a then b[k] else Join(a[k], b[k])
  }

  lemma {:induction false} SumAppend(a: seq<Entry>, b: seq<Entry>, k: string)
    ensures Sum(a + b, k) == Sum(a, k) + Sum(b, k)
    ensures Occurrences(a + b, k) == Occurrences(a, k) + Occurrences(b, k)
    ensures TotalMs(a + b, k) == TotalMs(a, k) + TotalMs(b, k)
  {
    if a == [] {
      assert a + b == b;
    } else {
      assert (a + b)[1..] == a[1..] + b;
      SumAppend(a[1..], b, k);
    }
  }

  lemma {:induction false} SumAbsent(es: seq<Entry>, k: string)
    requires k !in Keys(es)
    ensures Sum(es, k) == 0 && Occurrences(es, k) == 0 && TotalMs(es, k) == 0.0
  {
    if es != [] {
      KeysTail(es, k);
      SumAbsent(es[1..], k);
    }
  }

  lemma {:induction false} PeakAppend(a: seq<Entry>, b: seq<Entry>, k: string)
    requires k in Keys(a + b)
    ensures PeakMs(a + b, k) ==
              if k !in Keys(b) then (KeysAppend(a, b, k); PeakMs(a, k))
              else if k !in Keys(a) then PeakMs(b, k)
              else Max(PeakMs(a, k), PeakMs(b, k))
  {
    KeysAppend(a, b, k);
    if a == [] {
      assert a + b == b;
    } else {
      assert (a + b)[1..] == a[1..] + b;
      KeysTail(a, k);
      KeysTail(a + b, k);
      KeysAppend(a[1..], b, k);
      if k in Keys(a[1..] + b) { PeakAppend(a[1..], b, k); }
    }
  }

  lemma MergeAt(a: seq<Entry>, b: seq<Entry>, k: string)
    requires k in Keys(a + b)
    ensures k in Keys(a) || k in Keys(b)
    ensures Sum(a + b, k) == Get(Sums(a), k) + Get(Sums(b), k)
    ensures var t := Timing(Occurrences(a + b, k), TotalMs(a + b, k), PeakMs(a + b, k));
            t == if k !in Keys(b) then Timings(a)[k]
                 else if k !in Keys(a) then Timings(b)[k]
                 else Join(Timings(a)[k], Timings(b)[k])
  {
    KeysAppend(a, b, k);
    SumAppend(a, b, k);
    PeakAppend(a, b, k);
    if k !in Keys(a) { SumAbsent(a, k); }
    if k !in Keys(b) { SumAbsent(b, k); }
  }

  lemma KeysOfAppend(a: seq<Entry>, b: seq<Entry>)
    ensures Keys(a + b) == Keys(a) + Keys(b)
  {
    forall k ensures k in Keys(a + b) <==> k in Keys(a) || k in Keys(b) { KeysAppend(a, b, k); }
  }

  lemma MergeSums(a: seq<Entry>, b: seq<Entry>)
    ensures Merged(Sums(a), Sums(b)) == Sums(a + b)
  {
    KeysOfAppend(a, b);
    var merged, direct := Merged(Sums(a), Sums(b)), Sums(a + b);
    assert merged.Keys == direct.Keys;
    forall k | k in direct.Keys ensures merged[k] == direct[k] { MergeAt(a, b, k); }
  }

  lemma JoinTimings(a: seq<Entry>, b: seq<Entry>)
    ensures Joined(Timings(a), Timings(b)) == Timings(a + b)
  {
    KeysOfAppend(a, b);
    var joined, direct := Joined(Timings(a), Timings(b)), Timings(a + b);
    assert joined.Keys == direct.Keys;
    forall k | k in direct.Keys ensures joined[k] == direct[k] { MergeAt(a, b, k); }
  }

  lemma Associate<T>(a: seq<T>, b: seq<T>, c: seq<T>)
    ensures (a + b) + c == a + (b + c)
  {
  }

  lemma {:induction false} ProjectAppend(c: Channel, a: seq<Event>, b: seq<Event>)
    ensures Project(c, a + b) == Project(c, a) + Project(c, b)
  {
    if a == [] {
      assert a + b == b;
    } else {
      assert (a + b)[1..] == a[1..] + b;
      ProjectAppend(c, a[1..], b);
      Associate(Contribution(c, a[0]), Project(c, a[1..]), Project(c, b));
    }
  }

  lemma TallyAppend(a: seq<Event>, b: seq<Event>)
    ensures Tally(a + b) == MergedCounters(Tally(a), Tally(b))
    ensures TimingTally(a + b) == Joined(TimingTally(a), TimingTally(b))
  {
    ProjectAppend(Messages, a, b);
    ProjectAppend(Handled, a, b);
    ProjectAppend(Streams, a, b);
    ProjectAppend(Agents, a, b);
    ProjectAppend(Frames, a, b);
    MergeSums(Project(Messages, a), Project(Messages, b));
    MergeSums(Project(Handled, a), Project(Handled, b));
    MergeSums(Project(Streams, a), Project(Streams, b));
    MergeSums(Project(Agents, a), Project(Agents, b));
    MergeSums(Project(Frames, a), Project(Frames, b));
    JoinTimings(Project(Handled, a), Project(Handled, b));
  }

  const BINARY := "binary:"

  function FrameCount(es: seq<Event>, k: string): nat {
    if BINARY <= k then Occurrences(Project(Frames, es), k[|BINARY|..]) else 0
  }

  // The handler timing of a key counts the messages of that type, and the frames of
  // that kind under their prefixed key.
  lemma {:induction false} TimingCountsAgree(es: seq<Event>, k: string)
    ensures Occurrences(Project(Handled, es), k) == Sum(Project(Messages, es), k) + FrameCount(es, k)
  {
    if es != [] {
      var e, rest := es[0], es[1..];
      TimingCountsAgree(rest, k);
      assert es == [e] + rest;
      SumAppend(Contribution(Handled, e), Project(Handled, rest), k);
      SumAppend(Contribution(Messages, e), Project(Messages, rest), k);
      if BINARY <= k {
        SumAppend(Contribution(Frames, e), Project(Frames, rest), k[|BINARY|..]);
        if e.BinaryFrame? {
          assert BINARY + k[|BINARY|..] == k;
          assert BINARY + e.kind == k <==> e.kind == k[|BINARY|..];
        }
      } else {
        if e.BinaryFrame? { assert BINARY <= BINARY + e.kind; }
      }
    }
  }

  lemma NoEntries()
    ensures Sums([]) == map[] && Timings([]) == map[]
  {
    assert Keys([]) == {};
  }

  lemma ProjectOne(c: Channel, e: Event)
    ensures Project(c, [e]) == Contribution(c, e)
  {
    assert [e][1..] == [] && Contribution(c, e) + [] == Contribution(c, e);
  }

  lemma AloneIn(c: Channel, e: Event)
    ensures var d := Contribution(c, e);
            && |d| <= 1
            && Sums(Project(c, [e])) == (if d == [] then map[] else map[d[0].key := d[0].amount])
            && Timings(Project(c, [e])) ==
               (if d == [] then map[] else map[d[0].key := Timing(1, d[0].ms, d[0].ms)])
  {
    ProjectOne(c, e);
    NoEntries();
    var d := Contribution(c, e);
    if d != [] {
      assert d == [d[0]];
      OneEntry(d[0]);
    }
  }

  lemma MessageAlone(e: Event)
    requires e.Message?
    ensures Tally([e]) == Counters(map[e.kind := 1], map[e.kind := e.bytes], map[], map[], map[])
    ensures TimingTally([e]) == map[e.kind := Timing(1, e.ms, e.ms)]
  {
    AloneIn(Messages, e);
    AloneIn(Handled, e);
    AloneIn(Streams, e);
    AloneIn(Agents, e);
    AloneIn(Frames, e);
  }

  lemma StreamAlone(e: Event)
    requires e.AgentStream?
    ensures var key := match e.event { case Timeline(item) => "timeline:" + item case Plain(name) => name };
            Tally([e]) == Counters(map[], map[], map[key := 1], map[e.agent := 1], map[])
    ensures TimingTally([e]) == map[]
  {
    AloneIn(Messages, e);
    AloneIn(Handled, e);
    AloneIn(Streams, e);
    AloneIn(Agents, e);
    AloneIn(Frames, e);
  }

  lemma FrameAlone(e: Event)
    requires e.BinaryFrame?
    ensures Tally([e]) == Counters(map[], map["binary:" + e.kind := e.bytes], map[], map[], map[e.kind := 1])
    ensures TimingTally([e]) == map["binary:" + e.kind := Timing(1, e.ms, e.ms)]
  {
    AloneIn(Messages, e);
    AloneIn(Handled, e);
    AloneIn(Streams, e);
    AloneIn(Agents, e);
    AloneIn(Frames, e);
  }

  // What one event alone amounts to: a message counts once and adds its bytes under its
  // type, an agent event counts under its own type and its agent, a timeline event under
  // the type of its item, and a frame's bytes and time go under its prefixed key.
  lemma TallyOfOne(e: Event)
    ensures Tally([e]) ==
            match e {
              case Message(kind, bytes, _) => Counters(map[kind := 1], map[kind := bytes], map[], map[], map[])
              case AgentStream(agent, Timeline(item)) =>
                Counters(map[], map[], map["timeline:" + item := 1], map[agent := 1], map[])
              case AgentStream(agent, Plain(name)) => Counters(map[], map[], map[name := 1], map[agent := 1], map[])
              case BinaryFrame(kind, bytes, _) =>
                Counters(map[], map["binary:" + kind := bytes], map[], map[], map[kind := 1])
            }
    ensures TimingTally([e]) ==
            match e {
              case Message(kind, _, ms) => map[kind := Timing(1, ms, ms)]
              case AgentStream(_, _) => map[]
              case BinaryFrame(kind, _, ms) => map["binary:" + kind := Timing(1, ms, ms)]
            }
  {
    match e {
      case Message(_, _, _) => MessageAlone(e);
      case AgentStream(_, _) => StreamAlone(e);
      case BinaryFrame(_, _, _) => FrameAlone(e);
    }
  }

  function Increment(m: map<string, int>, k: string, amount: int): map<string, int> {
    m[k := Get(m, k) + amount]
  }

  function Put(m: map<string, Timing>, k: string, t: Timing): map<string, Timing> {
    m[k := if k in m then Join(m[k], t) else t]
  }

  function Once(ms: real): Timing { Timing(1, ms, ms) }

  lemma OneEntry(e: Entry)
    ensures Sums([e]) == map[e.key := e.amount] && Timings([e]) == map[e.key := Timing(1, e.ms, e.ms)]
  {
    var es := [e];
    assert es[0] == e;
    assert Keys(es) == {e.key};
    SumAbsent(es[1..], e.key);
  }

  lemma SumsOneMore(es: seq<Entry>, e: Entry)
    ensures Sums(es + [e]) == Increment(Sums(es), e.key, e.amount)
  {
    var one, m := [e], Sums(es);
    OneEntry(e);
    MergeSums(es, one);
    assert Sums(es + one) == Increment(m, e.key, e.amount);
  }

  lemma TimingsOneMore(es: seq<Entry>, e: Entry)
    ensures Timings(es + [e]) == Put(Timings(es), e.key, Once(e.ms))
  {
    var one, t := [e], Timings(es);
    OneEntry(e);
    JoinTimings(es, one);
    assert Timings(es + one) == Put(t, e.key, Once(e.ms));
  }

  lemma ProjectOneMore(c: Channel, es: seq<Event>, e: Event)
    ensures Project(c, es + [e]) == Project(c, es) + Contribution(c, e)
  {
    ProjectAppend(c, es, [e]);
    assert Project(c, [e]) == Contribution(c, e) + Project(c, []);
  }

  lemma ChannelOneMore(c: Channel, es: seq<Event>, e: Event)
    ensures var d, m := Contribution(c, e), Sums(Project(c, es));
            Sums(Project(c, es + [e])) == Bump(m, d)
  {
    ProjectOneMore(c, es, e);
    var d := Contribution(c, e);
    if d != [] {
      assert d == [d[0]];
      SumsOneMore(Project(c, es), d[0]);
    } else {
      assert Project(c, es) + [] == Project(c, es);
    }
  }

  function Bump(m: map<string, int>, d: seq<Entry>): map<string, int> {
    if d == [] then m else Increment(m, d[0].key, d[0].amount)
  }

  // The counters and timings after one more event, as the three `record` calls leave them.
  function Count(t: Counters, e: Event): Counters {
    match e
    case Message(kind, bytes, _) =>
      t.(messages := Increment(t.messages, kind, 1), bytes := Increment(t.bytes, kind, bytes))
    case AgentStream(agent, event) =>
      t.(streams := Increment(t.streams, TypeOf(event), 1), agents := Increment(t.agents, agent, 1))
    case BinaryFrame(kind, bytes, _) =>
      t.(frames := Increment(t.frames, kind, 1), bytes := Increment(t.bytes, BINARY + kind, bytes))
  }

  function Observe(m: map<string, Timing>, e: Event): map<string, Timing> {
    match e
    case Message(kind, _, ms) => Put(m, kind, Once(ms))
    case AgentStream(_, _) => m
    case BinaryFrame(kind, _, ms) => Put(m, BINARY + kind, Once(ms))
  }

  // The same, channel by channel.
  function Bumped(t: Counters, e: Event): Counters {
    Counters(Bump(t.messages, Contribution(Messages, e)), Bump(t.bytes, Contribution(Handled, e)),
             Bump(t.streams, Contribution(Streams, e)), Bump(t.agents, Contribution(Agents, e)),
             Bump(t.frames, Contribution(Frames, e)))
  }

  lemma CountIsBumped(t: Counters, e: Event)
    ensures Count(t, e) == Bumped(t, e)
  {
  }

  lemma TallyIsBumped(es: seq<Event>, e: Event)
    ensures Tally(es + [e]) == Bumped(Tally(es), e)
  {
    ChannelOneMore(Messages, es, e);
    ChannelOneMore(Handled, es, e);
    ChannelOneMore(Streams, es, e);
    ChannelOneMore(Agents, es, e);
    ChannelOneMore(Frames, es, e);
  }

  lemma TallyOneMore(es: seq<Event>, e: Event)
    ensures Tally(es + [e]) == Count(Tally(es), e)
  {
    TallyIsBumped(es, e);
    CountIsBumped(Tally(es), e);
  }

  lemma TimingTallyOneMore(es: seq<Event>, e: Event)
    ensures TimingTally(es + [e]) == Observe(TimingTally(es), e)
  {
    ProjectOneMore(Handled, es, e);
    var d := Contribution(Handled, e);
    if d != [] {
      assert d == [d[0]];
      TimingsOneMore(Project(Handled, es), d[0]);
    } else {
      assert Project(Handled, es) + [] == Project(Handled, es);
    }
  }

  // The counters as they are kept: one event after another.
  datatype Kept = Kept(counters: Counters, timings: map<string, Timing>)

  const NOTHING := Kept(Counters(map[], map[], map[], map[], map[]), map[])

  function Running(es: seq<Event>): Kept {
    if es == [] then NOTHING
    else
      var before, e := Running(es[..|es| - 1]), es[|es| - 1];
      Kept(Count(before.counters, e), Observe(before.timings, e))
  }

  lemma RunningOneMore(es: seq<Event>, e: Event)
    ensures Running(es + [e]) == Kept(Count(Running(es).counters, e), Observe(Running(es).timings, e))
  {
  }

  // Recording one event after another computes the direct tally.
  lemma {:induction false} RunningIsTally(es: seq<Event>)
    ensures Running(es) == Kept(Tally(es), TimingTally(es))
  {
    if es == [] {
      assert Sums([]) == map[] && Timings([]) == map[];
    } else {
      var before, e := es[..|es| - 1], es[|es| - 1];
      RunningIsTally(before);
      assert es == before + [e];
      TallyOneMore(before, e);
      TimingTallyOneMore(before, e);
    }
  }

  function MergedKept(a: Kept, b: Kept): Kept {
    Kept(MergedCounters(a.counters, b.counters), Joined(a.timings, b.timings))
  }

  // Merging two buckets keeps what recording all their events would have kept.
  lemma RunningAppend(a: seq<Event>, b: seq<Event>)
    ensures Running(a + b) == MergedKept(Running(a), Running(b))
  {
    RunningIsTally(a);
    RunningIsTally(b);
    RunningIsTally(a + b);
    TallyAppend(a, b);
  }

  // ------------------------------------------------------------- the window

  datatype Flushed = Flushed(endedAt: int, events: seq<Event>)

  datatype Window = Window(retained: seq<Flushed>, pending: seq<Event>)

  // What `hasActivity` looks at: agent stream events alone do not count.
  predicate Active(es: seq<Event>) {
    exists i | 0 <= i < |es| :: es[i].Message? || es[i].BinaryFrame?
  }

  // The two maps that `hasActivity` tests are both empty exactly when there is none.
  lemma ActiveExactly(es: seq<Event>)
    ensures var c := Running(es).counters; Active(es) <==> c.messages != map[] || c.frames != map[]
  {
  }

  function Prune(bs: seq<Flushed>, cutoff: int): seq<Flushed> {
    if bs != [] && bs[0].endedAt < cutoff then Prune(bs[1..], cutoff) else bs
  }

  // The buckets that a sliding window should keep.
  function Within(bs: seq<Flushed>, cutoff: int): seq<Flushed> {
    if bs == [] then [] else (if bs[0].endedAt < cutoff then [] else [bs[0]]) + Within(bs[1..], cutoff)
  }

  function Cut(w: Window, now: int): Window {
    if Active(w.pending) then Window(w.retained + [Flushed(now, w.pending)], []) else w
  }

  function FlushWindow(w: Window, now: int, windowMs: int): Window {
    var w1 := Cut(w, now);
    Window(Prune(w1.retained, now - windowMs), w1.pending)
  }

  function EventsOf(bs: seq<Flushed>): seq<Event> {
    if bs == [] then [] else bs[0].events + EventsOf(bs[1..])
  }

  lemma {:induction false} EventsOfAppend(a: seq<Flushed>, b: seq<Flushed>)
    ensures EventsOf(a + b) == EventsOf(a) + EventsOf(b)
  {
    if a == [] {
      assert a + b == b;
    } else {
      assert (a + b)[1..] == a[1..] + b;
      EventsOfAppend(a[1..], b);
      Associate(a[0].events, EventsOf(a[1..]), EventsOf(b));
    }
  }

  lemma {:induction false} WithinKeepsFresh(bs: seq<Flushed>, cutoff: int)
    ensures |Within(bs, cutoff)| <= |bs|
    ensures |Within(bs, cutoff)| == |bs| <==> forall i | 0 <= i < |bs| :: bs[i].endedAt >= cutoff
    ensures |Within(bs, cutoff)| == |bs| ==> Within(bs, cutoff) == bs
  {
    if bs != [] {
      WithinKeepsFresh(bs[1..], cutoff);
      assert bs == [bs[0]] + bs[1..];
      if |Within(bs, cutoff)| == |bs| {
        forall i | 0 <= i < |bs| ensures bs[i].endedAt >= cutoff { if i > 0 { assert bs[i] == bs[1..][i - 1]; } }
      }
    }
  }

  // No stale bucket stands behind a fresh one.
  ghost predicate StaleFirst(bs: seq<Flushed>, cutoff: int) {
    forall i, j | 0 <= i < j < |bs| :: bs[j].endedAt < cutoff ==> bs[i].endedAt < cutoff
  }

  lemma StaleFirstTail(bs: seq<Flushed>, cutoff: int)
    requires bs != []
    ensures bs[0].endedAt < cutoff ==> (StaleFirst(bs, cutoff) <==> StaleFirst(bs[1..], cutoff))
    ensures bs[0].endedAt >= cutoff ==>
            (StaleFirst(bs, cutoff) <==> forall j | 0 <= j < |bs| :: bs[j].endedAt >= cutoff)
  {
  }

  // Dropping from the front keeps exactly the window if and only if no stale bucket
  // stands behind a fresh one.
  lemma {:induction false} PruneExactly(bs: seq<Flushed>, cutoff: int)
    ensures Prune(bs, cutoff) == Within(bs, cutoff) <==> StaleFirst(bs, cutoff)
  {
    if bs != [] {
      StaleFirstTail(bs, cutoff);
      if bs[0].endedAt < cutoff {
        PruneExactly(bs[1..], cutoff);
      } else {
        WithinKeepsFresh(bs, cutoff);
      }
    }
  }

  lemma {:induction false} PruneTwice(bs: seq<Flushed>, more: seq<Flushed>, early: int, late: int)
    requires early <= late
    ensures Prune(Prune(bs, early) + more, late) == Prune(bs + more, late)
  {
    if bs != [] && bs[0].endedAt < early {
      assert (bs + more)[1..] == bs[1..] + more;
      PruneTwice(bs[1..], more, early, late);
    }
  }

  lemma PruneAgain(w: Window, now: int, windowMs: int)
    ensures var w1 := FlushWindow(w, now, windowMs); FlushWindow(w1, now, windowMs) == w1
  {
    var all := Cut(w, now).retained;
    PruneTwice(all, [], now - windowMs, now - windowMs);
    assert all + [] == all && Prune(all, now - windowMs) + [] == Prune(all, now - windowMs);
  }

  // One flush, with the events recorded since the flush before it.
  datatype Tick = Tick(now: int, events: seq<Event>)

  function Run(ticks: seq<Tick>, windowMs: int): Window {
    if ticks == [] then Window([], [])
    else
      var w := Run(ticks[..|ticks| - 1], windowMs);
      var t := ticks[|ticks| - 1];
      FlushWindow(w.(pending := w.pending + t.events), t.now, windowMs)
  }

  // The same run with nothing ever dropped: every bucket that was cut.
  function Ever(ticks: seq<Tick>): Window {
    if ticks == [] then Window([], [])
    else
      var w := Ever(ticks[..|ticks| - 1]);
      var t := ticks[|ticks| - 1];
      Cut(w.(pending := w.pending + t.events), t.now)
  }

  function Recorded(ticks: seq<Tick>): seq<Event> {
    if ticks == [] then [] else Recorded(ticks[..|ticks| - 1]) + ticks[|ticks| - 1].events
  }

  ghost predicate ClockAdvances(ticks: seq<Tick>) {
    forall i, j | 0 <= i < j < |ticks| :: ticks[i].now <= ticks[j].now
  }

  ghost predicate Sorted(bs: seq<Flushed>) {
    forall i, j | 0 <= i < j < |bs| :: bs[i].endedAt <= bs[j].endedAt
  }

  // No recorded event is lost or counted twice by cutting.
  lemma {:induction false} NothingLost(ticks: seq<Tick>)
    ensures EventsOf(Ever(ticks).retained) + Ever(ticks).pending == Recorded(ticks)
  {
    if ticks != [] {
      var w, t := Ever(ticks[..|ticks| - 1]), ticks[|ticks| - 1];
      NothingLost(ticks[..|ticks| - 1]);
      EventsOfAppend(w.retained, [Flushed(t.now, w.pending + t.events)]);
      assert EventsOf([Flushed(t.now, w.pending + t.events)]) == w.pending + t.events;
    }
  }

  // What a run with an advancing clock, last flushed at `now`, has retained and cut.
  ghost predicate Slid(w: Window, ever: Window, now: int, windowMs: int) {
    && w.pending == ever.pending && w.retained == Prune(ever.retained, now - windowMs)
    && Sorted(ever.retained) && forall i | 0 <= i < |ever.retained| :: ever.retained[i].endedAt <= now
  }

  lemma SlideOnce(w: Window, ever: Window, last: int, t: Tick, windowMs: int)
    requires Slid(w, ever, last, windowMs) && last <= t.now
    ensures Slid(FlushWindow(w.(pending := w.pending + t.events), t.now, windowMs),
                 Cut(ever.(pending := ever.pending + t.events), t.now), t.now, windowMs)
  {
    var pending := w.pending + t.events;
    var more := if Active(pending) then [Flushed(t.now, pending)] else [];
    PruneTwice(ever.retained, more, last - windowMs, t.now - windowMs);
    assert w.retained + [] == w.retained && ever.retained + [] == ever.retained;
  }

  lemma {:induction false} PrunedEver(ticks: seq<Tick>, windowMs: int)
    requires ticks != [] && ClockAdvances(ticks)
    ensures Slid(Run(ticks, windowMs), Ever(ticks), ticks[|ticks| - 1].now, windowMs)
  {
    var before, t := ticks[..|ticks| - 1], ticks[|ticks| - 1];
    if before == [] {
      SlideOnce(Window([], []), Window([], []), t.now, t, windowMs);
    } else {
      PrunedEver(before, windowMs);
      assert before[|before| - 1] == ticks[|ticks| - 2];
      SlideOnce(Run(before, windowMs), Ever(before), before[|before| - 1].now, t, windowMs);
    }
  }

  // The sliding window over whole runs: with a clock that never steps back, what is
  // retained after a flush is every bucket ever cut in the last `windowMs`.
  lemma WindowOverRuns(ticks: seq<Tick>, windowMs: int)
    requires ticks != [] && ClockAdvances(ticks)
    ensures Run(ticks, windowMs).retained == Within(Ever(ticks).retained, ticks[|ticks| - 1].now - windowMs)
    ensures Run(ticks, windowMs).pending == Ever(ticks).pending
  {
    PrunedEver(ticks, windowMs);
    PruneExactly(Ever(ticks).retained, ticks[|ticks| - 1].now - windowMs);
  }

  // ------------------------------------------- the window, whatever the clock does

  lemma {:induction false} WithinAppend(a: seq<Flushed>, b: seq<Flushed>, cutoff: int)
    ensures Within(a + b, cutoff) == Within(a, cutoff) + Within(b, cutoff)
  {
    if a == [] {
      assert a + b == b;
    } else {
      assert (a + b)[1..] == a[1..] + b;
      WithinAppend(a[1..], b, cutoff);
      Associate(if a[0].endedAt < cutoff then [] else [a[0]], Within(a[1..], cutoff), Within(b, cutoff));
    }
  }

  lemma {:induction false} WithinIsFresh(bs: seq<Flushed>, cutoff: int)
    ensures forall i | 0 <= i < |Within(bs, cutoff)| :: Within(bs, cutoff)[i].endedAt >= cutoff
    ensures Within(bs, cutoff) == [] <==> forall i | 0 <= i < |bs| :: bs[i].endedAt < cutoff
  {
    if bs != [] {
      WithinIsFresh(bs[1..], cutoff);
      assert bs == [bs[0]] + bs[1..];
    }
  }

  // Exactly the first `d` buckets are stale.
  ghost predicate StaleUpTo(bs: seq<Flushed>, d: nat, cutoff: int) {
    forall i | 0 <= i < |bs| :: bs[i].endedAt < cutoff <==> i < d
  }

  ghost predicate AllStale(bs: seq<Flushed>, cutoff: int) { forall i | 0 <= i < |bs| :: bs[i].endedAt < cutoff }

  ghost predicate AllFresh(bs: seq<Flushed>, cutoff: int) { forall i | 0 <= i < |bs| :: bs[i].endedAt >= cutoff }

  lemma BackIsWindow(front: seq<Flushed>, back: seq<Flushed>, cutoff: int)
    ensures back == Within(front + back, cutoff) <==> AllStale(front, cutoff) && AllFresh(back, cutoff)
  {
    WithinAppend(front, back, cutoff);
    WithinIsFresh(front + back, cutoff);
    WithinIsFresh(front, cutoff);
    WithinKeepsFresh(back, cutoff);
    assert [] + back == back;
    if AllFresh(back, cutoff) && back == Within(front, cutoff) + back { assert |Within(front, cutoff)| == 0; }
  }

  lemma SplitStale(front: seq<Flushed>, back: seq<Flushed>, cutoff: int)
    ensures StaleUpTo(front + back, |front|, cutoff) <==> AllStale(front, cutoff) && AllFresh(back, cutoff)
  {
    var bs := front + back;
    assert forall i | 0 <= i < |front| :: bs[i] == front[i];
    assert forall i | 0 <= i < |back| :: bs[|front| + i] == back[i];
  }

  lemma SuffixIsWindow(bs: seq<Flushed>, d: nat, cutoff: int)
    requires d <= |bs|
    ensures bs[d..] == Within(bs, cutoff) <==> StaleUpTo(bs, d, cutoff)
  {
    var front, back := bs[..d], bs[d..];
    assert bs == front + back && |front| == d;
    BackIsWindow(front, back, cutoff);
    SplitStale(front, back, cutoff);
  }

  // How many buckets a clock reading lets go, given when the buckets ended.
  function StaleCount(ends: seq<int>, cutoff: int): (n: nat)
    ensures n <= |ends|
  {
    if ends != [] && ends[0] < cutoff then 1 + StaleCount(ends[1..], cutoff) else 0
  }

  function EndsOf(bs: seq<Flushed>): seq<int> { seq(|bs|, i requires 0 <= i < |bs| => bs[i].endedAt) }

  function Cutoff(ticks: seq<Tick>, windowMs: int): int
    requires ticks != []
  {
    ticks[|ticks| - 1].now - windowMs
  }

  // How many buckets the clock readings of a history have let go in all.
  function Dropped(ticks: seq<Tick>, windowMs: int): (d: nat)
    ensures d <= |Ever(ticks).retained|
  {
    if ticks == [] then 0
    else
      var d := Dropped(ticks[..|ticks| - 1], windowMs);
      d + StaleCount(EndsOf(Ever(ticks).retained)[d..], Cutoff(ticks, windowMs))
  }

  lemma {:induction false} PruneIsDrop(bs: seq<Flushed>, cutoff: int)
    ensures Prune(bs, cutoff) == bs[StaleCount(EndsOf(bs), cutoff)..]
  {
    if bs != [] && bs[0].endedAt < cutoff {
      assert EndsOf(bs)[1..] == EndsOf(bs[1..]);
      PruneIsDrop(bs[1..], cutoff);
    }
  }

  lemma PruneSuffix(all: seq<Flushed>, d: nat, cutoff: int)
    requires d <= |all|
    ensures Prune(all[d..], cutoff) == all[d + StaleCount(EndsOf(all)[d..], cutoff)..]
  {
    var back := all[d..];
    var n := StaleCount(EndsOf(back), cutoff);
    assert EndsOf(all)[d..] == EndsOf(back);
    PruneIsDrop(back, cutoff);
    assert back[n..] == all[d + n..];
  }

  // The part of the buckets cut so far that a flush after these prunes.
  lemma FlushPrunes(ticks: seq<Tick>, windowMs: int, d: nat)
    requires ticks != [] && d <= |Ever(ticks[..|ticks| - 1]).retained|
    requires var ever := Ever(ticks[..|ticks| - 1]);
             Run(ticks[..|ticks| - 1], windowMs) == Window(ever.retained[d..], ever.pending)
    ensures d <= |Ever(ticks).retained| && Ever(ticks[..|ticks| - 1]).retained <= Ever(ticks).retained
    ensures Run(ticks, windowMs) ==
            Window(Prune(Ever(ticks).retained[d..], Cutoff(ticks, windowMs)), Ever(ticks).pending)
  {
    var ever, t := Ever(ticks[..|ticks| - 1]), ticks[|ticks| - 1];
    var pending := ever.pending + t.events;
    var more := [Flushed(t.now, pending)];
    if Active(pending) { assert (ever.retained + more)[d..] == ever.retained[d..] + more; }
  }

  // Over every history what is retained is what the dropped front leaves.
  lemma {:induction false} RetainedIsSuffix(ticks: seq<Tick>, windowMs: int)
    ensures Run(ticks, windowMs) == Window(Ever(ticks).retained[Dropped(ticks, windowMs)..], Ever(ticks).pending)
  {
    if ticks != [] {
      var before := ticks[..|ticks| - 1];
      RetainedIsSuffix(before, windowMs);
      var d, all := Dropped(before, windowMs), Ever(ticks).retained;
      FlushPrunes(ticks, windowMs, d);
      PruneSuffix(all, d, Cutoff(ticks, windowMs));
    }
  }

  // A flush retains exactly the window if and only if exactly the buckets that the
  // clock readings have let go end before it.
  lemma WindowExactly(ticks: seq<Tick>, windowMs: int)
    requires ticks != []
    ensures Run(ticks, windowMs).retained == Within(Ever(ticks).retained, Cutoff(ticks, windowMs))
            <==> StaleUpTo(Ever(ticks).retained, Dropped(ticks, windowMs), Cutoff(ticks, windowMs))
  {
    RetainedIsSuffix(ticks, windowMs);
    SuffixIsWindow(Ever(ticks).retained, Dropped(ticks, windowMs), Cutoff(ticks, windowMs));
  }

  // Every flush of the history retains exactly its window.
  ghost predicate AlwaysExact(ticks: seq<Tick>, windowMs: int) {
    ticks != [] ==>
      && AlwaysExact(ticks[..|ticks| - 1], windowMs)
      && Run(ticks, windowMs).retained == Within(Ever(ticks).retained, Cutoff(ticks, windowMs))
  }

  // At no flush is a bucket stale behind a fresh one, and none that was stale at the
  // flush before is fresh again.
  ghost predicate ClockKeepsOrder(ticks: seq<Tick>, windowMs: int) {
    ticks != [] ==>
      var before := ticks[..|ticks| - 1];
      && ClockKeepsOrder(before, windowMs)
      && StaleFirst(Ever(ticks).retained, Cutoff(ticks, windowMs))
      && (before != [] ==>
            forall i | 0 <= i < |Ever(before).retained|
                       && Ever(before).retained[i].endedAt < Cutoff(before, windowMs) ::
              Ever(before).retained[i].endedAt < Cutoff(ticks, windowMs))
  }

  lemma {:induction false} PruneSkips(bs: seq<Flushed>, d: nat, cutoff: int)
    requires d <= |bs| && forall i | 0 <= i < d :: bs[i].endedAt < cutoff
    ensures Prune(bs, cutoff) == Prune(bs[d..], cutoff)
  {
    if d > 0 {
      assert bs[1..][d - 1..] == bs[d..];
      PruneSkips(bs[1..], d - 1, cutoff);
    }
  }

  ghost predicate FirstStale(bs: seq<Flushed>, d: nat, cutoff: int)
    requires d <= |bs|
  {
    forall i | 0 <= i < d :: bs[i].endedAt < cutoff
  }

  // Pruning what is left of the buckets keeps exactly the window of all of them if and
  // only if those that are gone are stale and no stale one stands behind a fresh one.
  lemma PruneRestExactly(bs: seq<Flushed>, d: nat, cutoff: int)
    requires d <= |bs|
    ensures Prune(bs[d..], cutoff) == Within(bs, cutoff) <==> StaleFirst(bs, cutoff) && FirstStale(bs, d, cutoff)
  {
    var n := d + StaleCount(EndsOf(bs)[d..], cutoff);
    PruneSuffix(bs, d, cutoff);
    SuffixIsWindow(bs, n, cutoff);
    if StaleFirst(bs, cutoff) && FirstStale(bs, d, cutoff) {
      PruneSkips(bs, d, cutoff);
      PruneExactly(bs, cutoff);
    }
  }

  // The two sides at the last flush, in terms of how many buckets were gone before it.
  lemma NextIsExact(ticks: seq<Tick>, windowMs: int, d: nat)
    requires ticks != [] && AlwaysExact(ticks[..|ticks| - 1], windowMs)
    requires d == Dropped(ticks[..|ticks| - 1], windowMs)
    ensures d <= |Ever(ticks).retained|
    ensures var all, c := Ever(ticks).retained, Cutoff(ticks, windowMs);
            AlwaysExact(ticks, windowMs) <==> Prune(all[d..], c) == Within(all, c)
  {
    RetainedIsSuffix(ticks[..|ticks| - 1], windowMs);
    FlushPrunes(ticks, windowMs, d);
  }

  lemma GoneWereStale(ticks: seq<Tick>, windowMs: int)
    requires AlwaysExact(ticks, windowMs)
    ensures if ticks == [] then Dropped(ticks, windowMs) == 0
            else StaleUpTo(Ever(ticks).retained, Dropped(ticks, windowMs), Cutoff(ticks, windowMs))
  {
    if ticks != [] { WindowExactly(ticks, windowMs); }
  }

  lemma StaleBefore(front: seq<Flushed>, all: seq<Flushed>, d: nat, last: int, cutoff: int)
    requires d <= |front| && front <= all && StaleUpTo(front, d, last)
    ensures (forall i | 0 <= i < |front| && front[i].endedAt < last :: front[i].endedAt < cutoff)
            <==> FirstStale(all, d, cutoff)
  {
    assert forall i | 0 <= i < |front| :: front[i] == all[i];
  }

  lemma NextKeepsOrder(ticks: seq<Tick>, windowMs: int, d: nat)
    requires ticks != [] && ClockKeepsOrder(ticks[..|ticks| - 1], windowMs)
    requires AlwaysExact(ticks[..|ticks| - 1], windowMs) && d == Dropped(ticks[..|ticks| - 1], windowMs)
    requires d <= |Ever(ticks).retained| && Ever(ticks[..|ticks| - 1]).retained <= Ever(ticks).retained
    ensures ClockKeepsOrder(ticks, windowMs) <==>
            StaleFirst(Ever(ticks).retained, Cutoff(ticks, windowMs))
            && FirstStale(Ever(ticks).retained, d, Cutoff(ticks, windowMs))
  {
    var before := ticks[..|ticks| - 1];
    GoneWereStale(before, windowMs);
    if before != [] {
      StaleBefore(Ever(before).retained, Ever(ticks).retained, d, Cutoff(before, windowMs), Cutoff(ticks, windowMs));
    }
  }

  lemma NextExactly(ticks: seq<Tick>, windowMs: int)
    requires ticks != [] && AlwaysExact(ticks[..|ticks| - 1], windowMs)
             && ClockKeepsOrder(ticks[..|ticks| - 1], windowMs)
    ensures AlwaysExact(ticks, windowMs) <==> ClockKeepsOrder(ticks, windowMs)
  {
    var d := Dropped(ticks[..|ticks| - 1], windowMs);
    NextIsExact(ticks, windowMs, d);
    PruneRestExactly(Ever(ticks).retained, d, Cutoff(ticks, windowMs));
    EverGrows(ticks);
    NextKeepsOrder(ticks, windowMs, d);
  }

  lemma EverGrows(ticks: seq<Tick>)
    requires ticks != []
    ensures Ever(ticks[..|ticks| - 1]).retained <= Ever(ticks).retained
  {
  }

  // Every flush of a history retains exactly its window if and only if the clock keeps
  // the buckets in order.
  lemma {:induction false} AlwaysExactExactly(ticks: seq<Tick>, windowMs: int)
    ensures AlwaysExact(ticks, windowMs) <==> ClockKeepsOrder(ticks, windowMs)
  {
    if ticks != [] {
      AlwaysExactExactly(ticks[..|ticks| - 1], windowMs);
      if AlwaysExact(ticks[..|ticks| - 1], windowMs) { NextExactly(ticks, windowMs); }
    }
  }

  lemma RunOneMore(ticks: seq<Tick>, t: Tick, windowMs: int)
    ensures var w := Run(ticks, windowMs);
            Run(ticks + [t], windowMs) == FlushWindow(w.(pending := w.pending + t.events), t.now, windowMs)
    ensures var w := Ever(ticks); Ever(ticks + [t]) == Cut(w.(pending := w.pending + t.events), t.now)
  {
  }

  // A clock that steps back can leave a stale bucket behind a fresh one.
  lemma BackwardClockKeepsStale(e: Event)
    requires e.Message?
    ensures var ticks := [] + [Tick(100, [e])] + [Tick(10, [e])] + [Tick(90, [])];
            Run(ticks, 60).retained == [Flushed(100, [e]), Flushed(10, [e])]
            && Within(Ever(ticks).retained, 90 - 60) == [Flushed(100, [e])]
  {
    var t1, t2, t3 := Tick(100, [e]), Tick(10, [e]), Tick(90, []);
    RunOneMore([], t1, 60);
    RunOneMore([] + [t1], t2, 60);
    RunOneMore([] + [t1] + [t2], t3, 60);
    assert [] + [e] == [e] && [e][0].Message?;
    var kept := [Flushed(100, [e]), Flushed(10, [e])];
    assert Run([] + [t1], 60) == Ever([] + [t1]) == Window([Flushed(100, [e])], []);
    assert Run([] + [t1] + [t2], 60) == Ever([] + [t1] + [t2]) == Window(kept, []);
    assert kept[1..] == [Flushed(10, [e])] && kept[1..][1..] == [];
    assert Within(kept[1..], 30) == [];
  }

  // And it can let go of a bucket that is within the window again.
  lemma BackwardClockLosesFresh(e: Event)
    requires e.Message?
    ensures var ticks := [] + [Tick(30, [e])] + [Tick(100, [e])] + [Tick(50, [])];
            Run(ticks, 60).retained == [Flushed(100, [e])]
            && Within(Ever(ticks).retained, 50 - 60) == [Flushed(30, [e]), Flushed(100, [e])]
  {
    var t1, t2, t3 := Tick(30, [e]), Tick(100, [e]), Tick(50, []);
    RunOneMore([], t1, 60);
    RunOneMore([] + [t1], t2, 60);
    RunOneMore([] + [t1] + [t2], t3, 60);
    assert [] + [e] == [e] && [e][0].Message?;
    var cut := [Flushed(30, [e]), Flushed(100, [e])];
    assert cut[1..] == [Flushed(100, [e])] && cut[1..][1..] == [];
    assert Run([] + [t1], 60) == Ever([] + [t1]) == Window([Flushed(30, [e])], []);
    assert [Flushed(30, [e])] + [Flushed(100, [e])] == cut && Prune(cut, 100 - 60) == cut[1..];
    assert Run([] + [t1] + [t2], 60) == Window(cut[1..], []) && Ever([] + [t1] + [t2]) == Window(cut, []);
    assert Within(cut[1..], -10) == cut[1..];
  }
}
