/**
  The runtime metrics object. Handler timings are shared heap objects: the current
  ones are updated in place, those of a bucket never again, and the aggregate gets
  its own.
*/
module RuntimeMetrics {
  import opened Metrics

  class HandlerTiming {
    var count: nat
    var totalMs: real
    var maxMs: real

    constructor (count: nat, totalMs: real, maxMs: real)
      ensures Value() == Timing(count, totalMs, maxMs)
    {
      this.count, this.totalMs, this.maxMs := count, totalMs, maxMs;
    }

    ghost function Value(): Timing reads this { Timing(count, totalMs, maxMs) }

    method Add(other: Timing)
      modifies this
      ensures Value() == Join(old(Value()), other)
    {
      count, totalMs := count + other.count, totalMs + other.totalMs;
      maxMs := if maxMs < other.maxMs then other.maxMs else maxMs;
    }
  }

  datatype Bucket = Bucket(counters: Counters, timings: map<string, HandlerTiming>, endedAt: int)

  ghost predicate Distinct(m: map<string, HandlerTiming>) {
    forall j, k | j in m && k in m && j != k :: m[j] != m[k]
  }

  ghost function Read(m: map<string, HandlerTiming>): map<string, Timing>
    reads m.Values
  {
    map k | k in m :: m[k].Value()
  }

  ghost predicate Holds(b: Bucket, k: Kept)
    reads b.timings.Values
  {
    b.counters == k.counters && Read(b.timings) == k.timings
  }

  const DEFAULT_ROLLING_WINDOW_MS := 60000

  // Fold `source` into `target`, one key at a time.
  method MergeCountMap(target: map<string, int>, source: map<string, int>) returns (m: map<string, int>)
    ensures m == Merged(target, source)
  {
    m := target;
    var keys := source.Keys;
    while keys != {}
      invariant keys <= source.Keys
      invariant m.Keys == target.Keys + (source.Keys - keys)
      invariant forall k | k in m :: m[k] == Get(target, k) + if k in keys then 0 else Get(source, k)
      decreases keys
    {
      var k :| k in keys;
      m := Increment(m, k, source[k]);
      keys := keys - {k};
    }
  }

  method MergeCounters(a: Counters, b: Counters) returns (c: Counters)
    ensures c == MergedCounters(a, b)
  {
    var messages := MergeCountMap(a.messages, b.messages);
    var bytes := MergeCountMap(a.bytes, b.bytes);
    var streams := MergeCountMap(a.streams, b.streams);
    var agents := MergeCountMap(a.agents, b.agents);
    var frames := MergeCountMap(a.frames, b.frames);
    c := Counters(messages, bytes, streams, agents, frames);
  }

  // The shared shape of `incrementHandlerTiming` and the body of the merge loop: an
  // existing object is updated in place, a missing one is created.
  method AddTiming(m: map<string, HandlerTiming>, k: string, t: Timing) returns (r: map<string, HandlerTiming>)
    requires Distinct(m)
    modifies m.Values
    ensures Distinct(r) && fresh(r.Values - m.Values)
    ensures Read(r) == Put(old(Read(m)), k, t)
  {
    r := m;
    if k in m {
      assert m[k] in m.Values;
      m[k].Add(t);
    } else {
      var copy := new HandlerTiming(t.count, t.totalMs, t.maxMs);
      r := m[k := copy];
    }
  }

  lemma JoinedOneMore(ours: map<string, Timing>, theirs: map<string, Timing>, keys: set<string>, k: string)
    requires k in keys && k in theirs
    ensures Joined(ours, theirs - (keys - {k})) == Put(Joined(ours, theirs - keys), k, theirs[k])
  {
  }

  // Fold the timings of `source` into those of `target`. No object of `source` is
  // touched or kept.
  method MergeHandlerTimingMap(target: map<string, HandlerTiming>, source: map<string, HandlerTiming>)
      returns (m: map<string, HandlerTiming>)
    requires Distinct(target) && target.Values !! source.Values
    modifies target.Values
    ensures Distinct(m) && fresh(m.Values - target.Values)
    ensures Read(m) == Joined(old(Read(target)), old(Read(source)))
  {
    m := target;
    var keys := source.Keys;
    ghost var ours, theirs := Read(target), Read(source);
    assert ours == Joined(ours, theirs - keys);
    while keys != {}
      invariant keys <= source.Keys && Distinct(m) && fresh(m.Values - target.Values) && m.Values !! source.Values
      invariant Read(m) == Joined(ours, theirs - keys) && Read(source) == theirs
      decreases keys
    {
      var k :| k in keys;
      var value := source[k];
      m := AddTiming(m, k, Timing(value.count, value.totalMs, value.maxMs));
      JoinedOneMore(ours, theirs, keys, k);
      keys := keys - {k};
    }
    assert theirs - keys == theirs;
  }

  method CloneHandlerTimingMap(source: map<string, HandlerTiming>) returns (m: map<string, HandlerTiming>)
    ensures Distinct(m) && fresh(m.Values) && Read(m) == Read(source)
  {
    var empty: map<string, HandlerTiming> := map[];
    m := MergeHandlerTimingMap(empty, source);
    assert Joined(map[], Read(source)) == Read(source);
  }

  // The counters behind each bucket, one event after another.
  function KeepsOf(bs: seq<Flushed>): seq<Kept> { seq(|bs|, i requires 0 <= i < |bs| => Running(bs[i].events)) }

  lemma KeepsOneMore(bs: seq<Flushed>, b: Flushed)
    ensures KeepsOf(bs + [b]) == KeepsOf(bs) + [Running(b.events)]
  {
  }

  lemma KeepsOfTail(bs: seq<Flushed>)
    requires bs != []
    ensures KeepsOf(bs[1..]) == KeepsOf(bs)[1..]
  {
  }

  // What merging counters in order gives.
  function Folded(ks: seq<Kept>): Kept {
    if ks == [] then NOTHING else MergedKept(Folded(ks[..|ks| - 1]), ks[|ks| - 1])
  }

  lemma FoldedOneMore(ks: seq<Kept>, k: Kept)
    ensures Folded(ks + [k]) == MergedKept(Folded(ks), k)
  {
  }

  lemma EventsOneMore(bs: seq<Flushed>, b: Flushed)
    ensures EventsOf(bs + [b]) == EventsOf(bs) + b.events
  {
    EventsOfAppend(bs, [b]);
    assert [b][1..] == [] && EventsOf([b]) == b.events + EventsOf([]);
  }

  lemma {:induction false} FoldedIsRunning(bs: seq<Flushed>)
    ensures Folded(KeepsOf(bs)) == Running(EventsOf(bs))
  {
    if bs != [] {
      var front, b := bs[..|bs| - 1], bs[|bs| - 1];
      assert bs == front + [b];
      FoldedIsRunning(front);
      KeepsOneMore(front, b);
      FoldedOneMore(KeepsOf(front), Running(b.events));
      EventsOneMore(front, b);
      RunningAppend(EventsOf(front), b.events);
    }
  }

  // The merged buckets are the direct tally of the events behind them.
  lemma FoldedIsTally(bs: seq<Flushed>)
    ensures Folded(KeepsOf(bs)) == Kept(Tally(EventsOf(bs)), TimingTally(EventsOf(bs)))
    ensures var c := Tally(EventsOf(bs)); Active(EventsOf(bs)) <==> c.messages != map[] || c.frames != map[]
  {
    FoldedIsRunning(bs);
    RunningIsTally(EventsOf(bs));
    ActiveExactly(EventsOf(bs));
  }

  ghost predicate EndsMatch(bs: seq<Flushed>, buckets: seq<Bucket>) {
    |bs| == |buckets| && forall i | 0 <= i < |bs| :: buckets[i].endedAt == bs[i].endedAt
  }

  class RuntimeMetrics {
    const windowMs: int
    var buckets: seq<Bucket>
    var counters: Counters
    var timings: map<string, HandlerTiming>
    ghost var kept: Kept                    // the value of the current counters
    ghost var keeps: seq<Kept>              // the value of each bucket
    ghost var stored: set<HandlerTiming>    // the timing objects that belong to buckets
    ghost var retained: seq<Flushed>        // the events behind each bucket
    ghost var pending: seq<Event>           // the events behind the current counters

    ghost predicate CurrentOk()
      reads this`counters, this`timings, this`kept, timings.Values
    {
      Distinct(timings) && counters == kept.counters && Read(timings) == kept.timings
    }

    ghost predicate BucketsOk()
      reads this`buckets, this`keeps, this`stored, stored
    {
      && |buckets| == |keeps|
      && forall i | 0 <= i < |buckets| :: buckets[i].timings.Values <= stored && Holds(buckets[i], keeps[i])
    }

    // The timing objects in use and those of the buckets are kept apart.
    ghost predicate HeapOk()
      reads this`counters, this`timings, this`kept, this`buckets, this`keeps, this`stored, timings.Values, stored
    {
      timings.Values !! stored && CurrentOk() && BucketsOk()
    }

    ghost predicate BucketsExplained()
      reads this`buckets, this`keeps, this`retained
    {
      keeps == KeepsOf(retained) && EndsMatch(retained, buckets)
    }

    ghost predicate Valid()
      reads this, timings.Values, stored
    {
      windowMs > 0 && HeapOk() && kept == Running(pending) && BucketsExplained()
    }

    ghost function Model(): Window reads this { Window(retained, pending) }

    constructor (windowMs: int)
      ensures Valid() && Model() == Window([], []) && fresh(timings.Values) && fresh(stored)
      ensures this.windowMs == if windowMs > 0 then windowMs else DEFAULT_ROLLING_WINDOW_MS
    {
      this.windowMs := if windowMs > 0 then windowMs else DEFAULT_ROLLING_WINDOW_MS;
      buckets, counters, timings := [], NOTHING.counters, map[];
      kept, keeps, stored, retained, pending := NOTHING, [], {}, [], [];
    }

    // The buckets do not share the timing that is updated.
    method AddCurrent(key: string, t: Timing) returns (r: map<string, HandlerTiming>)
      requires BucketsOk() && Distinct(timings) && timings.Values !! stored
      modifies timings.Values
      ensures BucketsOk() && Distinct(r) && fresh(r.Values - timings.Values)
      ensures Read(r) == Put(old(Read(timings)), key, t)
    {
      r := AddTiming(timings, key, t);
    }

    method SetCurrent(c: Counters, m: map<string, HandlerTiming>)
      requires BucketsOk() && Distinct(m) && m.Values !! stored
      modifies this`counters, this`timings, this`kept
      ensures HeapOk() && kept == Kept(c, Read(m)) && timings == m
    {
      counters, timings, kept := c, m, Kept(c, Read(m));
    }

    method RecordHandled(c: Counters, key: string, ms: real)
      requires HeapOk()
      modifies this`counters, this`timings, this`kept, timings.Values
      ensures HeapOk() && kept == Kept(c, Put(old(kept).timings, key, Once(ms)))
      ensures fresh(timings.Values - old(timings.Values))
    {
      var m := AddCurrent(key, Once(ms));
      SetCurrent(c, m);
    }

    method RecordMessage(kind: string, bytes: int, ms: real)
      requires Valid()
      modifies this`counters, this`timings, this`kept, this`pending, timings.Values
      ensures Valid() && pending == old(pending) + [Message(kind, bytes, ms)]
      ensures fresh(timings.Values - old(timings.Values))
    {
      RunningOneMore(pending, Message(kind, bytes, ms));
      var messages, handled := Increment(counters.messages, kind, 1), Increment(counters.bytes, kind, bytes);
      RecordHandled(counters.(messages := messages, bytes := handled), kind, ms);
      pending := pending + [Message(kind, bytes, ms)];
    }

    method RecordAgentStream(agent: string, event: AgentEvent)
      requires Valid()
      modifies this`counters, this`timings, this`kept, this`pending
      ensures Valid() && pending == old(pending) + [AgentStream(agent, event)] && timings == old(timings)
    {
      RunningOneMore(pending, AgentStream(agent, event));
      var streams, agents := Increment(counters.streams, TypeOf(event), 1), Increment(counters.agents, agent, 1);
      SetCurrent(counters.(streams := streams, agents := agents), timings);
      pending := pending + [AgentStream(agent, event)];
    }

    method RecordBinaryFrame(kind: string, bytes: int, ms: real)
      requires Valid()
      modifies this`counters, this`timings, this`kept, this`pending, timings.Values
      ensures Valid() && pending == old(pending) + [BinaryFrame(kind, bytes, ms)]
      ensures fresh(timings.Values - old(timings.Values))
    {
      RunningOneMore(pending, BinaryFrame(kind, bytes, ms));
      var frames, handled := Increment(counters.frames, kind, 1), Increment(counters.bytes, BINARY + kind, bytes);
      RecordHandled(counters.(frames := frames, bytes := handled), BINARY + kind, ms);
      pending := pending + [BinaryFrame(kind, bytes, ms)];
    }

    method Push(bucket: Bucket)
      requires BucketsOk() && Holds(bucket, kept)
      modifies this`buckets, this`keeps, this`stored
      ensures BucketsOk() && buckets == old(buckets) + [bucket] && keeps == old(keeps) + [kept]
      ensures stored == old(stored) + bucket.timings.Values
    {
      buckets, keeps, stored := buckets + [bucket], keeps + [kept], stored + bucket.timings.Values;
    }

    // Cut off the current counters with a copy of their timings.
    method Store(now: int)
      requires HeapOk()
      modifies this`buckets, this`counters, this`timings, this`kept, this`keeps, this`stored
      ensures HeapOk() && kept == NOTHING && keeps == old(keeps) + [old(kept)] && timings == map[]
      ensures |buckets| == |old(buckets)| + 1 && old(buckets) <= buckets && buckets[|old(buckets)|].endedAt == now
      ensures fresh(stored - old(stored))
    {
      var copy := CloneHandlerTimingMap(timings);
      Push(Bucket(counters, copy, now));
      SetCurrent(NOTHING.counters, map[]);
    }

    method CutOff(now: int)
      requires Valid()
      modifies this`buckets, this`counters, this`timings, this`kept, this`keeps, this`stored, this`retained,
               this`pending
      ensures Valid() && retained == old(retained) + [Flushed(now, old(pending))] && pending == []
      ensures fresh(stored - old(stored)) && timings == map[]
    {
      KeepsOneMore(retained, Flushed(now, pending));
      Store(now);
      retained, pending := retained + [Flushed(now, pending)], [];
    }

    method ConsumeCurrentBucket(now: int)
      requires Valid()
      modifies this`buckets, this`counters, this`timings, this`kept, this`keeps, this`stored, this`retained,
               this`pending
      ensures Valid() && Model() == Cut(old(Model()), now)
      ensures fresh(stored - old(stored)) && timings.Values <= old(timings.Values)
    {
      ActiveExactly(pending);
      if counters.messages == map[] && counters.frames == map[] { return; }
      CutOff(now);
    }

    method DropFirst()
      requires Valid() && buckets != []
      modifies this`buckets, this`keeps, this`retained
      ensures Valid() && |buckets| == |old(buckets)| - 1
      ensures old(retained) != [] && retained == old(retained)[1..]
    {
      KeepsOfTail(retained);
      buckets, keeps, retained := buckets[1..], keeps[1..], retained[1..];
    }

    method PruneBuckets(now: int)
      requires Valid()
      modifies this`buckets, this`keeps, this`retained
      ensures Valid() && retained == Prune(old(retained), now - windowMs)
    {
      while |buckets| > 0 && buckets[0].endedAt < now - windowMs
        invariant Valid()
        invariant Prune(retained, now - windowMs) == Prune(old(retained), now - windowMs)
        decreases |buckets|
      {
        DropFirst();
      }
    }

    // One step of the aggregation: bucket `i` is folded into the totals so far.
    method MergeBucket(i: nat, total: Counters, times: map<string, HandlerTiming>)
        returns (total1: Counters, times1: map<string, HandlerTiming>)
      requires BucketsOk() && i < |buckets| && Distinct(times) && times.Values !! stored
      modifies times.Values
      ensures BucketsOk() && Distinct(times1) && fresh(times1.Values - times.Values)
      ensures Kept(total1, Read(times1)) == MergedKept(Kept(total, old(Read(times))), keeps[i])
    {
      total1 := MergeCounters(total, buckets[i].counters);
      times1 := MergeHandlerTimingMap(times, buckets[i].timings);
    }

    // No `modifies`: nothing that is stored changes.
    method AggregateBuckets() returns (total: Counters, times: map<string, HandlerTiming>)
      requires BucketsOk()
      ensures fresh(times.Values) && Distinct(times) && Kept(total, Read(times)) == Folded(keeps)
    {
      total, times := NOTHING.counters, map[];
      for i := 0 to |buckets|
        invariant BucketsOk() && fresh(times.Values) && Distinct(times)
        invariant Kept(total, Read(times)) == Folded(keeps[..i])
      {
        FoldedOneMore(keeps[..i], keeps[i]);
        assert keeps[..i] + [keeps[i]] == keeps[..i + 1];
        total, times := MergeBucket(i, total, times);
      }
      assert keeps[..|buckets|] == keeps;
    }

    // Cut, then prune.
    method Slide(now: int)
      requires Valid()
      modifies this
      ensures Valid() && Model() == FlushWindow(old(Model()), now, windowMs)
      ensures fresh(stored - old(stored)) && timings.Values <= old(timings.Values)
    {
      ConsumeCurrentBucket(now);
      PruneBuckets(now);
    }

    // The aggregate that a flush reports is the direct tally of what the window
    // retains; `logged` says whether it is reported at all.
    method Flush(now: int, final: bool) returns (logged: bool, total: Counters, times: map<string, HandlerTiming>)
      requires Valid()
      modifies this
      ensures Valid() && Model() == FlushWindow(old(Model()), now, windowMs)
      ensures total == Tally(EventsOf(retained)) && Read(times) == TimingTally(EventsOf(retained))
      ensures logged <==> final || Active(EventsOf(retained))
      ensures fresh(stored - old(stored)) && timings.Values <= old(timings.Values)
    {
      Slide(now);
      total, times := AggregateBuckets();
      FoldedIsTally(retained);
      logged := final || total.messages != map[] || total.frames != map[];
    }

    // Aggregating leaves the buckets alone: flushing again with nothing recorded in
    // between reports the same.
    method FlushTwice(now: int) returns (same: bool)
      requires Valid()
      modifies this
      ensures Valid() && Model() == FlushWindow(old(Model()), now, windowMs) && same
    {
      var _, first, firstTimes := Flush(now, true);
      ghost var before := Read(firstTimes);
      PruneAgain(old(Model()), now, windowMs);
      var _, second, secondTimes := Flush(now, true);
      assert Read(secondTimes) == before;
      same := first == second;
    }

    method Record(e: Event)
      requires Valid()
      modifies this`counters, this`timings, this`kept, this`pending, timings.Values
      ensures Valid() && pending == old(pending) + [e] && fresh(timings.Values - old(timings.Values))
    {
      match e
      case Message(kind, bytes, ms) => RecordMessage(kind, bytes, ms);
      case AgentStream(agent, event) => RecordAgentStream(agent, event);
      case BinaryFrame(kind, bytes, ms) => RecordBinaryFrame(kind, bytes, ms);
    }

    method RecordAll(es: seq<Event>)
      requires Valid()
      modifies this`counters, this`timings, this`kept, this`pending, timings.Values
      ensures Valid() && pending == old(pending) + es && fresh(timings.Values - old(timings.Values))
    {
      for i := 0 to |es|
        invariant Valid() && pending == old(pending) + es[..i] && fresh(timings.Values - old(timings.Values))
      {
        Record(es[i]);
        assert es[..i + 1] == es[..i] + [es[i]];
      }
      assert es[..|es|] == es;
    }

    // The events of one tick, then its flush.
    method Play(t: Tick, ghost before: seq<Tick>) returns (total: Counters, times: map<string, HandlerTiming>)
      requires Valid() && Model() == Run(before, windowMs)
      modifies this, timings.Values
      ensures Valid() && Model() == Run(before + [t], windowMs) && fresh(timings.Values - old(timings.Values))
      ensures total == Tally(EventsOf(retained)) && Read(times) == TimingTally(EventsOf(retained))
    {
      RunOneMore(before, t, windowMs);
      RecordAll(t.events);
      var _, counters, copy := Flush(t.now, true);
      total, times := counters, copy;
    }

    method PlayAll(ticks: seq<Tick>)
      requires Valid() && Model() == Window([], [])
      modifies this, timings.Values
      ensures Valid() && Model() == Run(ticks, windowMs) && fresh(timings.Values - old(timings.Values))
    {
      ghost var done: seq<Tick> := [];
      for i := 0 to |ticks|
        invariant Valid() && Model() == Run(done, windowMs) && fresh(timings.Values - old(timings.Values))
        invariant done == ticks[..i]
      {
        var _, _ := Play(ticks[i], done);
        done := done + [ticks[i]];
      }
      assert done == ticks;
    }
  }

  lemma WindowReported(ticks: seq<Tick>, windowMs: int)
    requires ticks != [] && ClockAdvances(ticks)
    ensures EventsOf(Run(ticks, windowMs).retained) == EventsOf(Within(Ever(ticks).retained, Cutoff(ticks, windowMs)))
  {
    WindowOverRuns(ticks, windowMs);
  }

  // Every history of the object: what the last flush reports is the direct tally of the
  // events in the retained buckets, and with a clock that never steps back these are
  // all the buckets of the last window.
  method Replay(windowMs: int, ticks: seq<Tick>) returns (total: Counters, times: map<string, HandlerTiming>)
    requires windowMs > 0 && ticks != []
    ensures var es := EventsOf(Run(ticks, windowMs).retained); total == Tally(es) && Read(times) == TimingTally(es)
    ensures ClockAdvances(ticks) ==>
              var es := EventsOf(Within(Ever(ticks).retained, Cutoff(ticks, windowMs)));
              total == Tally(es) && Read(times) == TimingTally(es)
  {
    var front, last := ticks[..|ticks| - 1], ticks[|ticks| - 1];
    assert ticks == front + [last];
    if ClockAdvances(ticks) { WindowReported(ticks, windowMs); }
    var metrics := new RuntimeMetrics(windowMs);
    metrics.PlayAll(front);
    total, times := metrics.Play(last, front);
  }
}
