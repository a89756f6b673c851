/** One turn's tool calls: consecutive reads run side by side, everything else in turn
    (parallel_tools.go and the batch loop of loop.go). */
module ReadAhead {
  import opened Basics
  import opened Transcript

  const MAX_PARALLEL_READS := 8

  /** What a call answers and leaves behind; which calls may run side by side. */
  datatype Executor<!W(!new), !R> = Executor(run: (ToolCall, W) -> (R, W), safe: ToolCall -> bool)

  /** Calls that run side by side leave the world as it is. */
  ghost predicate ReadsOnly<W(!new), R>(ex: Executor<W, R>) {
    forall c, w :: ex.safe(c) ==> ex.run(c, w).1 == w
  }

  /** One call after the other until `halts` says so: what the batch is meant to do. */
  function Sequential<W(!new), R>(ex: Executor<W, R>, calls: seq<ToolCall>, w: W, done: seq<R>, halts: seq<R> -> bool):
    (seq<R>, W)
    decreases |calls|
  {
    if calls == [] then (done, w)
    else
      var (r, w') := ex.run(calls[0], w);
      if halts(done + [r]) then (done + [r], w') else Sequential(ex, calls[1..], w', done + [r], halts)
  }

  // ---- what happened when ----

  datatype Event = Begin(i: nat) | End(i: nat)

  function Open(log: seq<Event>): int {
    if log == [] then 0
    else Open(log[..|log| - 1]) + if log[|log| - 1].Begin? then 1 else -1
  }

  /** Nothing begins or ends twice, and nothing ends before it began. */
  predicate Once(log: seq<Event>) {
    && Distinct(log)
    && forall p :: 0 <= p < |log| && log[p].End? ==> Begin(log[p].i) in log[..p]
  }

  predicate Bounded(log: seq<Event>) {
    forall p :: 0 <= p <= |log| ==> Open(log[..p]) <= MAX_PARALLEL_READS
  }

  /** Every call in front of the i-th that is no read has ended. */
  predicate Cleared(log: seq<Event>, calls: seq<ToolCall>, safe: ToolCall -> bool, i: nat) {
    forall j :: 0 <= j < i && j < |calls| && !safe(calls[j]) ==> End(j) in log
  }

  /** A call begins only after every earlier call that is no read has ended. */
  predicate Ordered(log: seq<Event>, calls: seq<ToolCall>, safe: ToolCall -> bool) {
    forall p :: 0 <= p < |log| && log[p].Begin? ==> Cleared(log[..p], calls, safe, log[p].i)
  }

  /** The log tells of calls below `n`, all that began have ended. */
  predicate Settled(log: seq<Event>, n: nat) {
    forall e :: e in log ==> e.i < n && End(e.i) in log
  }

  predicate Sane(log: seq<Event>, calls: seq<ToolCall>, safe: ToolCall -> bool) {
    Once(log) && Bounded(log) && Ordered(log, calls, safe)
  }

  lemma OnceMore(log: seq<Event>, e: Event)
    requires Once(log) && e !in log && (e.End? ==> Begin(e.i) in log)
    ensures Once(log + [e])
  {
    var more := log + [e];
    forall p | 0 <= p < |more| && more[p].End? ensures Begin(more[p].i) in more[..p] {
      assert more[..p] == log[..p];
    }
  }

  lemma OpenMore(log: seq<Event>, e: Event)
    ensures Open(log + [e]) == Open(log) + if e.Begin? then 1 else -1
  {
    assert (log + [e])[..|log|] == log;
  }

  lemma BoundedMore(log: seq<Event>, e: Event)
    requires Bounded(log) && (e.Begin? ==> Open(log) < MAX_PARALLEL_READS)
    ensures Bounded(log + [e])
  {
    hide Open;
    var more := log + [e];
    OpenMore(log, e);
    assert log[..|log|] == log;
    forall p | 0 <= p <= |more| ensures Open(more[..p]) <= MAX_PARALLEL_READS {
      if p <= |log| {
        assert more[..p] == log[..p];
      } else {
        assert more[..p] == more;
      }
    }
  }

  lemma OrderedMore(log: seq<Event>, e: Event, calls: seq<ToolCall>, safe: ToolCall -> bool)
    requires Ordered(log, calls, safe) && (e.Begin? ==> Cleared(log, calls, safe, e.i))
    ensures Ordered(log + [e], calls, safe)
  {
    hide Cleared;
    var more := log + [e];
    forall p | 0 <= p < |more| && more[p].Begin? ensures Cleared(more[..p], calls, safe, more[p].i) {
      assert more[..p] == log[..p];
      assert p == |log| ==> log[..p] == log;
    }
  }

  lemma LogMore(log: seq<Event>, e: Event, calls: seq<ToolCall>, safe: ToolCall -> bool)
    requires Sane(log, calls, safe)
    requires e !in log && (e.End? ==> Begin(e.i) in log)
    requires e.Begin? ==> Open(log) < MAX_PARALLEL_READS
    requires e.Begin? ==> Cleared(log, calls, safe, e.i)
    ensures Sane(log + [e], calls, safe)
    ensures Open(log + [e]) == Open(log) + if e.Begin? then 1 else -1
  {
    hide Cleared, Open, Once, Bounded, Ordered;
    OnceMore(log, e);
    OpenMore(log, e);
    BoundedMore(log, e);
    OrderedMore(log, e, calls, safe);
  }

  // ---- the parallel batch ----

  /** Since `before`, the running calls have begun and the finished ones have ended. */
  ghost predicate Tracked(before: seq<Event>, log: seq<Event>, running: set<nat>, finished: set<nat>) {
    && before <= log && Open(log) == |running|
    && (forall i: nat :: Begin(i) in log <==> Begin(i) in before || i in running || i in finished)
    && (forall i: nat :: End(i) in log <==> End(i) in before || i in finished)
  }

  lemma TrackBegin(before: seq<Event>, log: seq<Event>, running: set<nat>, finished: set<nat>, i: nat)
    requires Tracked(before, log, running, finished) && i !in running
    ensures Tracked(before, log + [Begin(i)], running + {i}, finished)
  {
    assert (log + [Begin(i)])[..|log|] == log;
  }

  lemma TrackEnd(before: seq<Event>, log: seq<Event>, running: set<nat>, finished: set<nat>, i: nat)
    requires Tracked(before, log, running, finished) && i in running
    ensures Tracked(before, log + [End(i)], running - {i}, finished + {i})
  {
    assert (log + [End(i)])[..|log|] == log;
  }

  lemma StillCleared(before: seq<Event>, log: seq<Event>, calls: seq<ToolCall>, safe: ToolCall -> bool, from: nat, i: nat)
    requires Cleared(before, calls, safe, from) && before <= log && from <= i
    requires forall j :: from <= j < i && j < |calls| ==> safe(calls[j])
    ensures Cleared(log, calls, safe, i)
  {
    forall j | 0 <= j < i && j < |calls| && !safe(calls[j]) ensures End(j) in log {
      var p :| 0 <= p < |before| && before[p] == End(j);
      assert log[p] == End(j);
    }
  }

  lemma NothingTracked(log: seq<Event>)
    requires Open(log) == 0
    ensures Tracked(log, log, {}, {})
  {
  }

  lemma BeginOne<W(!new), R>(ex: Executor<W, R>, calls: seq<ToolCall>, from: nat, to: nat, before: seq<Event>,
                             log: seq<Event>, running: set<nat>, finished: set<nat>, i: nat)
    requires from <= i < to <= |calls| && forall j :: from <= j < to ==> ex.safe(calls[j])
    requires Settled(before, from) && Cleared(before, calls, ex.safe, from)
    requires Sane(log, calls, ex.safe) && Tracked(before, log, running, finished)
    requires i !in running && i !in finished && |running| < MAX_PARALLEL_READS
    ensures Sane(log + [Begin(i)], calls, ex.safe)
    ensures Tracked(before, log + [Begin(i)], running + {i}, finished)
  {
    StillCleared(before, log, calls, ex.safe, from, i);
    hide Sane, Cleared, Open;
    assert Begin(i) !in before;
    LogMore(log, Begin(i), calls, ex.safe);
    TrackBegin(before, log, running, finished, i);
  }

  lemma EndOne<W(!new), R>(ex: Executor<W, R>, calls: seq<ToolCall>, from: nat, before: seq<Event>,
                           log: seq<Event>, running: set<nat>, finished: set<nat>, i: nat)
    requires Settled(before, from) && from <= i
    requires Sane(log, calls, ex.safe) && Tracked(before, log, running, finished)
    requires i in running && i !in finished
    ensures Sane(log + [End(i)], calls, ex.safe)
    ensures Tracked(before, log + [End(i)], running - {i}, finished + {i})
  {
    hide Sane, Open;
    assert End(i) !in before;
    LogMore(log, End(i), calls, ex.safe);
    TrackEnd(before, log, running, finished, i);
  }

  lemma AllEnded(before: seq<Event>, log: seq<Event>, finished: set<nat>, from: nat, to: nat)
    requires Settled(before, from) && from <= to && Tracked(before, log, {}, finished)
    requires forall i: nat :: i in finished <==> from <= i < to
    ensures Settled(log, to) && Open(log) == 0 && before <= log
    ensures forall i: nat :: from <= i < to ==> End(i) in log
  {
    hide Open;
    forall e | e in log ensures e.i < to && End(e.i) in log {
      assert e == Begin(e.i) || e == End(e.i);
    }
  }

  /** The goroutines of one batch: waiting for the semaphore, holding it, done. */
  datatype Pool<R> = Pool(waiting: set<nat>, running: set<nat>, finished: map<nat, R>)

  function Indices(from: nat, to: nat): (s: set<nat>)
    requires from <= to
    ensures forall i: nat :: i in s <==> from <= i < to
  {
    if from == to then {} else Indices(from, to - 1) + {to - 1}
  }

  /** The calls from..to are in one of the three states each. */
  ghost predicate Shared<R>(from: nat, to: nat, pool: Pool<R>) {
    && (forall i: nat :: i in pool.waiting || i in pool.running || i in pool.finished <==> from <= i < to)
    && pool.waiting !! pool.running && pool.waiting !! pool.finished.Keys && pool.running !! pool.finished.Keys
  }

  /** What every step of the batch keeps. */
  ghost predicate Going<W(!new), R>(ex: Executor<W, R>, calls: seq<ToolCall>, from: nat, to: nat, w: W,
                                    before: seq<Event>, log: seq<Event>, pool: Pool<R>) {
    && Shared(from, to, pool)
    && (forall i :: i in pool.finished ==> i < |calls| && pool.finished[i] == ex.run(calls[i], w).0)
    && Tracked(before, log, pool.running, pool.finished.Keys)
    && |pool.running| <= MAX_PARALLEL_READS && Sane(log, calls, ex.safe)
  }

  function Acquire<R>(pool: Pool<R>, i: nat): Pool<R> {
    Pool(pool.waiting - {i}, pool.running + {i}, pool.finished)
  }

  function Release<R>(pool: Pool<R>, i: nat, r: R): Pool<R> {
    Pool(pool.waiting, pool.running - {i}, pool.finished[i := r])
  }

  lemma AtFirst<W(!new), R>(ex: Executor<W, R>, calls: seq<ToolCall>, from: nat, to: nat, w: W, log: seq<Event>)
    requires from <= to <= |calls| && Sane(log, calls, ex.safe) && Open(log) == 0
    ensures Going(ex, calls, from, to, w, log, log, Pool(Indices(from, to), {}, map[]))
  {
    hide Sane, Open;
    NothingTracked(log);
    var none: map<nat, R> := map[];
    assert none.Keys == {};
  }

  lemma AcquireShared<R>(from: nat, to: nat, pool: Pool<R>, i: nat)
    requires Shared(from, to, pool) && i in pool.waiting
    ensures Shared(from, to, Acquire(pool, i))
    ensures from <= i < to && i !in pool.running && i !in pool.finished
  {
  }

  lemma ReleaseShared<R>(from: nat, to: nat, pool: Pool<R>, i: nat, r: R)
    requires Shared(from, to, pool) && i in pool.running
    ensures Shared(from, to, Release(pool, i, r))
    ensures from <= i < to && i !in pool.finished
  {
  }

  lemma AcquireKeeps<W(!new), R>(ex: Executor<W, R>, calls: seq<ToolCall>, from: nat, to: nat, w: W,
                                 before: seq<Event>, log: seq<Event>, pool: Pool<R>, i: nat)
    requires to <= |calls| && forall j :: from <= j < to ==> ex.safe(calls[j])
    requires Settled(before, from) && Cleared(before, calls, ex.safe, from)
    requires Going(ex, calls, from, to, w, before, log, pool)
    requires i in pool.waiting && |pool.running| < MAX_PARALLEL_READS
    ensures Going(ex, calls, from, to, w, before, log + [Begin(i)], Acquire(pool, i))
  {
    hide Sane, Tracked, Shared, Settled, Cleared;
    AcquireShared(from, to, pool, i);
    BeginOne(ex, calls, from, to, before, log, pool.running, pool.finished.Keys, i);
  }

  lemma ReleaseKeeps<W(!new), R>(ex: Executor<W, R>, calls: seq<ToolCall>, from: nat, to: nat, w: W,
                                 before: seq<Event>, log: seq<Event>, pool: Pool<R>, i: nat)
    requires to <= |calls| && Settled(before, from)
    requires Going(ex, calls, from, to, w, before, log, pool) && i in pool.running
    ensures from <= i < to
    ensures Going(ex, calls, from, to, w, before, log + [End(i)], Release(pool, i, ex.run(calls[i], w).0))
  {
    hide Sane, Tracked, Shared, Settled;
    SharedWithin(from, to, pool, i);
    var r := ex.run(calls[i], w).0;
    ReleaseShared(from, to, pool, i, r);
    EndOne(ex, calls, from, before, log, pool.running, pool.finished.Keys, i);
    assert pool.finished[i := r].Keys == pool.finished.Keys + {i};
  }

  lemma SharedWithin<R>(from: nat, to: nat, pool: Pool<R>, i: nat)
    requires Shared(from, to, pool) && i in pool.running
    ensures from <= i < to
  {
  }

  ghost predicate Answered<W(!new), R>(ex: Executor<W, R>, calls: seq<ToolCall>, w: W, pool: Pool<R>, i: nat) {
    i in pool.finished && i < |calls| && pool.finished[i] == ex.run(calls[i], w).0
  }

  lemma FinishedIsRange<R>(from: nat, to: nat, pool: Pool<R>)
    requires Shared(from, to, pool) && pool.waiting == {} && pool.running == {}
    ensures forall i: nat :: i in pool.finished.Keys <==> from <= i < to
  {
  }

  lemma DoneIsAnswered<W(!new), R>(ex: Executor<W, R>, calls: seq<ToolCall>, from: nat, to: nat, w: W,
                                   before: seq<Event>, log: seq<Event>, pool: Pool<R>, i: nat)
    requires Going(ex, calls, from, to, w, before, log, pool) && pool.waiting == {} && pool.running == {}
    requires from <= i < to
    ensures Answered(ex, calls, w, pool, i)
  {
    hide Sane, Tracked;
    assert i in pool.waiting || i in pool.running || i in pool.finished;
  }

  /** With nothing waiting and nothing running, every call has its answer. */
  lemma AllDone<W(!new), R>(ex: Executor<W, R>, calls: seq<ToolCall>, from: nat, to: nat, w: W,
                            before: seq<Event>, log: seq<Event>, pool: Pool<R>)
    requires Settled(before, from) && from <= to
    requires Going(ex, calls, from, to, w, before, log, pool) && pool.waiting == {} && pool.running == {}
    ensures forall i: nat :: from <= i < to ==> Answered(ex, calls, w, pool, i)
    ensures Sane(log, calls, ex.safe) && Settled(log, to) && Open(log) == 0 && before <= log
    ensures forall i: nat :: from <= i < to ==> End(i) in log
  {
    hide Sane, Settled, Open, Tracked, Shared;
    forall i: nat | from <= i < to ensures Answered(ex, calls, w, pool, i) {
      DoneIsAnswered(ex, calls, from, to, w, before, log, pool, i);
    }
    assert Shared(from, to, pool);
    FinishedIsRange(from, to, pool);
    AllEnded(before, log, pool.finished.Keys, from, to);
  }

  /** The results in the order of the calls. */
  function Gathered<R>(finished: map<nat, R>, from: nat, to: nat): (r: seq<R>)
    requires from <= to && forall i: nat :: from <= i < to ==> i in finished
    ensures |r| == to - from && forall i: nat :: from <= i < to ==> r[i - from] == finished[i]
  {
    if from == to then [] else Gathered(finished, from, to - 1) + [finished[to - 1]]
  }

  /** executeParallelReadBatch on calls[from..to]: the goroutines' steps come in any order the
      semaphore allows. Whatever the order: each call runs once, at most eight at a time, every
      result is what the call answers on its own, and the world is untouched. */
  method ExecuteParallelReadBatch<W(!new), R>(ex: Executor<W, R>, calls: seq<ToolCall>, from: nat, to: nat, w: W,
                                              ghost log: seq<Event>)
    returns (results: seq<R>, w': W, ghost log': seq<Event>)
    requires ReadsOnly(ex) && from <= to <= |calls|
    requires forall i :: from <= i < to ==> ex.safe(calls[i])
    requires Sane(log, calls, ex.safe) && Settled(log, from) && Open(log) == 0 && Cleared(log, calls, ex.safe, from)
    ensures |results| == to - from && forall i :: from <= i < to ==> results[i - from] == ex.run(calls[i], w).0
    ensures w' == w
    ensures Sane(log', calls, ex.safe) && Settled(log', to) && Open(log') == 0 && log <= log'
    ensures forall i: nat :: from <= i < to ==> End(i) in log'
  {
    hide Sane, Open, Cleared, Settled, Going;
    var pool := Pool(Indices(from, to), {}, map[]);
    w', log' := w, log;
    AtFirst(ex, calls, from, to, w, log);
    while true
      invariant Going(ex, calls, from, to, w, log, log', pool)
      invariant w' == w
      decreases 2 * |pool.waiting| + |pool.running|
    {
      if
      case pool.waiting != {} && |pool.running| < MAX_PARALLEL_READS =>
        var i :| i in pool.waiting;
        AcquireKeeps(ex, calls, from, to, w, log, log', pool, i);
        pool, log' := Acquire(pool, i), log' + [Begin(i)];
      case pool.running != {} =>
        var i :| i in pool.running;
        ReleaseKeeps(ex, calls, from, to, w, log, log', pool, i);
        var (r, next) := ex.run(calls[i], w');
        pool, w', log' := Release(pool, i, r), next, log' + [End(i)];
      case pool.waiting == {} && pool.running == {} =>
        break;
    }
    AllDone(ex, calls, from, to, w, log, log', pool);
    forall i: nat | from <= i < to ensures i in pool.finished {
      assert Answered(ex, calls, w, pool, i);
    }
    results := Gathered(pool.finished, from, to);
    forall i: nat | from <= i < to ensures results[i - from] == ex.run(calls[i], w).0 {
      assert Answered(ex, calls, w, pool, i);
    }
  }

  // ---- the batch loop ----

  /** The calls in front of `n` have all ended, nothing else has begun. */
  ghost predicate Through(log: seq<Event>, calls: seq<ToolCall>, safe: ToolCall -> bool, n: nat) {
    && Sane(log, calls, safe) && Settled(log, n) && Open(log) == 0
    && forall i: nat :: i < n ==> Begin(i) in log && End(i) in log
  }

  lemma ThroughCleared(log: seq<Event>, calls: seq<ToolCall>, safe: ToolCall -> bool, n: nat)
    requires Through(log, calls, safe, n)
    ensures Cleared(log, calls, safe, n)
  {
  }

  lemma OneCallThrough(log: seq<Event>, calls: seq<ToolCall>, safe: ToolCall -> bool, n: nat)
    requires Through(log, calls, safe, n)
    ensures Through(log + [Begin(n), End(n)], calls, safe, n + 1)
  {
    hide Sane, Open, Cleared;
    ThroughCleared(log, calls, safe, n);
    LogMore(log, Begin(n), calls, safe);
    LogMore(log + [Begin(n)], End(n), calls, safe);
    assert log + [Begin(n)] + [End(n)] == log + [Begin(n), End(n)];
  }

  lemma EndedHaveBegun(log: seq<Event>, calls: seq<ToolCall>, safe: ToolCall -> bool, i: nat)
    requires Sane(log, calls, safe) && End(i) in log
    ensures Begin(i) in log
  {
    var p :| 0 <= p < |log| && log[p] == End(i);
    assert Begin(i) in log[..p];
  }

  lemma BatchThrough(before: seq<Event>, log: seq<Event>, calls: seq<ToolCall>, safe: ToolCall -> bool, from: nat, to: nat)
    requires Through(before, calls, safe, from) && before <= log && from <= to
    requires Sane(log, calls, safe) && Settled(log, to) && Open(log) == 0
    requires forall i: nat :: from <= i < to ==> End(i) in log
    ensures Through(log, calls, safe, to)
  {
    forall i: nat | i < to ensures Begin(i) in log && End(i) in log {
      if i < from {
        var p :| 0 <= p < |before| && before[p] == End(i);
        assert log[p] == End(i);
      }
      EndedHaveBegun(log, calls, safe, i);
    }
  }

  /** The read-ahead buffer holds what the calls from..to answer in the world as it is. */
  ghost predicate Buffered<W(!new), R>(ex: Executor<W, R>, calls: seq<ToolCall>, buffer: seq<R>, from: nat, to: nat, w: W) {
    && from <= to <= |calls| && |buffer| == to - from
    && forall i :: from <= i < to ==> ex.safe(calls[i]) && buffer[i - from] == ex.run(calls[i], w).0
  }

  lemma NextCall<W(!new), R>(ex: Executor<W, R>, calls: seq<ToolCall>, index: nat, w: W, done: seq<R>, halts: seq<R> -> bool)
    requires index < |calls|
    ensures var (r, w') := ex.run(calls[index], w);
      Sequential(ex, calls[index..], w, done, halts) ==
      if halts(done + [r]) then (done + [r], w') else Sequential(ex, calls[index + 1..], w', done + [r], halts)
  {
    assert calls[index..][1..] == calls[index + 1..];
  }

  /** The tool batch of one turn. It answers and leaves behind what running the calls one by one
      does, stopped by the same result; each call runs at most once, reads never overtake an
      earlier call that is none, and every consumed call has ended. */
  method RunBatch<W(!new), R>(ex: Executor<W, R>, calls: seq<ToolCall>, w: W, halts: seq<R> -> bool)
    returns (results: seq<R>, w': W, ghost log: seq<Event>)
    requires ReadsOnly(ex)
    ensures (results, w') == Sequential(ex, calls, w, [], halts)
    ensures exists n: nat :: |results| <= n <= |calls| && Through(log, calls, ex.safe, n)
  {
    hide Through, Cleared, Sane, Settled, Open, Sequential;
    results, w', log := [], w, [];
    var precomputed: seq<R> := [];
    var precomputedStart, precomputedEnd := 0, 0;
    var index := 0;
    assert calls[0..] == calls;
    NothingThrough(calls, ex.safe);
    while index < |calls|
      invariant 0 <= index <= |calls| && |results| == index
      invariant Sequential(ex, calls, w, [], halts) == Sequential(ex, calls[index..], w', results, halts)
      invariant precomputedStart <= index && precomputedEnd <= |calls|
      invariant index < precomputedEnd ==> Buffered(ex, calls, precomputed, precomputedStart, precomputedEnd, w')
      invariant Through(log, calls, ex.safe, if index < precomputedEnd then precomputedEnd else index)
    {
      if index >= precomputedEnd {
        var runEnd := index;
        while runEnd < |calls| && ex.safe(calls[runEnd])
          invariant index <= runEnd <= |calls|
          invariant forall i :: index <= i < runEnd ==> ex.safe(calls[i])
        {
          runEnd := runEnd + 1;
        }
        if runEnd - index >= 2 {
          ThroughParts(log, calls, ex.safe, index);
          ghost var before := log;
          precomputed, w', log := ExecuteParallelReadBatch(ex, calls, index, runEnd, w', log);
          BatchThrough(before, log, calls, ex.safe, index, runEnd);
          precomputedStart, precomputedEnd := index, runEnd;
        }
      }
      NextCall(ex, calls, index, w', results, halts);
      var r: R;
      if precomputedStart <= index < precomputedEnd {
        r := precomputed[index - precomputedStart];
        assert ex.run(calls[index], w').1 == w';
      } else {
        OneCallThrough(log, calls, ex.safe, index);
        log := log + [Begin(index), End(index)];
        var (result, next) := ex.run(calls[index], w');
        r, w' := result, next;
      }
      results := results + [r];
      if halts(results) {
        return;
      }
      index := index + 1;
    }
    NoCallsLeft(ex, calls, w', results, halts);
  }

  lemma NoCallsLeft<W(!new), R>(ex: Executor<W, R>, calls: seq<ToolCall>, w: W, done: seq<R>, halts: seq<R> -> bool)
    ensures Sequential(ex, calls[|calls|..], w, done, halts) == (done, w)
  {
  }

  lemma NothingThrough(calls: seq<ToolCall>, safe: ToolCall -> bool)
    ensures Through([], calls, safe, 0)
  {
  }

  lemma ThroughParts(log: seq<Event>, calls: seq<ToolCall>, safe: ToolCall -> bool, n: nat)
    requires Through(log, calls, safe, n)
    ensures Sane(log, calls, safe) && Settled(log, n) && Open(log) == 0 && Cleared(log, calls, safe, n)
  {
  }
}
