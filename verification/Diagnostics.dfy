/** Background post-edit checks (async_diagnostics.go): one worker, one queue, and a drain that
    delivers what a synchronous check of the final files would have said. */
module Diagnostics {
  import opened Basics
  import opened Order

  const NUDGE: string := "Diagnostics after your recent edits (fix any errors you introduced):\n"

  /** What stands in each file, as a version; a file never written stands at 0. */
  type Files = map<string, int>

  function Content(files: Files, path: string): int {
    if path in files then files[path] else 0
  }

  /** The language server, whatever it says about a path and its content, and the resolution of
      workspace-relative paths. */
  datatype Checker = Checker(check: (string, int) -> string, resolve: string -> string)

  function Self(path: string): string {
    path
  }

  // ---- the report ----

  function Blocks(m: map<string, string>, paths: seq<string>): (r: seq<string>)
    requires forall i :: 0 <= i < |paths| ==> paths[i] in m
    ensures |r| == |paths| && forall i :: 0 <= i < |paths| ==> r[i] == m[paths[i]]
  {
    seq(|paths|, i requires 0 <= i < |paths| => m[paths[i]])
  }

  function Join(blocks: seq<string>): string {
    if blocks == [] then "" else if |blocks| == 1 then blocks[0] else blocks[0] + "\n" + Join(blocks[1..])
  }

  ghost predicate Ordered(paths: seq<string>, m: map<string, string>) {
    Ascending(paths, Self) && (forall p :: p in paths <==> p in m) && (forall i :: 0 <= i < |paths| ==> paths[i] in m)
  }

  /** Each block stands whole in `text`, the first at `from`, each of the others one newline behind the
      one before it, and the last at the end. */
  predicate Laid(text: string, blocks: seq<string>, at: seq<nat>, from: nat) {
    && |at| == |blocks| > 0 && at[0] == from
    && (forall i :: 0 <= i < |blocks| ==> Stands(text, blocks[i], at[i]))
    && (forall i :: 0 < i < |blocks| ==> Follows(text, at[i - 1] + |blocks[i - 1]|, at[i]))
    && at[|at| - 1] + |blocks[|blocks| - 1]| == |text|
  }

  predicate Stands(text: string, block: string, at: nat) {
    at + |block| <= |text| && text[at..at + |block|] == block
  }

  /** One newline lies between. */
  predicate Follows(text: string, end: nat, at: nat) {
    at == end + 1 <= |text| && text[end] == '\n'
  }

  /** `text` tells every entry of `m`, whole and once, in ascending order of the paths, and nothing
      else; nothing when there is none. */
  ghost predicate Tells(text: string, m: map<string, string>) {
    if m == map[] then text == ""
    else
      && NUDGE <= text
      && exists paths: seq<string>, at: seq<nat> {:trigger Laid(text, Blocks(m, paths), at, |NUDGE|)} ::
           Ordered(paths, m) && Laid(text, Blocks(m, paths), at, |NUDGE|)
  }

  lemma LaidOne(text: string, block: string, from: nat)
    requires Stands(text, block, from) && from + |block| == |text|
    ensures Laid(text, [block], [from], from)
  {
  }

  lemma LaidAhead(text: string, block: string, rest: seq<string>, at: seq<nat>, from: nat)
    requires Stands(text, block, from) && Follows(text, from + |block|, from + |block| + 1)
    requires Laid(text, rest, at, from + |block| + 1)
    ensures Laid(text, [block] + rest, [from] + at, from)
  {
    hide Stands, Follows;
    var blocks, bt := [block] + rest, [from] + at;
    forall i | 0 <= i < |blocks| ensures Stands(text, blocks[i], bt[i]) {
      if i > 0 {
        assert Stands(text, rest[i - 1], at[i - 1]);
      }
    }
    forall i | 0 < i < |blocks| ensures Follows(text, bt[i - 1] + |blocks[i - 1]|, bt[i]) {
      if i > 1 {
        assert Follows(text, at[i - 2] + |rest[i - 2]|, at[i - 1]);
      }
    }
  }

  lemma {:induction false} JoinIsLaid(head: string, blocks: seq<string>) returns (at: seq<nat>)
    requires blocks != []
    ensures Laid(head + Join(blocks), blocks, at, |head|)
    decreases |blocks|
  {
    hide Stands, Follows, Laid;
    if |blocks| == 1 {
      FirstStands(head, blocks[0], "");
      assert blocks[0] + "" == blocks[0];
      LaidOne(head + blocks[0], blocks[0], |head|);
      assert blocks == [blocks[0]];
      at := [|head|];
    } else {
      var head', rest := head + blocks[0] + "\n", blocks[1..];
      FirstStands(head, blocks[0], "\n" + Join(rest));
      assert blocks[0] + ("\n" + Join(rest)) == Join(blocks);
      assert head + Join(blocks) == head' + Join(rest);
      NewlineFollows(head + blocks[0], Join(rest));
      var bt := JoinIsLaid(head', rest);
      LaidAhead(head + Join(blocks), blocks[0], rest, bt, |head|);
      assert blocks == [blocks[0]] + rest;
      at := [|head|] + bt;
    }
  }

  lemma FirstStands(head: string, block: string, rest: string)
    ensures Stands(head + (block + rest), block, |head|)
  {
  }

  lemma NewlineFollows(head: string, rest: string)
    ensures Follows(head + "\n" + rest, |head|, |head| + 1)
  {
  }

  lemma ReportTells(m: map<string, string>, paths: seq<string>)
    requires Ordered(paths, m) && paths != []
    ensures Tells(NUDGE + Join(Blocks(m, paths)), m)
  {
    hide Ascending, NUDGE, Join, Laid;
    var at := JoinIsLaid(NUDGE, Blocks(m, paths));
    assert paths[0] in m;
  }

  /** Two texts laid out for the same blocks agree block by block. */
  lemma {:induction false} LaidAlike(a: string, b: string, blocks: seq<string>, at: seq<nat>, bt: seq<nat>, n: nat)
    requires Laid(a, blocks, at, |NUDGE|) && Laid(b, blocks, bt, |NUDGE|) && NUDGE <= a && NUDGE <= b && n < |blocks|
    ensures at[n] == bt[n] && at[n] + |blocks[n]| <= |a| && at[n] + |blocks[n]| <= |b|
    ensures a[..at[n] + |blocks[n]|] == b[..at[n] + |blocks[n]|]
    decreases n
  {
    hide NUDGE, Stands, Follows;
    assert Stands(a, blocks[n], at[n]) && Stands(b, blocks[n], bt[n]);
    if n == 0 {
      assert at[0] == |NUDGE|;
      SameUpTo(a, b, at[0], blocks[0]);
    } else {
      LaidAlike(a, b, blocks, at, bt, n - 1);
      var end := at[n - 1] + |blocks[n - 1]|;
      assert Follows(a, end, at[n]) && Follows(b, end, bt[n]);
      SameBehindNewline(a, b, end, at[n], bt[n]);
      SameUpTo(a, b, at[n], blocks[n]);
    }
  }

  lemma SameUpTo(a: string, b: string, at: nat, block: string)
    requires Stands(a, block, at) && Stands(b, block, at) && a[..at] == b[..at]
    ensures at + |block| <= |a| && at + |block| <= |b| && a[..at + |block|] == b[..at + |block|]
  {
    assert a[..at + |block|] == a[..at] + a[at..at + |block|];
    assert b[..at + |block|] == b[..at] + b[at..at + |block|];
  }

  lemma SameBehindNewline(a: string, b: string, end: nat, at: nat, bt: nat)
    requires Follows(a, end, at) && Follows(b, end, bt) && a[..end] == b[..end]
    ensures at == bt && at <= |a| && at <= |b| && a[..at] == b[..at]
  {
    assert a[..at] == a[..end] + [a[end]];
    assert b[..at] == b[..end] + [b[end]];
  }

  /** There is one such text. */
  lemma TellsOneText(a: string, b: string, m: map<string, string>)
    requires Tells(a, m) && Tells(b, m)
    ensures a == b
  {
    hide Ascending, NUDGE, Laid;
    if m != map[] {
      var p, at :| Ordered(p, m) && Laid(a, Blocks(m, p), at, |NUDGE|);
      var q, bt :| Ordered(q, m) && Laid(b, Blocks(m, q), bt, |NUDGE|);
      AscendingIsUnique(p, q, Self);
      LaidIsUnique(a, b, Blocks(m, p), at, bt);
    }
  }

  lemma LaidIsUnique(a: string, b: string, blocks: seq<string>, at: seq<nat>, bt: seq<nat>)
    requires Laid(a, blocks, at, |NUDGE|) && Laid(b, blocks, bt, |NUDGE|) && NUDGE <= a && NUDGE <= b
    ensures a == b
  {
    hide NUDGE, Stands, Follows;
    LaidAlike(a, b, blocks, at, bt, |blocks| - 1);
    assert a[..|a|] == a && b[..|b|] == b;
  }

  // ---- the synchronous reference ----

  /** The files, the paths announced since the last delivery, and those edited since they were
      last announced. */
  datatype Sync = Sync(files: Files, touched: set<string>, silent: set<string>)

  const AT_FIRST := Sync(map[], {}, {})

  /** Checking every announced path now, one after the other. */
  function CheckNow(c: Checker, s: Sync): map<string, string> {
    map p | p in s.touched && c.check(p, Content(s.files, p)) != "" :: c.check(p, Content(s.files, p))
  }

  datatype Step =
    | Edit(path: string, version: int)
    | Enqueue(files: seq<string>)
    | Work
    | Drain(patience: nat)

  /** What a drain hands over, and whether it found the worker quiet. */
  datatype Delivery = Delivery(quiet: bool, text: string)

  function Resolved(c: Checker, files: seq<string>): (r: set<string>) {
    set i | 0 <= i < |files| :: c.resolve(files[i])
  }

  function Drains(steps: seq<Step>): nat {
    if steps == [] then 0
    else Drains(steps[..|steps| - 1]) + if steps[|steps| - 1].Drain? then 1 else 0
  }

  /** What the loop's own steps come to; the worker's do not matter. */
  function SyncAfter(c: Checker, steps: seq<Step>, out: seq<Delivery>): Sync
    requires |out| == Drains(steps)
    decreases |steps|
  {
    if steps == [] then AT_FIRST
    else
      var before := steps[..|steps| - 1];
      match steps[|steps| - 1]
      case Edit(p, v) =>
        var s := SyncAfter(c, before, out);
        Sync(s.files[p := v], s.touched, s.silent + {p})
      case Enqueue(files) =>
        var s := SyncAfter(c, before, out);
        Sync(s.files, s.touched + Resolved(c, files), s.silent - Resolved(c, files))
      case Work => SyncAfter(c, before, out)
      case Drain(_) =>
        var s := SyncAfter(c, before, out[..|out| - 1]);
        if out[|out| - 1].quiet then s.(touched := {}) else s
  }

  /** A quiet drain tells what checking now would tell, if no announced path was edited behind
      its announcement; any other drain tells nothing. */
  ghost predicate Delivers(c: Checker, s: Sync, d: Delivery) {
    if d.quiet then s.touched !! s.silent ==> Tells(d.text, CheckNow(c, s)) else d.text == ""
  }

  ghost predicate AllDeliver(c: Checker, steps: seq<Step>, out: seq<Delivery>)
    requires |out| == Drains(steps)
    decreases |steps|
  {
    steps == []
    || (var before := steps[..|steps| - 1];
        if steps[|steps| - 1].Drain? then
          && AllDeliver(c, before, out[..|out| - 1])
          && Delivers(c, SyncAfter(c, before, out[..|out| - 1]), out[|out| - 1])
        else AllDeliver(c, before, out))
  }

  // ---- the collector ----

  /** Where the worker goroutine stands; between two lock regions it holds one path. */
  datatype Worker = Gone | AtTop | Checking(path: string) | Checked(path: string, block: string)

  function Phase(w: Worker): nat {
    match w
    case Gone => 0
    case AtTop => 1
    case Checked(_, _) => 2
    case Checking(_) => 3
  }

  predicate Holds(w: Worker, path: string) {
    (w.Checking? || w.Checked?) && w.path == path
  }

  class AsyncDiagnostics {
    const checker: Checker
    var queue: seq<string>
    var queued: set<string>
    var results: map<string, string>
    var worker: Worker
    var files: Files
    ghost var touched: set<string>
    ghost var silent: set<string>

    /** The stored result of a path is what a check now would say. */
    ghost predicate UpToDate(p: string)
      reads this`results, this`files
    {
      var block := checker.check(p, Content(files, p));
      if block == "" then p !in results else p in results && results[p] == block
    }

    /** A path announced since the last delivery is still to be checked, in the worker's hands with
        a fresh answer, or done with a fresh answer; unless it was edited behind its announcement. */
    ghost predicate Accounted(p: string)
      reads this`queued, this`results, this`worker, this`files, this`silent
    {
      || p in queued
      || p in silent
      || worker == Checking(p)
      || worker == Checked(p, checker.check(p, Content(files, p)))
      || (!Holds(worker, p) && UpToDate(p))
    }

    ghost predicate Valid()
      reads this
    {
      && (worker.Gone? ==> queue == [])
      && Distinct(queue) && (forall p :: p in queue <==> p in queued)
      && queued <= touched && results.Keys <= touched
      && ((worker.Checking? || worker.Checked?) ==> worker.path in touched)
      && forall p :: p in touched ==> Accounted(p)
    }

    /** The worker's steps from here to its exit. */
    ghost function Todo(): nat
      reads this`queue, this`worker
    {
      3 * |queue| + Phase(worker)
    }

    ghost function State(): Sync
      reads this`files, this`touched, this`silent
    {
      Sync(files, touched, silent)
    }

    constructor (checker: Checker)
      ensures Valid() && State() == AT_FIRST && this.checker == checker
    {
      this.checker := checker;
      queue, queued, results, worker, files := [], {}, map[], Gone, map[];
      touched, silent := {}, {};
    }

    /** A tool writes a file. */
    method Write(path: string, version: int)
      requires Valid()
      modifies this`files, this`silent
      ensures Valid()
      ensures State() == Sync(old(files)[path := version], touched, old(silent) + {path})
    {
      files := files[path := version];
      silent := silent + {path};
      forall p | p in touched ensures Accounted(p) {
        assert old(Accounted(p));
      }
    }

    /** enqueue, under the lock; it starts a worker when there is none. */
    method Announce(changed: seq<string>)
      requires Valid()
      modifies this`queue, this`queued, this`results, this`worker, this`touched, this`silent
      ensures Valid()
      ensures State() == Sync(files, old(touched) + Resolved(checker, changed), old(silent) - Resolved(checker, changed))
    {
      hide Distinct;
      if |changed| == 0 {
        assert Resolved(checker, changed) == {};
        return;
      }
      ghost var before, quiet := touched, silent;
      var idle := worker.Gone?;
      for i := 0 to |changed|
        invariant Queueing()
        invariant worker == old(worker)
        invariant touched == before + Resolved(checker, changed[..i])
        invariant silent == quiet - Resolved(checker, changed[..i])
      {
        ResolvedSnoc(checker, changed, i);
        AnnounceOne(checker.resolve(changed[i]));
      }
      assert changed[..|changed|] == changed;
      if worker.Gone? && |queue| > 0 {
        worker := AtTop;
      }
    }

    /** Valid but for the worker, who is started last. */
    ghost predicate Queueing()
      reads this
    {
      && Distinct(queue) && (forall p :: p in queue <==> p in queued)
      && queued <= touched && results.Keys <= touched
      && ((worker.Checking? || worker.Checked?) ==> worker.path in touched)
      && forall p :: p in touched ==> Accounted(p)
    }

    method AnnounceOne(path: string)
      requires Queueing()
      modifies this`queue, this`queued, this`results, this`touched, this`silent
      ensures Queueing()
      ensures touched == old(touched) + {path} && silent == old(silent) - {path}
      ensures if path in old(queued) then queue == old(queue) && queued == old(queued) && results == old(results)
              else queue == old(queue) + [path] && queued == old(queued) + {path} && results == old(results) - {path}
    {
      touched, silent := touched + {path}, silent - {path};
      if path !in queued {
        queued := queued + {path};
        results := results - {path};
        queue := queue + [path];
      }
      forall p | p in touched ensures Accounted(p) {
        assert p != path ==> old(Accounted(p));
      }
    }

    /** One lock region of the worker, or its check between two of them. */
    method WorkerStep()
      requires Valid() && !worker.Gone?
      modifies this`queue, this`queued, this`results, this`worker
      ensures Valid()
      ensures Todo() == old(Todo()) - 1
      ensures match old(worker)
        case AtTop =>
          && results == old(results)
          && if old(queue) == [] then worker == Gone && queue == [] && queued == old(queued)
             else worker == Checking(old(queue)[0]) && queue == old(queue)[1..] && queued == old(queued) - {old(queue)[0]}
        case Checking(path) =>
          && worker == Checked(path, checker.check(path, Content(files, path)))
          && queue == old(queue) && queued == old(queued) && results == old(results)
        case Checked(path, block) =>
          && worker == AtTop && queue == old(queue) && queued == old(queued)
          && results == if block != "" then old(results)[path := block] else old(results) - {path}
    {
      match worker {
        case AtTop =>
          if |queue| == 0 {
            worker := Gone;
          } else {
            var path := queue[0];
            QueueRest(queue);
            queue := queue[1..];
            queued := queued - {path};
            worker := Checking(path);
          }
        case Checking(path) =>
          worker := Checked(path, checker.check(path, Content(files, path)));
        case Checked(path, block) =>
          if block != "" {
            results := results[path := block];
          } else {
            results := results - {path};
          }
          worker := AtTop;
      }
      forall p | p in touched ensures Accounted(p) {
        assert old(Accounted(p));
      }
    }

    /** drainWithin: the worker runs on while the loop waits, for as long as `patience` lasts. It is
        found quiet exactly when that is long enough. */
    method DrainWithin(patience: nat) returns (d: Delivery)
      requires Valid()
      modifies this`queue, this`queued, this`results, this`worker, this`touched
      ensures Valid()
      ensures d.quiet <==> patience >= old(Todo())
      ensures Delivers(checker, old(State()), d)
      ensures State() == if d.quiet then old(State()).(touched := {}) else old(State())
    {
      hide Tells;
      var left := patience;
      while left > 0 && !worker.Gone?
        invariant Valid() && 0 <= left
        invariant State() == old(State())
        invariant patience - left == old(Todo()) - Todo()
      {
        WorkerStep();
        left := left - 1;
      }
      if !worker.Gone? {
        return Delivery(false, "");
      }
      ghost var state := State();
      if touched !! silent {
        QuietIsCheckNow();
      }
      var text := Report(results);
      results := map[];
      touched := {};
      d := Delivery(true, text);
    }

    /** With the worker gone, the stored results are what checking now would say. */
    lemma QuietIsCheckNow()
      requires Valid() && worker.Gone? && touched !! silent
      ensures results == CheckNow(checker, State())
    {
      forall p | p in touched ensures UpToDate(p) {
        assert Accounted(p);
      }
    }
  }

  lemma QueueRest(queue: seq<string>)
    requires queue != [] && Distinct(queue)
    ensures Distinct(queue[1..])
    ensures forall p :: p in queue[1..] <==> p in queue && p != queue[0]
  {
    forall p ensures p in queue[1..] <==> p in queue && p != queue[0] {
      if p in queue && p != queue[0] {
        var i :| 0 <= i < |queue| && queue[i] == p;
        assert queue[1..][i - 1] == p;
      }
    }
  }

  lemma ResolvedSnoc(c: Checker, files: seq<string>, i: nat)
    requires i < |files|
    ensures Resolved(c, files[..i + 1]) == Resolved(c, files[..i]) + {c.resolve(files[i])}
  {
    assert files[..i + 1] == files[..i] + [files[i]];
    assert (files[..i] + [files[i]])[i] == files[i];
  }

  /** The results, in ascending order of their paths. */
  method Report(results: map<string, string>) returns (text: string)
    ensures Tells(text, results)
  {
    if |results| == 0 {
      return "";
    }
    var left, paths: seq<string> := results.Keys, [];
    while left != {}
      invariant left <= results.Keys
      invariant forall p :: p in paths <==> p in results && p !in left
      invariant Distinct(paths)
      decreases |left|
    {
      var p :| p in left;
      left, paths := left - {p}, paths + [p];
    }
    paths := SortBy(paths, Self);
    forall i | 0 <= i < |paths| ensures paths[i] in results {
      assert paths[i] in paths;
    }
    assert Ordered(paths, results);
    assert paths != [] by {
      var p :| p in results;
      assert p in paths;
    }
    ReportTells(results, paths);
    text := NUDGE + Join(Blocks(results, paths));
  }

  /** Every interleaving of the loop's steps with the worker's: each quiet drain delivers what a
      synchronous check of everything announced since the last one would deliver. */
  method Interleave(c: Checker, steps: seq<Step>) returns (out: seq<Delivery>)
    ensures |out| == Drains(steps)
    ensures AllDeliver(c, steps, out)
  {
    hide Delivers, CheckNow;
    out := [];
    var d := new AsyncDiagnostics(c);
    for i := 0 to |steps|
      invariant fresh(d) && d.Valid() && d.checker == c
      invariant |out| == Drains(steps[..i])
      invariant d.State() == SyncAfter(c, steps[..i], out)
      invariant AllDeliver(c, steps[..i], out)
    {
      assert steps[..i + 1][..i] == steps[..i];
      match steps[i]
      case Edit(path, version) => d.Write(path, version);
      case Enqueue(changed) => d.Announce(changed);
      case Work =>
        if !d.worker.Gone? {
          d.WorkerStep();
        }
      case Drain(patience) =>
        var delivery := d.DrainWithin(patience);
        out := out + [delivery];
        assert out[..|out| - 1] + [delivery] == out;
    }
    assert steps[..|steps|] == steps;
  }
}
