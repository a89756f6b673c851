/** The tool batch of one turn (loop.go): every call is judged and answered, in order. */
module ToolBatch {
  import opened Basics
  import opened Transcript
  import opened Guard
  import opened RunEnv
  import ReadAhead

  /** The arguments may be repaired for replay, the calls stay the calls. */
  predicate SameCalls(safe: seq<ToolCall>, calls: seq<ToolCall>) {
    |safe| == |calls| && forall i :: 0 <= i < |calls| ==> safe[i].id == calls[i].id && safe[i].name == calls[i].name
  }

  /** The calls as the history keeps them. */
  function SafeCalls(env: Env, calls: seq<ToolCall>): (r: seq<ToolCall>)
    ensures |r| == |calls|
  {
    seq(|calls|, i requires 0 <= i < |calls| => ToolCall(calls[i].id, calls[i].name, env.safeArguments(calls[i].arguments)))
  }

  method HistorySafeToolCalls(env: Env, calls: seq<ToolCall>) returns (safe: seq<ToolCall>)
    ensures SameCalls(safe, calls) && safe == SafeCalls(env, calls)
    ensures forall i :: 0 <= i < |calls| ==> safe[i].arguments == env.safeArguments(calls[i].arguments)
  {
    safe := [];
    for i := 0 to |calls|
      invariant SameCalls(safe, calls[..i])
      invariant forall k :: 0 <= k < i ==> safe[k].arguments == env.safeArguments(calls[k].arguments)
    {
      safe := safe + [calls[i].(arguments := env.safeArguments(calls[i].arguments))];
    }
  }

  /** appendAbortedToolResults: the calls that never ran are answered too. */
  method AppendAbortedToolResults(notice: string, ms: seq<Message>, ghost at: nat, ghost done: nat, remaining: seq<ToolCall>)
    returns (ms': seq<Message>)
    requires OpenTurn(ms, at, done) && |ms[at].toolCalls| == done + |remaining|
    requires forall k :: 0 <= k < |remaining| ==> ms[at].toolCalls[done + k].id == remaining[k].id
    ensures WellFormed(ms') && ms <= ms' && |ms'| == |ms| + |remaining|
    ensures forall k :: 0 <= k < |remaining| ==> ms'[|ms| + k] == ToolMessage(notice, remaining[k].id)
  {
    hide WellFormed;
    ms' := ms;
    for k := 0 to |remaining|
      invariant OpenTurn(ms', at, done + k) && ms <= ms' && |ms'| == |ms| + k
      invariant forall j :: 0 <= j < k ==> ms'[|ms| + j] == ToolMessage(notice, remaining[j].id)
    {
      AnswerExtendsTurn(ms', at, done + k, ToolMessage(notice, remaining[k].id));
      ms' := ms' + [ToolMessage(notice, remaining[k].id)];
    }
    FullTurnWellFormed(ms', at);
  }

  /** What the batch leaves for the messages behind it. */
  datatype Batch = Batch(hint: Option<Notice>, requestedModel: string, changed: bool)

  /** Whether the run goes on behind a result: an abort first, then a review, then the failure guard. */
  method Judge(env: Env, guards: GuardState, turn: nat, index: nat, tool: ToolName, result: Executed)
    returns (halt: Option<Halt>, injectHint: bool)
    requires guards.FailuresTold()
    modifies guards`toolFailures, guards`seen
    ensures guards.FailuresTold()
    ensures var seen := old(guards.seen) + [Observation(tool, result.retriable, result.sign)];
      && (halt.None? <==> result.abort.None? && env.alive(turn, index + 1) && !result.specReview
                          && Streak(Own(seen, tool)) < STOP_AT)
      && (halt.None? ==> guards.seen == seen)
    ensures halt.Some? ==>
      match halt.value.how
      case Failed(e) =>
        halt.value.answer == "" && if result.abort.Some? then e == result.abort.value else !env.alive(turn, index + 1) && e == "interrupted"
      case SpecReview =>
        result.abort.None? && env.alive(turn, index + 1) && result.specReview && halt.value.answer == result.output
      case GuardHalt(t) =>
        && result.abort.None? && env.alive(turn, index + 1) && !result.specReview
        && t == tool && guards.seen == old(guards.seen) + [Observation(tool, result.retriable, result.sign)]
        && Streak(Own(guards.seen, tool)) >= STOP_AT
        && halt.value.answer == env.words(FailureStop(tool, Streak(Own(guards.seen, tool))))
      case _ => false
    ensures halt.None? ==> (injectHint <==> Streak(Own(guards.seen, tool)) == HINT_AT)
    ensures injectHint ==> halt.None?
  {
    hide Streak, Own, GuardState.FailuresTold;
    halt, injectHint := None, false;
    if result.abort.Some? {
      halt := Some(Halt(Failed(result.abort.value), ""));
    } else if !env.alive(turn, index + 1) {
      halt := Some(Halt(Failed("interrupted"), ""));
    } else if result.specReview {
      halt := Some(Halt(SpecReview, result.output));
    } else {
      var outcome := guards.ObserveToolResult(tool, result.retriable, result.sign);
      injectHint := outcome.injectHint;
      if outcome.stop {
        halt := Some(Halt(GuardHalt(tool), env.words(FailureStop(tool, outcome.count))));
      }
    }
  }

  /** `out` is `start` and behind it the answers to the first `n` calls: those below `executed` are
      what the tools said, the others the notice. */
  ghost predicate BatchAnswered(env: Env, turn: nat, calls: seq<ToolCall>, start: seq<Message>, out: seq<Message>,
                           executed: nat, n: nat) {
    && n <= |calls| && start <= out && |out| == |start| + n
    && forall i: nat :: i < n ==> out[|start| + i] == AnswerTo(env, turn, calls, executed, i)
  }

  function AnswerTo(env: Env, turn: nat, calls: seq<ToolCall>, executed: nat, i: nat): Message
    requires i < |calls|
  {
    ToolMessage(if i < executed then env.execute(turn, i, calls[i]).output else env.words(Aborted), calls[i].id)
  }

  lemma AnsweredOneMore(env: Env, turn: nat, calls: seq<ToolCall>, start: seq<Message>, out: seq<Message>, n: nat)
    requires BatchAnswered(env, turn, calls, start, out, n, n) && n < |calls|
    ensures BatchAnswered(env, turn, calls, start, out + [AnswerTo(env, turn, calls, n + 1, n)], n + 1, n + 1)
  {
    var m := n + 1;
    var more := out + [AnswerTo(env, turn, calls, m, n)];
    forall i: nat | i < m ensures more[|start| + i] == AnswerTo(env, turn, calls, m, i) {
      if i < n {
        assert more[|start| + i] == out[|start| + i] == AnswerTo(env, turn, calls, n, i);
      }
    }
  }

  lemma AnsweredByNotices(env: Env, turn: nat, calls: seq<ToolCall>, start: seq<Message>, mid: seq<Message>,
                          out: seq<Message>, n: nat)
    requires BatchAnswered(env, turn, calls, start, mid, n, n)
    requires mid <= out && |out| == |mid| + |calls| - n
    requires forall k :: 0 <= k < |calls| - n ==> out[|mid| + k] == ToolMessage(env.words(Aborted), calls[n..][k].id)
    ensures BatchAnswered(env, turn, calls, start, out, n, |calls|)
  {
    forall i: nat | i < |calls|
      ensures out[|start| + i] == AnswerTo(env, turn, calls, n, i)
    {
      if i < n {
        assert out[|start| + i] == mid[|start| + i];
      } else {
        assert out[|mid| + (i - n)] == out[|start| + i] && calls[n..][i - n] == calls[i];
      }
    }
  }

  /** The batch behind the assistant message that ends `start` has come to its call `n`. */
  ghost predicate Going(env: Env, turn: nat, calls: seq<ToolCall>, start: seq<Message>, out: seq<Message>, n: nat) {
    && start != [] && SameCalls(start[|start| - 1].toolCalls, calls)
    && OpenTurn(out, |start| - 1, n) && BatchAnswered(env, turn, calls, start, out, n, n)
  }

  lemma BatchBegins(env: Env, turn: nat, calls: seq<ToolCall>, ms: seq<Message>, m: Message)
    requires WellFormed(ms) && m.role == Assistant && SameCalls(m.toolCalls, calls)
    ensures Going(env, turn, calls, ms + [m], ms + [m], 0)
  {
    hide WellFormed, Answers;
    assert (ms + [m])[..|ms|] == ms;
    assert (ms + [m])[|ms| + 1..] == [];
    NothingAnswered();
    assert m.toolCalls[..0] == [];
  }

  lemma BatchGoesOn(env: Env, turn: nat, calls: seq<ToolCall>, start: seq<Message>, out: seq<Message>, n: nat)
    requires Going(env, turn, calls, start, out, n) && n < |calls|
    ensures Going(env, turn, calls, start, out + [AnswerTo(env, turn, calls, n + 1, n)], n + 1)
  {
    hide WellFormed, Answers;
    assert out[|start| - 1] == start[|start| - 1];
    AnswerExtendsTurn(out, |start| - 1, n, AnswerTo(env, turn, calls, n + 1, n));
    AnsweredOneMore(env, turn, calls, start, out, n);
  }

  lemma BatchEnds(env: Env, turn: nat, calls: seq<ToolCall>, start: seq<Message>, out: seq<Message>)
    requires Going(env, turn, calls, start, out, |calls|)
    ensures WellFormed(out) && start <= out && BatchAnswered(env, turn, calls, start, out, |calls|, |calls|)
  {
    hide WellFormed, Answers;
    assert out[|start| - 1] == start[|start| - 1];
    FullTurnWellFormed(out, |start| - 1);
  }

  /** A batch cut short behind its call `n - 1`. */
  method CloseBatch(env: Env, turn: nat, calls: seq<ToolCall>, ghost start: seq<Message>, ms: seq<Message>, n: nat)
    returns (ms': seq<Message>)
    requires Going(env, turn, calls, start, ms, n)
    ensures WellFormed(ms') && start <= ms' && BatchAnswered(env, turn, calls, start, ms', n, |calls|)
  {
    hide WellFormed, Answers;
    assert ms[|start| - 1] == start[|start| - 1];
    ms' := AppendAbortedToolResults(env.words(Aborted), ms, |start| - 1, n, calls[n..]);
    AnsweredByNotices(env, turn, calls, start, ms, ms', n);
  }

  // ---- where the batch stops ----

  /** What the tools answered to the first `n` calls. */
  function ResultsOf(env: Env, turn: nat, calls: seq<ToolCall>, n: nat): (r: seq<Executed>)
    requires n <= |calls|
    ensures |r| == n
  {
    seq(n, i requires 0 <= i < n => env.execute(turn, i, calls[i]))
  }

  /** What the failure guard sees of these results. */
  function Observed(calls: seq<ToolCall>, results: seq<Executed>): (r: seq<Observation>)
    requires |results| <= |calls|
    ensures |r| == |results|
  {
    seq(|results|, i requires 0 <= i < |results| => Observation(calls[i].name, results[i].retriable, results[i].sign))
  }

  /** The last of these results ends the batch: by an abort, a dead run, a review, or as the sixth
      failure of its tool with one error. */
  predicate Halts(env: Env, turn: nat, calls: seq<ToolCall>, seen: seq<Observation>, results: seq<Executed>) {
    && 0 < |results| <= |calls|
    && var i := |results| - 1;
       || results[i].abort.Some? || !env.alive(turn, i + 1) || results[i].specReview
       || Streak(Own(seen + Observed(calls, results), calls[i].name)) >= STOP_AT
  }

  /** The batch goes on to its call `n`. */
  predicate GoesTo(env: Env, turn: nat, calls: seq<ToolCall>, seen: seq<Observation>, n: nat) {
    n <= |calls| && forall k :: 0 <= k <= n ==> !Halts(env, turn, calls, seen, ResultsOf(env, turn, calls, k))
  }

  /** The batch stops behind its first `n` calls: at the first result that ends it, or at its end. */
  predicate StopsAt(env: Env, turn: nat, calls: seq<ToolCall>, seen: seq<Observation>, n: nat) {
    && n <= |calls|
    && (forall k :: 0 <= k < n ==> !Halts(env, turn, calls, seen, ResultsOf(env, turn, calls, k)))
    && (n == |calls| || Halts(env, turn, calls, seen, ResultsOf(env, turn, calls, n)))
  }

  /** One more call of the batch, and whether it is the last. */
  lemma BatchJudged(env: Env, turn: nat, calls: seq<ToolCall>, seen: seq<Observation>, n: nat)
    requires n < |calls| && GoesTo(env, turn, calls, seen, n)
    ensures var r := env.execute(turn, n, calls[n]);
      var now := seen + Observed(calls, ResultsOf(env, turn, calls, n)) + [Observation(calls[n].name, r.retriable, r.sign)];
      && now == seen + Observed(calls, ResultsOf(env, turn, calls, n + 1))
      && (Halts(env, turn, calls, seen, ResultsOf(env, turn, calls, n + 1))
          <==> r.abort.Some? || !env.alive(turn, n + 1) || r.specReview || Streak(Own(now, calls[n].name)) >= STOP_AT)
      && StopsAt(env, turn, calls, seen, n + 1) == (n + 1 == |calls| || Halts(env, turn, calls, seen, ResultsOf(env, turn, calls, n + 1)))
      && (!Halts(env, turn, calls, seen, ResultsOf(env, turn, calls, n + 1)) ==> GoesTo(env, turn, calls, seen, n + 1))
  {
    hide Own, Streak;
    var r := env.execute(turn, n, calls[n]);
    var m := n + 1;
    var before, after := ResultsOf(env, turn, calls, n), ResultsOf(env, turn, calls, m);
    assert after == before + [r];
    assert Observed(calls, after) == Observed(calls, before) + [Observation(calls[n].name, r.retriable, r.sign)];
    assert seen + Observed(calls, before) + [Observation(calls[n].name, r.retriable, r.sign)]
        == seen + Observed(calls, after);
  }

  lemma NothingHalts(env: Env, turn: nat, calls: seq<ToolCall>, seen: seq<Observation>)
    ensures GoesTo(env, turn, calls, seen, 0) && Observed(calls, ResultsOf(env, turn, calls, 0)) == []
    ensures calls == [] ==> StopsAt(env, turn, calls, seen, 0)
  {
  }

  /** One assistant message and the answers to its calls, or one message without calls. */
  predicate OneBlock(ms: seq<Message>) {
    ms != [] && |ms| == Width(ms[0]) && WellFormed(ms)
  }

  /** What a batch leaves: the assistant message with all calls, and behind it the answers in order,
      those of the tools down to the call the batch stopped at, the notice for the others. */
  predicate BatchBlock(env: Env, turn: nat, text: string, calls: seq<ToolCall>, executed: nat, more: seq<Message>) {
    && |more| == 1 + |calls| && more[0] == AssistantMessage(text, SafeCalls(env, calls))
    && forall i :: 0 <= i < |calls| ==> more[1 + i] == AnswerTo(env, turn, calls, executed, i)
  }

  /** How the batch ended the run, by the last result it got. */
  predicate HaltTells(env: Env, turn: nat, calls: seq<ToolCall>, seen: seq<Observation>, executed: nat, halt: Halt) {
    && 0 < executed <= |calls|
    && var r := env.execute(turn, executed - 1, calls[executed - 1]);
       match halt.how
       case Failed(e) =>
         halt.answer == "" && if r.abort.Some? then e == r.abort.value else !env.alive(turn, executed) && e == "interrupted"
       case SpecReview => r.abort.None? && env.alive(turn, executed) && r.specReview && halt.answer == r.output
       case GuardHalt(tool) =>
         var streak := Streak(Own(seen + Observed(calls, ResultsOf(env, turn, calls, executed)), tool));
         && r.abort.None? && env.alive(turn, executed) && !r.specReview
         && tool == calls[executed - 1].name && streak >= STOP_AT && halt.answer == env.words(FailureStop(tool, streak))
       case _ => false
  }

  lemma BatchIsBlock(env: Env, turn: nat, calls: seq<ToolCall>, ms: seq<Message>, text: string, out: seq<Message>,
                     executed: nat)
    requires WellFormed(ms) && WellFormed(out)
    requires BatchAnswered(env, turn, calls, ms + [AssistantMessage(text, SafeCalls(env, calls))], out, executed, |calls|)
    ensures ms <= out && OneBlock(out[|ms|..]) && BatchBlock(env, turn, text, calls, executed, out[|ms|..])
  {
    hide WellFormed, SafeCalls, AnswerTo;
    var m := AssistantMessage(text, SafeCalls(env, calls));
    assert out[..|ms|] == (ms + [m])[..|ms|] == ms;
    assert out[|ms|] == (ms + [m])[|ms|] == m;
    SplitWellFormed(out, |ms|);
    var more := out[|ms|..];
    forall i | 0 <= i < |calls| ensures more[1 + i] == AnswerTo(env, turn, calls, executed, i) {
      var k: nat := i;
      assert out[|ms + [m]| + k] == AnswerTo(env, turn, calls, executed, k);
    }
  }

  /** The result at `i` brings a tool to its second failure in a row with one error. */
  predicate Hints(env: Env, turn: nat, calls: seq<ToolCall>, seen: seq<Observation>, i: int) {
    && 0 <= i < |calls|
    && Streak(Own(seen + Observed(calls, ResultsOf(env, turn, calls, i + 1)), calls[i].name)) == 2
  }

  /** What the batch leaves for the messages behind it: the hint of the first such failure, the first
      model asked for, and whether any call changed files. */
  ghost predicate BatchTells(env: Env, turn: nat, calls: seq<ToolCall>, seen: seq<Observation>, n: nat, batch: Batch)
    requires n <= |calls|
  {
    var results := ResultsOf(env, turn, calls, n);
    && (batch.changed <==> exists i :: 0 <= i < n && results[i].changed)
    && (batch.requestedModel == "" ==> forall i :: 0 <= i < n ==> results[i].requestedModel == "")
    && (batch.requestedModel != "" ==> exists i :: FirstRequest(results, i) && batch.requestedModel == results[i].requestedModel)
    && (batch.hint.None? ==> forall i :: 0 <= i < n ==> !Hints(env, turn, calls, seen, i))
    && (batch.hint.Some? ==> exists i :: FirstHint(env, turn, calls, seen, n, i)
                                         && batch.hint == Some(FailureHint(calls[i].name, results[i].output)))
  }

  predicate FirstRequest(results: seq<Executed>, i: int) {
    0 <= i < |results| && results[i].requestedModel != "" && forall j :: 0 <= j < i ==> results[j].requestedModel == ""
  }

  predicate FirstHint(env: Env, turn: nat, calls: seq<ToolCall>, seen: seq<Observation>, n: nat, i: int)
    requires n <= |calls|
  {
    0 <= i < n && Hints(env, turn, calls, seen, i) && forall j :: 0 <= j < i ==> !Hints(env, turn, calls, seen, j)
  }

  /** What one more result adds. */
  function Noting(batch: Batch, call: ToolCall, r: Executed, hints: bool): Batch {
    Batch(if batch.hint.None? && hints then Some(FailureHint(call.name, r.output)) else batch.hint,
          if batch.requestedModel == "" then r.requestedModel else batch.requestedModel,
          batch.changed || r.changed)
  }

  /** What the batch has noted by its call `n`. */
  function BatchOf(env: Env, turn: nat, calls: seq<ToolCall>, seen: seq<Observation>, n: nat): Batch
    requires n <= |calls|
  {
    if n == 0 then Batch(None, "", false)
    else
      Noting(BatchOf(env, turn, calls, seen, n - 1), calls[n - 1], env.execute(turn, n - 1, calls[n - 1]),
             Hints(env, turn, calls, seen, n - 1))
  }

  lemma {:induction false} BatchOfTells(env: Env, turn: nat, calls: seq<ToolCall>, seen: seq<Observation>, n: nat)
    requires n <= |calls|
    ensures BatchTells(env, turn, calls, seen, n, BatchOf(env, turn, calls, seen, n))
    decreases n
  {
    hide BatchTells, Hints, Noting;
    if n == 0 {
      NothingNoted(env, turn, calls, seen);
    } else {
      BatchOfTells(env, turn, calls, seen, n - 1);
      BatchNotes(env, turn, calls, seen, n - 1, BatchOf(env, turn, calls, seen, n - 1));
    }
  }

  lemma BatchNotes(env: Env, turn: nat, calls: seq<ToolCall>, seen: seq<Observation>, n: nat, batch: Batch)
    requires n < |calls| && BatchTells(env, turn, calls, seen, n, batch)
    ensures BatchTells(env, turn, calls, seen, n + 1,
                       Noting(batch, calls[n], env.execute(turn, n, calls[n]), Hints(env, turn, calls, seen, n)))
  {
    hide Hints;
    var m := n + 1;
    var r, before, after := env.execute(turn, n, calls[n]), ResultsOf(env, turn, calls, n), ResultsOf(env, turn, calls, m);
    var now := Noting(batch, calls[n], r, Hints(env, turn, calls, seen, n));
    assert after == before + [r];
    if batch.requestedModel != "" {
      var i :| FirstRequest(before, i) && batch.requestedModel == before[i].requestedModel;
      assert FirstRequest(after, i) && after[i] == before[i];
    } else if now.requestedModel != "" {
      assert FirstRequest(after, n);
    }
    if batch.hint.Some? {
      var i :| FirstHint(env, turn, calls, seen, n, i) && batch.hint == Some(FailureHint(calls[i].name, before[i].output));
      assert FirstHint(env, turn, calls, seen, m, i) && after[i] == before[i];
    } else if now.hint.Some? {
      assert FirstHint(env, turn, calls, seen, m, n);
    }
    assert now.changed ==> exists i :: 0 <= i < m && after[i].changed by {
      if batch.changed {
        var i :| 0 <= i < n && before[i].changed;
        assert after[i].changed;
      } else {
        assert after[n] == r;
      }
    }
    forall i | 0 <= i < m && after[i].changed ensures now.changed {
      assert i < n ==> before[i].changed;
    }
  }

  /** The tool batch of a turn: every advertised call gets its answer, in order, whether the
      batch runs to its end or is cut short by an abort, a review or the failure guard; and it stops
      exactly at the first result that ends it. */
  method RunToolBatch(env: Env, guards: GuardState, turn: nat, ms: seq<Message>, text: string, calls: seq<ToolCall>)
    returns (ms': seq<Message>, batch: Batch, halt: Option<Halt>, executed: nat)
    requires WellFormed(ms) && guards.FailuresTold()
    modifies guards`toolFailures, guards`seen
    ensures guards.FailuresTold()
    ensures WellFormed(ms') && ms <= ms' && OneBlock(ms'[|ms|..])
    ensures BatchBlock(env, turn, text, calls, executed, ms'[|ms|..])
    ensures StopsAt(env, turn, calls, old(guards.seen), executed)
    ensures halt.Some? <==> Halts(env, turn, calls, old(guards.seen), ResultsOf(env, turn, calls, executed))
    ensures halt.Some? ==> HaltTells(env, turn, calls, old(guards.seen), executed, halt.value)
    ensures halt.None? ==> executed == |calls| && batch == BatchOf(env, turn, calls, old(guards.seen), |calls|)
                           && guards.seen == old(guards.seen) + Observed(calls, ResultsOf(env, turn, calls, |calls|))
  {
    hide WellFormed, Streak, Own, GuardState.FailuresTold, Going, BatchAnswered, Halts, StopsAt, GoesTo, Observed, ResultsOf;
    hide OneBlock, BatchBlock, SafeCalls, Hints;
    var safe := HistorySafeToolCalls(env, calls);
    ms' := ms + [AssistantMessage(text, safe)];
    ghost var start, seen := ms', guards.seen;
    batch, halt, executed := Batch(None, "", false), None, 0;
    BatchBegins(env, turn, calls, ms, AssistantMessage(text, safe));
    NothingHalts(env, turn, calls, seen);
    assert seen + [] == seen;
    for index := 0 to |calls|
      invariant Going(env, turn, calls, start, ms', index) && executed == index
      invariant guards.FailuresTold() && halt == None && batch == BatchOf(env, turn, calls, seen, index)
      invariant guards.seen == seen + Observed(calls, ResultsOf(env, turn, calls, index))
      invariant GoesTo(env, turn, calls, seen, index) && (index == |calls| ==> StopsAt(env, turn, calls, seen, index))
    {
      var call := calls[index];
      var result := env.execute(turn, index, call);
      ghost var noted := Noting(batch, call, result, Hints(env, turn, calls, seen, index));
      if batch.requestedModel == "" {
        batch := batch.(requestedModel := result.requestedModel);
      }
      BatchGoesOn(env, turn, calls, start, ms', index);
      BatchJudged(env, turn, calls, seen, index);
      ms', executed := ms' + [ToolMessage(result.output, call.id)], index + 1;
      var injectHint: bool;
      halt, injectHint := Judge(env, guards, turn, index, call.name, result);
      if halt.Some? {
        ms' := CloseBatch(env, turn, calls, start, ms', index + 1);
        BatchIsBlock(env, turn, calls, ms, text, ms', index + 1);
        return;
      }
      if injectHint && batch.hint.None? {
        batch := batch.(hint := Some(FailureHint(call.name, result.output)));
      }
      batch := batch.(changed := batch.changed || result.changed);
      HintsNow(env, turn, calls, seen, index);
      assert batch == noted;
    }
    BatchEnds(env, turn, calls, start, ms');
    BatchIsBlock(env, turn, calls, ms, text, ms', |calls|);
    NotHalted(env, turn, calls, seen, |calls|);
  }

  lemma HintsNow(env: Env, turn: nat, calls: seq<ToolCall>, seen: seq<Observation>, i: nat)
    requires i < |calls|
    ensures Hints(env, turn, calls, seen, i)
      <==> Streak(Own(seen + Observed(calls, ResultsOf(env, turn, calls, i + 1)), calls[i].name)) == 2
  {
  }

  lemma NothingNoted(env: Env, turn: nat, calls: seq<ToolCall>, seen: seq<Observation>)
    ensures BatchTells(env, turn, calls, seen, 0, Batch(None, "", false))
  {
  }

  lemma NotHalted(env: Env, turn: nat, calls: seq<ToolCall>, seen: seq<Observation>, n: nat)
    requires GoesTo(env, turn, calls, seen, n)
    ensures !Halts(env, turn, calls, seen, ResultsOf(env, turn, calls, n))
  {
    hide Halts, ResultsOf;
  }

  // ---- the same batch with read-ahead ----

  /** The world in front of call `i`, when the calls run one by one. */
  function WorldAt<W(!new)>(ex: ReadAhead.Executor<W, Executed>, calls: seq<ToolCall>, w: W, i: nat): W
    requires i <= |calls|
  {
    if i == 0 then w else ex.run(calls[i - 1], WorldAt(ex, calls, w, i - 1)).1
  }

  /** The tools answer as `ex` does when the calls run one by one. */
  ghost predicate AnswersAs<W(!new)>(env: Env, turn: nat, calls: seq<ToolCall>, ex: ReadAhead.Executor<W, Executed>, w: W) {
    forall i :: 0 <= i < |calls| ==> env.execute(turn, i, calls[i]) == ex.run(calls[i], WorldAt(ex, calls, w, i)).0
  }

  function HaltsOn(env: Env, turn: nat, calls: seq<ToolCall>, seen: seq<Observation>): seq<Executed> -> bool {
    results => Halts(env, turn, calls, seen, results)
  }

  lemma {:induction false} SequentialGoesOn<W(!new)>(env: Env, turn: nat, calls: seq<ToolCall>, seen: seq<Observation>,
                                                     ex: ReadAhead.Executor<W, Executed>, w: W, at: nat, n: nat)
    requires AnswersAs(env, turn, calls, ex, w) && StopsAt(env, turn, calls, seen, n)
    requires at <= n && (at < n || n == |calls|)
    ensures ReadAhead.Sequential(ex, calls[at..], WorldAt(ex, calls, w, at), ResultsOf(env, turn, calls, at),
                                 HaltsOn(env, turn, calls, seen))
      == (ResultsOf(env, turn, calls, n), WorldAt(ex, calls, w, n))
    decreases n - at
  {
    hide Halts, ReadAhead.Sequential, ResultsOf, AnswersAs;
    var halts, w', done := HaltsOn(env, turn, calls, seen), WorldAt(ex, calls, w, at), ResultsOf(env, turn, calls, at);
    if at < n {
      var m := at + 1;
      ReadAhead.NextCall(ex, calls, at, w', done, halts);
      ResultsSnoc(env, turn, calls, ex, w, at);
      assert halts(ResultsOf(env, turn, calls, m)) == Halts(env, turn, calls, seen, ResultsOf(env, turn, calls, m));
      if m < n || !Halts(env, turn, calls, seen, ResultsOf(env, turn, calls, m)) {
        SequentialGoesOn(env, turn, calls, seen, ex, w, m, n);
      }
    } else {
      ReadAhead.NoCallsLeft(ex, calls, w', done, halts);
    }
  }

  lemma ResultsSnoc<W(!new)>(env: Env, turn: nat, calls: seq<ToolCall>, ex: ReadAhead.Executor<W, Executed>, w: W, at: nat)
    requires AnswersAs(env, turn, calls, ex, w) && at < |calls|
    ensures var (r, w') := ex.run(calls[at], WorldAt(ex, calls, w, at));
      && ResultsOf(env, turn, calls, at + 1) == ResultsOf(env, turn, calls, at) + [r]
      && WorldAt(ex, calls, w, at + 1) == w'
  {
  }

  /** A batch with read-ahead, which comes to what its calls come to one by one, is this batch: the
      same results, and the same call behind which it stops. */
  lemma ReadAheadIsTheBatch<W(!new)>(env: Env, turn: nat, calls: seq<ToolCall>, seen: seq<Observation>,
                                     ex: ReadAhead.Executor<W, Executed>, w: W, n: nat)
    requires AnswersAs(env, turn, calls, ex, w) && StopsAt(env, turn, calls, seen, n)
    ensures ReadAhead.Sequential(ex, calls, w, [], HaltsOn(env, turn, calls, seen))
      == (ResultsOf(env, turn, calls, n), WorldAt(ex, calls, w, n))
  {
    hide Halts;
    NothingHalts(env, turn, calls, seen);
    assert calls[0..] == calls && ResultsOf(env, turn, calls, 0) == [];
    SequentialGoesOn(env, turn, calls, seen, ex, w, 0, n);
  }
}
