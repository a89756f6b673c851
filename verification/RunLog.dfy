/** What a run records of itself: the steps it took at its history, and the requests it sent. */
module RunLog {
  import opened Basics
  import opened Transcript
  import opened Preserve
  import opened OnePass
  import opened Prune
  import opened Compaction
  import opened Budget
  import opened LongRun
  import opened Guard
  import opened Reconnect
  import opened RunEnv
  import opened ToolBatch

  // ---- histories that can be sent ----

  /** Well formed, and the system prompt is still the first message and the only one of its kind
      at the head. */
  predicate Replayable(prompt: string, ms: seq<Message>) {
    WellFormed(ms) && ms != [] && ms[0] == SystemMessage(prompt) && SystemEnd(ms) == 1 < |ms|
  }

  // ---- the record ----

  /** What a run starts from and works with; `keep` is the number of messages compaction spares. */
  datatype Origin = Origin(env: Env, keep: int, prompt: string, start: seq<Message>)

  /** A request, and the steps that made its history. */
  datatype Request = Request(messages: seq<Message>, trace: seq<Step>)

  datatype Log = Log(trace: seq<Step>, sent: seq<Request>)

  function MessagesOf(requests: seq<Request>): (r: seq<History>)
    ensures |r| == |requests|
  {
    seq(|requests|, i requires 0 <= i < |requests| => requests[i].messages)
  }

  /** The summarizer of some turn made `summary` of these messages. */
  predicate MadeBy(env: Env, turn: nat, site: nat, middle: seq<Message>, summary: string) {
    SummarizeWithFallback(SummarizerAt(env, turn, site), middle, 0).0 == Ok(summary)
  }

  /** One of the texts the loop says on its own: a notice, diagnostics, or self-correction feedback. */
  ghost predicate LoopSays(env: Env, text: string) {
    || (exists n: Notice :: text == env.words(n))
    || (exists k: nat :: text == env.drain(k))
    || (exists k: nat :: text == env.drainFinal(k))
    || (exists k: nat :: text == env.feedback(k))
  }

  /** A model's block, or one message of the loop. */
  ghost predicate Told(env: Env, more: seq<Message>) {
    && OneBlock(more)
    && (more[0].role == Assistant || (more == [UserMessage(more[0].content)] && LoopSays(env, more[0].content)))
  }

  /** What a run may do at the history `live`: append one block, prune, or put what its summarizer
      made of the messages elided in their place. */
  ghost predicate Genuine(o: Origin, live: seq<Message>, step: Step) {
    match step
    case Append(more) => Told(o.env, more)
    case EmptyStale(k) => k == o.keep
    case Summarize(k, summary) =>
      k == o.keep && exists turn, site :: MadeBy(o.env, turn, site, Middle(live, k), summary)
  }

  function LiveAt(o: Origin, trace: seq<Step>): seq<Message> {
    LiveRun(o.env.parsers, o.start, trace)
  }

  /** These steps, each of them one the run may take, made `ms` of the start. */
  ghost predicate Traced(o: Origin, trace: seq<Step>, ms: seq<Message>) {
    && LiveAt(o, trace) == ms && Replayable(o.prompt, ms)
    && forall i :: 0 <= i < |trace| ==> Genuine(o, LiveAt(o, trace[..i]), trace[i])
  }

  /** The steps taken so far made `ms`, and every request was made by the first of them. */
  ghost predicate Standing(o: Origin, log: Log, ms: seq<Message>) {
    && Traced(o, log.trace, ms)
    && forall i :: 0 <= i < |log.sent| ==>
         log.sent[i].trace <= log.trace && Traced(o, log.sent[i].trace, log.sent[i].messages)
  }

  function Took(log: Log, step: Step): Log {
    log.(trace := log.trace + [step])
  }

  function Sent(log: Log, ms: seq<Message>): Log {
    log.(sent := log.sent + [Request(ms, log.trace)])
  }

  lemma TraceSnoc(o: Origin, trace: seq<Step>, ms: seq<Message>, step: Step)
    requires Traced(o, trace, ms) && Genuine(o, ms, step) && Replayable(o.prompt, LiveAfter(o.env.parsers, ms, step))
    ensures Traced(o, trace + [step], LiveAfter(o.env.parsers, ms, step))
  {
    hide Genuine, Replayable, LiveAfter, LiveRun;
    var more := trace + [step];
    LiveRunSnoc(o.env.parsers, o.start, trace, step);
    forall i | 0 <= i < |more| ensures Genuine(o, LiveAt(o, more[..i]), more[i]) {
      assert more[..i] == trace[..i];
      assert i == |trace| ==> trace[..i] == trace;
    }
  }

  lemma StepStands(o: Origin, log: Log, ms: seq<Message>, step: Step)
    requires Standing(o, log, ms) && Genuine(o, ms, step) && Replayable(o.prompt, LiveAfter(o.env.parsers, ms, step))
    ensures Standing(o, Took(log, step), LiveAfter(o.env.parsers, ms, step))
  {
    hide Genuine, Replayable, LiveAfter, LiveRun, Traced;
    TraceSnoc(o, log.trace, ms, step);
  }

  lemma RequestStands(o: Origin, log: Log, ms: seq<Message>)
    requires Standing(o, log, ms)
    ensures Standing(o, Sent(log, ms), ms)
    ensures MessagesOf(Sent(log, ms).sent) == MessagesOf(log.sent) + [ms]
  {
    hide Traced;
  }

  lemma Seeded(o: Origin, m: Message)
    requires m.role == User && m.toolCalls == [] && o.start == [SystemMessage(o.prompt), m]
    ensures Standing(o, Log([], []), o.start)
  {
    var ms := o.start;
    assert ms[1..] == [m] && [m][1..] == [];
    assert WellFormed([m]);
    assert SystemEnd([m]) == 0;
  }

  lemma Replays(o: Origin, log: Log, ms: seq<Message>)
    requires Standing(o, log, ms)
    ensures Replayable(o.prompt, ms) && WellFormed(ms)
  {
    hide WellFormed, SystemEnd;
  }

  // ---- the steps of a run ----

  /** Nothing was appended behind `trace`: the history was pruned or compacted, or left alone. */
  predicate Shrunk(trace: seq<Step>, more: seq<Step>) {
    trace <= more && forall k :: |trace| <= k < |more| ==> !more[k].Append?
  }

  lemma ShrunkTwice(a: seq<Step>, b: seq<Step>, c: seq<Step>)
    requires Shrunk(a, b) && Shrunk(b, c)
    ensures Shrunk(a, c)
  {
  }

  lemma KeptReplays(prompt: string, ms: seq<Message>, out: seq<Message>)
    requires Replayable(prompt, ms) && Kept(ms, out)
    ensures Replayable(prompt, out)
  {
    hide WellFormed, SystemEnd;
    assert ms[..1][0] == ms[0] && out[..1][0] == out[0];
  }

  /** The pruning pass as far as it changes anything. */
  function BaseSteps(ms: seq<Message>, keep: int): seq<Step> {
    if Reclaimed(ms, keep) > 0 then [EmptyStale(keep)] else []
  }

  lemma BaseStands(o: Origin, log: Log, ms: seq<Message>)
    requires Standing(o, log, ms)
    ensures Standing(o, log.(trace := log.trace + BaseSteps(ms, o.keep)), Base(ms, o.keep))
    ensures Shrunk(log.trace, log.trace + BaseSteps(ms, o.keep))
  {
    hide Standing, Pruned, Kept, Reclaimed, Replayable;
    Replays(o, log, ms);
    if Reclaimed(ms, o.keep) > 0 {
      PruneKeeps(ms, o.keep);
      KeptReplays(o.prompt, ms, Pruned(ms, o.keep));
      StepStands(o, log, ms, EmptyStale(o.keep));
    } else {
      assert log.trace + [] == log.trace;
    }
  }

  /** The compaction, if anything is old enough. */
  function CompactSteps(s: Summarizer, ms: seq<Message>, keep: int): seq<Step> {
    if Middle(ms, keep) == [] then []
    else
      match SummarizeWithFallback(s, Middle(ms, keep), 0).0
      case Ok(summary) => [Summarize(keep, summary)]
      case Err(_) => []
  }

  lemma CompactStands(o: Origin, log: Log, turn: nat, site: nat, ms: seq<Message>, out: seq<Message>)
    requires Standing(o, log, ms)
    requires AfterCompact(o.env.parsers, SummarizerAt(o.env, turn, site), ms, o.keep) == Ok(out)
    ensures Standing(o, log.(trace := log.trace + CompactSteps(SummarizerAt(o.env, turn, site), ms, o.keep)), out)
    ensures Shrunk(log.trace, log.trace + CompactSteps(SummarizerAt(o.env, turn, site), ms, o.keep))
  {
    hide Standing, Kept, Spliced, Middle, SummarizeWithFallback, Replayable;
    var s := SummarizerAt(o.env, turn, site);
    if Middle(ms, o.keep) == [] {
      assert log.trace + [] == log.trace;
    } else {
      var summary := SummarizeWithFallback(s, Middle(ms, o.keep), 0).0.value;
      CompactKeeps(o.env.parsers, s, ms, o.keep);
      Replays(o, log, ms);
      KeptReplays(o.prompt, ms, out);
      assert MadeBy(o.env, turn, site, Middle(ms, o.keep), summary);
      StepStands(o, log, ms, Summarize(o.keep, summary));
    }
  }

  /** What maybeCompact did to get from `ms` to `out`. */
  function CompactionSteps(o: Origin, turn: nat, site: nat, ms: seq<Message>, out: seq<Message>): seq<Step> {
    var base := Base(ms, o.keep);
    if out == ms then []
    else BaseSteps(ms, o.keep)
         + if out == base then [] else CompactSteps(SummarizerAt(o.env, turn, site), base, o.keep)
  }

  lemma CompactionStands(o: Origin, log: Log, turn: nat, site: nat, ms: seq<Message>, out: seq<Message>)
    requires Standing(o, log, ms)
    requires out == ms || out == Base(ms, o.keep)
             || Ok(out) == AfterCompact(o.env.parsers, SummarizerAt(o.env, turn, site), Base(ms, o.keep), o.keep)
    ensures Standing(o, log.(trace := log.trace + CompactionSteps(o, turn, site, ms, out)), out)
    ensures Shrunk(log.trace, log.trace + CompactionSteps(o, turn, site, ms, out))
  {
    hide Standing, Base, BaseSteps, CompactSteps, AfterCompact;
    var base, first, summarizer := Base(ms, o.keep), BaseSteps(ms, o.keep), SummarizerAt(o.env, turn, site);
    if out == ms {
      assert log.trace + [] == log.trace;
    } else {
      BaseStands(o, log, ms);
      if out == base {
        assert log.trace + (first + []) == log.trace + first;
      } else {
        CompactStands(o, log.(trace := log.trace + first), turn, site, base, out);
        assert log.trace + (first + CompactSteps(summarizer, base, o.keep))
            == log.trace + first + CompactSteps(summarizer, base, o.keep);
      }
    }
  }

  lemma ToldReplays(o: Origin, trace: seq<Step>, ms: seq<Message>, more: seq<Message>)
    requires Traced(o, trace, ms) && Told(o.env, more)
    ensures Traced(o, trace + [Append(more)], ms + more)
  {
    hide WellFormed, SystemEnd, LiveRun, LoopSays;
    ConcatWellFormed(ms, more);
    SystemEndKept(ms, more);
    TraceSnoc(o, trace, ms, Append(more));
  }

  function UserStep(text: string): Step {
    Append([UserMessage(text)])
  }

  /** The loop says something. */
  lemma UserTaken(o: Origin, log: Log, ms: seq<Message>, text: string)
    requires Standing(o, log, ms) && LoopSays(o.env, text)
    ensures Standing(o, Took(log, UserStep(text)), ms + [UserMessage(text)])
  {
    hide Traced, LoopSays;
    var m := UserMessage(text);
    assert [m][1..] == [];
    assert WellFormed([m]);
    ToldReplays(o, log.trace, ms, [m]);
  }

  lemma NoticeSaid(env: Env, n: Notice)
    ensures LoopSays(env, env.words(n))
  {
  }

  lemma DiagnosticsSaid(env: Env, k: nat)
    ensures LoopSays(env, env.drain(k)) && LoopSays(env, env.drainFinal(k)) && LoopSays(env, env.feedback(k))
  {
  }

  /** A model says something, and its calls are answered. */
  lemma ModelBlockTaken(o: Origin, log: Log, ms: seq<Message>, block: seq<Message>)
    requires Standing(o, log, ms) && OneBlock(block) && block[0].role == Assistant
    ensures Standing(o, Took(log, Append(block)), ms + block)
  {
    hide Traced, OneBlock;
    ToldReplays(o, log.trace, ms, block);
  }

  lemma TextIsBlock(text: string)
    ensures OneBlock([AssistantMessage(text, [])])
  {
    var m := AssistantMessage(text, []);
    assert [m][1..] == [];
  }

  // ---- what the record says of the carried state ----

  lemma TraceLives(o: Origin, trace: seq<Step>, ms: seq<Message>)
    requires Traced(o, trace, ms)
    ensures LiveRun(o.env.parsers, o.start, trace) == ms
  {
    hide LiveRun, Replayable, Genuine;
  }

  /** A history is accounted for by the very steps the run took, if they are admissible. */
  lemma TraceAccounts(o: Origin, trace: seq<Step>, ms: seq<Message>)
    requires Sound(o.env.parsers) && WellFormed(o.start) && NoSummary(o.start) && Traced(o, trace, ms)
    requires AllAdmissible(o.env.parsers, Held(o.start, []), trace)
    ensures AccountedFor(o.env.parsers, o.start, trace, ms)
  {
    hide Sound, WellFormed, NoSummary, Traced, AllAdmissible, AccountedFor, LiveRun;
    TraceLives(o, trace, ms);
    RunIsAccountedFor(o.env.parsers, o.start, trace);
  }

  /** With an id of its own for every call it is, unless an appended message poses as a summary or a
      new summary could not be read back. */
  lemma DistinctCallsAccount(o: Origin, trace: seq<Step>, ms: seq<Message>)
    requires Sound(o.env.parsers) && WellFormed(o.start) && NoSummary(o.start) && Traced(o, trace, ms)
    requires DistinctIds(Calls(o.start + Appended(trace)))
    requires AllAcceptable(o.env.parsers, Held(o.start, []), trace)
    ensures AccountedFor(o.env.parsers, o.start, trace, ms)
  {
    hide Sound, WellFormed, NoSummary, Traced, AllAdmissible, AccountedFor, LiveRun, AllAcceptable, DistinctIds,
         Appended;
    DistinctIdsSuffice(o.env.parsers, o.start, trace);
    TraceAccounts(o, trace, ms);
  }
}
