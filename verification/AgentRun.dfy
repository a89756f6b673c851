/** The turn loop (loop.go): one model call and one batch of tool calls per turn, with all the
    ways out. The provider, the tools and every text test are oracles that answer anything. */
module AgentRun {
  import opened Basics
  import opened Transcript
  import opened Preserve
  import opened OnePass
  import opened Merge
  import opened Prune
  import opened Compaction
  import opened Tokens
  import opened Budget
  import opened LongRun
  import opened Guard
  import opened Reconnect
  import opened RunEnv
  import opened ToolBatch
  import opened RunLog
  import opened ModelCall
  import opened Course

  // ---- the rest of a turn ----

  ghost function PaceAt(guards: GuardState, nudges: nat, accepted: bool): Pace
    reads guards
  {
    Pace(nudges, accepted, guards.toolOnlyReminderSent, guards.staleReminderSent, guards.notCalledReminderSent)
  }

  ghost function KnownAt(guards: GuardState, turn: nat, nudges: nat, accepted: bool): Known
    reads guards
  {
    Known(turn, guards.seen, guards.turns, PaceAt(guards, nudges, accepted))
  }

  method Say(ghost o: Origin, ms: seq<Message>, when: bool, text: string, ghost log: Log)
    returns (ms': seq<Message>, ghost log': Log)
    requires Standing(o, log, ms) && (when ==> LoopSays(o.env, text))
    ensures ms' == ms + Pushed(when, text) && Standing(o, log', ms')
    ensures log'.sent == log.sent && log'.trace == log.trace + UserSteps(Pushed(when, text))
  {
    hide Standing, LoopSays;
    ms', log' := ms, log;
    if when {
      UserTaken(o, log, ms, text);
      ms', log' := ms + [UserMessage(text)], Took(log, UserStep(text));
      assert UserSteps([UserMessage(text)]) == [UserStep(text)];
    }
  }

  /** The completion gate: an admitted failure, a text that ends in mid-step, open plan items, and one
      acceptance nudge. */
  method Gate(env: Env, options: Options, text: string, pending: bool, nudges: nat, accepted: bool)
    returns (asked: Option<Notice>, halt: Option<Halt>, nudges': nat, accepted': bool)
    ensures Gated(env, options, text, pending, nudges, accepted, asked, halt, nudges', accepted')
  {
    asked, halt, nudges', accepted' := None, None, nudges, accepted;
    if options.requireCompletion {
      if env.admits(text) {
        halt := Some(Halt(Incomplete, text));
        return;
      }
      var cue := env.midStep(text);
      if cue || pending {
        if nudges < MAX_CONTINUE_NUDGES {
          return Some(if cue then MidStep else PlanOpen), None, nudges + 1, accepted;
        }
        if cue {
          halt := Some(Halt(Incomplete, text));
          return;
        }
      }
      if options.selfCorrect && !accepted {
        asked, accepted' := Some(Acceptance), true;
      }
    }
  }

  predicate Gated(env: Env, options: Options, text: string, pending: bool, nudges: nat, accepted: bool,
                  asked: Option<Notice>, halt: Option<Halt>, nudges': nat, accepted': bool) {
    var cue := env.midStep(text);
    if !options.requireCompletion then asked.None? && halt.None? && nudges' == nudges && accepted' == accepted
    else if env.admits(text) || (cue && nudges >= MAX_CONTINUE_NUDGES) then
      asked.None? && halt == Some(Halt(Incomplete, text)) && nudges' == nudges && accepted' == accepted
    else if (cue || pending) && nudges < MAX_CONTINUE_NUDGES then
      asked == Some(if cue then MidStep else PlanOpen) && halt.None? && nudges' == nudges + 1 && accepted' == accepted
    else if options.selfCorrect && !accepted then
      asked == Some(Acceptance) && halt.None? && nudges' == nudges && accepted'
    else asked.None? && halt.None? && nudges' == nudges && accepted' == accepted
  }

  /** The gate is the middle of the verdict. */
  lemma GatedIsJudged(env: Env, options: Options, k: Known, c: Collected, asked: Option<Notice>, halt: Option<Halt>,
                      nudges': nat, accepted': bool)
    requires c.dropped == 0 && Trailing(TurnsWith(k, c), Empty) < MAX_EMPTY_TURNS && Visible(c.text)
    requires Gated(env, options, c.text, OpenItems(env.remaining, AllCalls(TurnsWith(k, c))) > 0, k.pace.nudges,
                   k.pace.accepted, asked, halt, nudges', accepted')
    ensures var verdict := Judged(env, options, k, c);
      && verdict == (if halt.Some? then Stop(halt.value) else if asked.Some? then Ask(asked.value)
                     else if env.drainFinal(k.turn) != "" then Show(env.drainFinal(k.turn))
                     else Stop(Halt(Answered, c.text)))
      && Asking(k.pace, verdict) == k.pace.(nudges := nudges', accepted := accepted')
  {
    hide Trailing, OpenItems, AllCalls, Visible, TurnsWith;
  }

  lemma JudgedEarly(env: Env, options: Options, k: Known, c: Collected)
    ensures var verdict, empty := Judged(env, options, k, c), Trailing(TurnsWith(k, c), Empty) >= MAX_EMPTY_TURNS;
      && (c.dropped > 0 ==> verdict == Ask(DroppedCall))
      && (c.dropped == 0 && empty ==> verdict == Stop(Halt(NoOutputHalt, env.words(NoOutputStop(k.turn + 1)))))
      && (c.dropped == 0 && !empty && !Visible(c.text) ==> verdict == Ask(NoOutput))
  {
    hide Trailing, OpenItems, AllCalls, Visible, TurnsWith;
  }

  /** What becomes of a turn without tool calls: a nudge and another turn, or the end. */
  method JudgeAnswer(env: Env, options: Options, guards: GuardState, turn: nat, collected: Collected, nudges: nat,
                     accepted: bool)
    returns (nudge: string, halt: Option<Halt>, nudges': nat, accepted': bool)
    requires guards.remaining == env.remaining && collected.calls == [] && guards.TurnsTold()
    modifies guards`emptyTurns, guards`totalToolCalls, guards`toolCallsSincePlanUpdate, guards`turnsSincePlanUpdate
    modifies guards`planEverCalled, guards`staleReminderSent, guards`toolOnlyTurns, guards`toolOnlyReminderSent
    modifies guards`planItemsPending, guards`turns
    ensures guards.TurnsTold() && (halt.None? ==> LoopSays(env, nudge))
    ensures
      var k := old(KnownAt(guards, turn, nudges, accepted));
      var verdict := Judged(env, options, k, collected);
      && (verdict.Stop? ==> halt == Some(verdict.halt))
      && (!verdict.Stop? ==> halt == None && Spoken(env, verdict) == [UserMessage(nudge)])
      && KnownAt(guards, turn + 1, nudges', accepted') == KnownBehind(env, options, k, collected)
  {
    hide GuardState.TurnsTold, Visible, Trailing, OpenItems, LoopSays, AllCalls, Is, Plans, Judged, Gated;
    ghost var k := KnownAt(guards, turn, nudges, accepted);
    JudgedEarly(env, options, k, collected);
    nudges', accepted', halt, nudge := nudges, accepted, None, "";
    if collected.dropped > 0 {
      NoticeSaid(env, DroppedCall);
      nudge := env.words(DroppedCall);
      return;
    }
    var stop := guards.ObserveTurn(AsTurn(collected));
    PendingIs(guards);
    assert guards.turns == TurnsWith(k, collected);
    if stop {
      halt := Some(Halt(NoOutputHalt, env.words(NoOutputStop(turn + 1))));
      return;
    }
    if !Visible(collected.text) {
      NoticeSaid(env, NoOutput);
      nudge := env.words(NoOutput);
      return;
    }
    var asked: Option<Notice>;
    asked, halt, nudges', accepted' := Gate(env, options, collected.text, guards.planItemsPending > 0, nudges,
                                            accepted);
    GatedIsJudged(env, options, k, collected, asked, halt, nudges', accepted');
    if halt.None? {
      if asked.Some? {
        NoticeSaid(env, asked.value);
        nudge := env.words(asked.value);
      } else {
        DiagnosticsSaid(env, turn);
        nudge := env.drainFinal(turn);
        halt := if nudge == "" then Some(Halt(Answered, collected.text)) else None;
      }
    }
  }

  /** A turn without tool calls. */
  method AnswerWithoutCalls(env: Env, options: Options, guards: GuardState, ghost o: Origin, turn: nat,
                            ms: seq<Message>, collected: Collected, nudges: nat, accepted: bool, ghost log: Log)
    returns (ms': seq<Message>, halt: Option<Halt>, nudges': nat, accepted': bool, ghost log': Log)
    requires o.env == env && guards.remaining == env.remaining
    requires Standing(o, log, ms) && collected.calls == [] && guards.TurnsTold()
    modifies guards`emptyTurns, guards`totalToolCalls, guards`toolCallsSincePlanUpdate, guards`turnsSincePlanUpdate
    modifies guards`planEverCalled, guards`staleReminderSent, guards`toolOnlyTurns, guards`toolOnlyReminderSent
    modifies guards`planItemsPending, guards`turns
    ensures guards.TurnsTold() && Standing(o, log', ms')
    ensures
      var k := old(KnownAt(guards, turn, nudges, accepted));
      var said := SaidBehind(env, options, k, collected);
      && ms' == ms + said && log'.sent == log.sent && log'.trace == log.trace + UserSteps(said)
      && halt == HaltOf(Judged(env, options, k, collected))
      && KnownAt(guards, turn + 1, nudges', accepted') == KnownBehind(env, options, k, collected)
  {
    hide Standing, GuardState.TurnsTold, LoopSays, Judged, KnownBehind, UserSteps;
    var nudge: string;
    nudge, halt, nudges', accepted' := JudgeAnswer(env, options, guards, turn, collected, nudges, accepted);
    NoSteps(log.trace);
    ms', log' := Say(o, ms, halt.None?, nudge, log);
  }

  function HaltOf(verdict: Verdict): Option<Halt> {
    match verdict
    case Stop(halt) => Some(halt)
    case _ => None
  }

  lemma NoSteps(trace: seq<Step>)
    ensures trace + UserSteps([]) == trace
  {
  }

  lemma PendingIs(guards: GuardState)
    requires guards.TurnsTold()
    ensures guards.planItemsPending == OpenItems(guards.remaining, AllCalls(guards.turns))
  {
  }

  method Remark(env: Env, options: Options, ghost o: Origin, turn: nat, ms: seq<Message>, batch: Batch, dropped: nat,
                ghost log: Log)
    returns (ms': seq<Message>, ghost log': Log)
    requires o.env == env && Standing(o, log, ms)
    ensures var remarks := Remarks(env, options, turn, batch, dropped);
      && ms' == ms + remarks && Standing(o, log', ms') && log'.sent == log.sent
      && log'.trace == log.trace + UserSteps(remarks)
  {
    hide Standing, LoopSays, UserSteps, Pushed;
    DiagnosticsSaid(env, turn);
    NoticeSaid(env, SwitchFailed(batch.requestedModel));
    NoticeSaid(env, DroppedCall);
    var feeds := options.selfCorrect && batch.changed && env.feedback(turn) != "";
    var switch := batch.requestedModel != "" && options.switcher && env.switchFails(turn, batch.requestedModel);
    var fed, switched: seq<Message>;
    fed, log' := Say(o, ms, feeds, env.feedback(turn), log);
    switched, log' := Say(o, fed, switch, env.words(SwitchFailed(batch.requestedModel)), log');
    ms', log' := Say(o, switched, dropped > 0, env.words(DroppedCall), log');
    ThreeRemarks(Pushed(feeds, env.feedback(turn)), Pushed(switch, env.words(SwitchFailed(batch.requestedModel))),
                 Pushed(dropped > 0, env.words(DroppedCall)), ms, log.trace);
  }

  lemma ThreeRemarks(a: seq<Message>, b: seq<Message>, c: seq<Message>, ms: seq<Message>, trace: seq<Step>)
    ensures ms + a + b + c == ms + (a + b + c)
    ensures trace + UserSteps(a) + UserSteps(b) + UserSteps(c) == trace + UserSteps(a + b + c)
  {
    hide UserSteps;
    UserStepsConcat(a, b);
    UserStepsConcat(a + b, c);
  }

  /** The progress reminder, or else that of the plan. */
  method Remember(env: Env, guards: GuardState, turn: nat, ghost nudges: nat, ghost accepted: bool)
    returns (reminder: Reminder)
    requires guards.remaining == env.remaining && guards.TurnsTold()
    modifies guards`toolOnlyReminderSent, guards`staleReminderSent, guards`notCalledReminderSent
    ensures guards.TurnsTold()
    ensures var told := old(PaceAt(guards, nudges, accepted));
      && reminder == Reminding(env, guards.turns, turn, told)
      && PaceAt(guards, nudges, accepted) == Telling(told, reminder)
  {
    hide GuardState.TurnsTold, Trailing, SincePlan, OpenItems, AllCalls, Plans;
    reminder := guards.ProgressReminder();
    if reminder.NoReminder? {
      reminder := guards.PlanReminder(turn + 1);
    }
  }

  /** The user messages behind a completed batch, all of them behind its last tool result: the
      remarks, and then one hint, or one reminder, or neither. */
  method AfterBatch(env: Env, options: Options, guards: GuardState, ghost o: Origin, turn: nat,
                    ms: seq<Message>, batch: Batch, dropped: nat, ghost nudges: nat, ghost accepted: bool,
                    ghost log: Log)
    returns (ms': seq<Message>, ghost log': Log)
    requires o.env == env && guards.remaining == env.remaining
    requires Standing(o, log, ms) && guards.TurnsTold()
    modifies guards`toolOnlyReminderSent, guards`staleReminderSent, guards`notCalledReminderSent
    ensures guards.TurnsTold() && Standing(o, log', ms')
    ensures
      var told := old(PaceAt(guards, nudges, accepted));
      var reminder := if batch.hint.Some? then NoReminder else Reminding(env, guards.turns, turn, told);
      var said := Remarks(env, options, turn, batch, dropped) + Prompt(env, batch.hint, reminder);
      && ms' == ms + said && log'.sent == log.sent && log'.trace == log.trace + UserSteps(said)
      && PaceAt(guards, nudges, accepted) == Telling(told, reminder)
  {
    hide Standing, GuardState.TurnsTold, Remarks, LoopSays, UserSteps, Reminding;
    var told: seq<Message>;
    told, log' := Remark(env, options, o, turn, ms, batch, dropped, log);
    ghost var remarks := Remarks(env, options, turn, batch, dropped);
    var notice, reminder := batch.hint, NoReminder;
    if notice.None? {
      reminder := Remember(env, guards, turn, nudges, accepted);
      if !reminder.NoReminder? {
        notice := Some(Remind(reminder));
      }
    }
    if notice.Some? {
      NoticeSaid(env, notice.value);
    }
    ms', log' := Say(o, told, notice.Some?, if notice.Some? then env.words(notice.value) else "", log');
    UserStepsConcat(remarks, Prompt(env, batch.hint, reminder));
  }

  /** The closing question, and the request it is asked by. */
  ghost function Closing(env: Env, log: Log, ms: seq<Message>): Request {
    var ask := env.words(LastPrompt);
    Request(ms + [UserMessage(ask)], log.trace + [UserStep(ask)])
  }

  /** finalAnswerAfterMaxTurns: one more call without tools; "" when nothing came of it, and then the
      question is dropped as well. */
  method FinalAnswerAfterMaxTurns(env: Env, ghost o: Origin, turns: nat, ms: seq<Message>, connects: nat,
                                  ghost log: Log)
    returns (answer: string, ms': seq<Message>, connects': nat, ghost log': Log)
    requires o.env == env && Standing(o, log, ms)
    ensures Standing(o, log', ms')
    ensures Traced(o, Closing(env, log, ms).trace, Closing(env, log, ms).messages)
    ensures
      var (r, n) := Streaming(env.classifier, env.link, connects, MAX_RECONNECTS);
      && connects' == n
      && if Closed(env, turns, r)
         then answer == r.value.text != "" && ms' == Closing(env, log, ms).messages + [AssistantMessage(answer, [])]
              && log'.sent == log.sent
              && log'.trace == Closing(env, log, ms).trace + [Append([AssistantMessage(answer, [])])]
         else answer == "" && ms' == ms && log' == log
  {
    hide Standing, Traced, Trim, Retried, LoopSays, OneBlock, Streaming, Streamed;
    NoticeSaid(env, LastPrompt);
    UserTaken(o, log, ms, env.words(LastPrompt));
    var asked := ms + [UserMessage(env.words(LastPrompt))];
    log' := Took(log, UserStep(env.words(LastPrompt)));
    Stands(o, log', asked);
    var r: Result<Collected>;
    r, connects' := StreamWithReconnect(env.classifier, env.link, connects);
    StreamingIsStreamed(env.classifier, env.link, connects, r, connects');
    if r.Err? || !env.alive(turns, 1) || r.value.error != "" || !Visible(r.value.text) {
      return "", ms, connects', log;
    }
    BlankIsInvisible();
    ghost var block := [AssistantMessage(r.value.text, [])];
    TextIsBlock(r.value.text);
    ModelBlockTaken(o, log', asked, block);
    return r.value.text, asked + [AssistantMessage(r.value.text, [])], connects', Took(log', Append(block));
  }

  lemma Stands(o: Origin, log: Log, ms: seq<Message>)
    requires Standing(o, log, ms)
    ensures Traced(o, log.trace, ms)
  {
    hide Traced;
  }

  // ---- the run ----

  // ---- the run ----

  /** What every way out of a run promises. */
  ghost predicate Delivers(prompt: string, options: Options, out: RunResult) {
    && Replayable(prompt, out.messages)
    && out.turns <= Turns(options.maxTurns)
    && (options.contextWindow <= 0 ==>
         out.messages[..2] == [SystemMessage(prompt), Message(User, out.messages[1].content, [], "", options.images)])
    && (out.how.Answered? || out.how.Incomplete? ==>
         out.messages[|out.messages| - 1] == AssistantMessage(out.finalAnswer, []))
    && (out.how.Answered? ==> Visible(out.finalAnswer))
    && (out.how.Incomplete? ==> options.requireCompletion)
    && (out.how.OutOfTurns? ==> out.turns == Turns(options.maxTurns))
  }

  lemma StartKept(prompt: string, m: Message, ms: seq<Message>, images: nat)
    requires [SystemMessage(prompt), m] <= ms && m == Message(User, m.content, [], "", images)
    ensures |ms| >= 2 && ms[..2] == [SystemMessage(prompt), Message(User, ms[1].content, [], "", images)]
  {
    assert ms[..2] == [SystemMessage(prompt), m];
    assert ms[1] == m;
  }

  /** What is known between two turns. */
  ghost predicate Between(o: Origin, enabled: bool, ms: seq<Message>, log: Log) {
    Standing(o, log, ms) && (!enabled ==> o.start <= ms)
  }

  /** A turn down to the model's answer: late diagnostics, proactive compaction, the call itself. */
  method OpenTurnBy(env: Env, compactor: CompactionState, ghost o: Origin, turn: nat,
                    start: seq<Message>, connects: nat, ghost log: Log)
    returns (ms: seq<Message>, r: Result<Collected>, connects': nat, ghost log': Log)
    requires o.env == env && compactor.preserveLast == o.keep && Standing(o, log, start) && compactor.Valid()
    modifies compactor`lowWaterMark, compactor`reactiveAttempted, compactor`calibrationRatio
    ensures compactor.Valid() && Standing(o, log', ms) && Opens(env, turn, log.trace, log'.trace)
    ensures Call(ms, r, connects', compactor.Reading(), MessagesOf(log'.sent))
         == Opened(o, turn, start, connects, old(compactor.Reading()), MessagesOf(log.sent))
  {
    hide Standing, Kept, AfterCompact, Size, Base, CompactionSteps, UserSteps, Pushed, Proactive, Called, LoopSays,
         Shrunk;
    hide Sampled;
    DiagnosticsSaid(env, turn);
    ms, log' := Say(o, start, env.drain(turn) != "", env.drain(turn), log);
    ghost var drained := log'.trace;
    var compacted := compactor.MaybeCompact(env.parsers, SummarizerAt(env, turn, 0), ms, env.toolTokens(turn));
    CompactionStands(o, log', turn, 0, ms, compacted);
    log' := log'.(trace := log'.trace + CompactionSteps(o, turn, 0, ms, compacted));
    ghost var steps := log'.trace;
    ms, r, connects', log' := AskModel(env, compactor, o, turn, compacted, connects, log');
    ShrunkTwice(drained, steps, log'.trace);
    if r.Ok? {
      var tokens := EstimateTokens(ms);
      compactor.Calibrate(tokens + env.toolTokens(turn), r.value.inputTokens);
    }
  }

  /** A turn with tool calls: its block, and what is said behind it unless the batch ended the run. */
  method TakeBatch(env: Env, options: Options, guards: GuardState, ghost o: Origin, turn: nat, start: seq<Message>,
                   collected: Collected, ghost nudges: nat, ghost accepted: bool, ghost log: Log)
    returns (ms: seq<Message>, halt: Option<Halt>, ghost log': Log, ghost block: seq<Message>, ghost executed: nat)
    requires o.env == env && guards.remaining == env.remaining && collected.calls != []
    requires Standing(o, log, start) && guards.TurnsTold() && guards.FailuresTold()
    modifies guards
    ensures guards.TurnsTold() && guards.FailuresTold() && Standing(o, log', ms) && start <= ms
    ensures
      var k := old(KnownAt(guards, turn, nudges, accepted));
      && BlockOf(env, k, collected, executed, block)
      && if halt.Some?
         then Halting(env, options, k, collected, executed, halt.value)
              && log'.sent == log.sent && log'.trace == log.trace + [Append(block)]
         else executed == |collected.calls| && GoesOn(env, options, k, collected)
              && log'.sent == log.sent
              && log'.trace == log.trace + [Append(block)] + UserSteps(SaidBehind(env, options, k, collected))
              && KnownAt(guards, turn + 1, nudges, accepted) == KnownBehind(env, options, k, collected)
  {
    hide Standing, WellFormed, GuardState.TurnsTold, GuardState.FailuresTold, Streak, Own, BatchBlock, HaltTells;
    hide OneBlock, BatchAnswered, Halts, StopsAt, Remarks, ResultsOf, Visible, Trailing, Pushed, UserSteps, BatchOf,
         Is, Plans;
    hide Observed, Reminding, GoesTo;
    ghost var k := KnownAt(guards, turn, nudges, accepted);
    var stop := guards.ObserveTurn(AsTurn(collected));
    Replays(o, log, start);
    var batch: Batch;
    ms, batch, halt, executed := RunToolBatch(env, guards, turn, start, collected.text, collected.calls);
    block := ms[|start|..];
    assert ms == start + block;
    BatchHasAnswer(env, turn, collected, executed, block);
    ModelBlockTaken(o, log, start, block);
    log' := Took(log, Append(block));
    StopsWithin(env, k, collected, executed);
    if halt.None? {
      WholeGoesOn(env, k, collected);
      ms, log' := AfterBatch(env, options, guards, o, turn, ms, batch, collected.dropped, nudges, accepted, log');
    }
  }

  /** A turn without calls: its block is the text. */
  method TakeText(env: Env, options: Options, guards: GuardState, ghost o: Origin, turn: nat, start: seq<Message>,
                  collected: Collected, nudges: nat, accepted: bool, ghost log: Log)
    returns (ms: seq<Message>, halt: Option<Halt>, nudges': nat, accepted': bool, ghost log': Log,
             ghost block: seq<Message>)
    requires o.env == env && guards.remaining == env.remaining && collected.calls == []
    requires Standing(o, log, start) && guards.TurnsTold()
    modifies guards`emptyTurns, guards`totalToolCalls, guards`toolCallsSincePlanUpdate, guards`turnsSincePlanUpdate
    modifies guards`planEverCalled, guards`staleReminderSent, guards`toolOnlyTurns, guards`toolOnlyReminderSent
    modifies guards`planItemsPending, guards`turns
    ensures guards.TurnsTold() && Standing(o, log', ms) && start <= ms
    ensures
      var k := old(KnownAt(guards, turn, nudges, accepted));
      && BlockOf(env, k, collected, 0, block)
      && if halt.Some?
         then Halting(env, options, k, collected, 0, halt.value) && log'.sent == log.sent
              && log'.trace == log.trace + [Append(block)]
         else GoesOn(env, options, k, collected)
              && log'.sent == log.sent
              && log'.trace == log.trace + [Append(block)] + UserSteps(SaidBehind(env, options, k, collected))
              && KnownAt(guards, turn + 1, nudges', accepted') == KnownBehind(env, options, k, collected)
  {
    hide Standing, GuardState.TurnsTold, BlockOf, OneBlock, SaidBehind, GoesOn, Judged, Halting, KnownBehind, UserSteps;
    ghost var k := KnownAt(guards, turn, nudges, accepted);
    block := [AssistantMessage(collected.text, [])];
    TextIsBlockOf(env, k, collected);
    TextIsBlock(collected.text);
    ModelBlockTaken(o, log, start, block);
    ms, log' := start + [AssistantMessage(collected.text, [])], Took(log, Append(block));
    VerdictGoes(env, options, k, collected);
    NoSteps(log'.trace);
    ms, halt, nudges', accepted', log' :=
      AnswerWithoutCalls(env, options, guards, o, turn, ms, collected, nudges, accepted, log');
  }

  lemma BatchHasAnswer(env: Env, turn: nat, c: Collected, executed: nat, block: seq<Message>)
    requires BatchBlock(env, turn, c.text, c.calls, executed, block)
    ensures block != [] && block[0].role == Assistant
  {
  }

  lemma StopsWithin(env: Env, k: Known, c: Collected, executed: nat)
    requires StopsAt(env, k.turn, c.calls, k.seen, executed)
    ensures executed <= |c.calls|
  {
    hide Halts;
  }

  lemma WholeGoesOn(env: Env, k: Known, c: Collected)
    requires StopsAt(env, k.turn, c.calls, k.seen, |c.calls|)
    requires !Halts(env, k.turn, c.calls, k.seen, ResultsOf(env, k.turn, c.calls, |c.calls|))
    ensures GoesTo(env, k.turn, c.calls, k.seen, |c.calls|)
  {
    hide Halts, ResultsOf;
  }

  lemma VerdictGoes(env: Env, options: Options, k: Known, c: Collected)
    requires c.calls == []
    ensures match HaltOf(Judged(env, options, k, c))
      case None => GoesOn(env, options, k, c)
      case Some(halt) => Halting(env, options, k, c, 0, halt) && SaidBehind(env, options, k, c) == []
  {
    hide Judged;
  }

  /** One pass of the turn loop. */
  method TakeTurn(env: Env, options: Options, compactor: CompactionState, guards: GuardState, ghost o: Origin,
                  turn: nat, start: seq<Message>, connects: nat, ghost log: Log,
                  nudges: nat, accepted: bool, ghost answers: seq<Answer>)
    returns (ms: seq<Message>, halt: Option<Halt>, connects': nat, ghost log': Log,
             nudges': nat, accepted': bool, ghost answers': seq<Answer>)
    requires o.env == env && guards.remaining == env.remaining && turn < Turns(options.maxTurns)
    requires compactor.preserveLast == o.keep && Between(o, compactor.enabled, start, log)
    requires compactor.Valid() && guards.TurnsTold() && guards.FailuresTold()
    requires OnCourse(o, options, log.trace, answers, KnownAt(guards, turn, nudges, accepted), connects,
                      compactor.Reading(), MessagesOf(log.sent))
    modifies compactor`lowWaterMark, compactor`reactiveAttempted, compactor`calibrationRatio, guards
    ensures compactor.Valid() && guards.TurnsTold() && guards.FailuresTold()
    ensures Between(o, compactor.enabled, ms, log')
    ensures connects' + Spent(old(compactor.reactiveAttempted)) <= connects + 10 + Spent(compactor.reactiveAttempted)
    ensures halt.None? ==>
      OnCourse(o, options, log'.trace, answers', KnownAt(guards, turn + 1, nudges', accepted'), connects',
               compactor.Reading(), MessagesOf(log'.sent))
    ensures halt.Some? ==>
      Ends(o, options, log'.trace, answers', MessagesOf(log'.sent),
           RunResult(ms, halt.value.answer, turn + 1, halt.value.how))
  {
    hide Standing, GuardState.TurnsTold, GuardState.FailuresTold, Visible, Opened, KnownBehind, SaidBehind, GoesOn,
         Judged;
    hide Halting, Spent, OnCourse, UserSteps, BlockOf, Halts, HaltTells, ResultsOf, Opens, Ends, Sourced;
    ms, nudges', accepted', log', connects', halt, answers' := start, nudges, accepted, log, connects, None, answers;
    ghost var k, gauge, sent := KnownAt(guards, turn, nudges, accepted), compactor.Reading(), MessagesOf(log.sent);
    var r: Result<Collected>;
    ms, r, connects', log' := OpenTurnBy(env, compactor, o, turn, start, connects, log);
    OpenedIsSourced(o, turn, start, connects, gauge, sent);
    OpenedKeepsStart(o, turn, start, connects, gauge, sent);
    if r.Err? {
      halt := Some(Halt(Failed(r.error), ""));
      CallEnds(o, options, log, start, log', ms, answers, k, connects, gauge, sent);
      return;
    }
    LastConnect(o, turn, connects, ms, r, connects', compactor.Reading(), MessagesOf(log'.sent));
    ghost var opening, before := log', ms;
    var collected := r.value;
    ghost var a := Answer(connects' - 1, |log.trace|, |log'.trace|, compactor.Reading(), MessagesOf(log'.sent));
    answers' := answers + [a];
    ghost var block, executed;
    if collected.calls == [] {
      executed := 0;
      ms, halt, nudges', accepted', log', block :=
        TakeText(env, options, guards, o, turn, ms, collected, nudges, accepted, log');
    } else {
      ms, halt, log', block, executed := TakeBatch(env, options, guards, o, turn, ms, collected, nudges, accepted,
                                                   log');
    }
    if halt.None? {
      TurnGoesOn(o, options, log, start, opening, before, answers, k, connects, gauge, sent, a, collected, block);
    } else {
      assert log'.trace == opening.trace + [Append(block)];
      TurnEnds(o, options, log, start, opening, before, answers, k, connects, gauge, sent, a, collected, block,
               executed, log', ms,
               halt.value);
    }
  }

  function Opening(env: Env, options: Options, prompt: string, systemPrompt: string): Origin {
    Origin(env, options.preserveLast, systemPrompt,
           [SystemMessage(systemPrompt), Message(User, prompt, [], "", options.images)])
  }

  /** The record behind a result: its steps made the messages, and every request was made by the
      first of them; the closing question has a record of its own, as it is dropped if it came to nothing. */
  ghost predicate Recorded(o: Origin, log: Log, closing: Option<Request>, out: RunResult) {
    Standing(o, log, out.messages) && (closing.Some? ==> Traced(o, closing.value.trace, closing.value.messages))
  }

  /** The histories sent in a run. */
  function SentBy(log: Log, closing: Option<Request>): seq<History> {
    MessagesOf(log.sent) + if closing.Some? then [closing.value.messages] else []
  }

  lemma NoQuestion(log: Log)
    ensures SentBy(log, None) == MessagesOf(log.sent)
  {
  }

  /** The way out behind the last turn. */
  method RunOut(env: Env, options: Options, ghost o: Origin, maxTurns: nat, messages: seq<Message>, connects: nat,
                ghost log: Log, ghost answers: seq<Answer>, ghost k: Known, ghost gauge: Gauge)
    returns (out: RunResult, connects': nat, ghost log': Log, ghost closing: Option<Request>)
    requires o.env == env && Between(o, options.contextWindow > 0, messages, log) && maxTurns == Turns(options.maxTurns)
    requires OnCourse(o, options, log.trace, answers, k, connects, gauge, MessagesOf(log.sent)) && k.turn == maxTurns
    ensures Recorded(o, log', closing, out) && Between(o, options.contextWindow > 0, out.messages, log')
    ensures Ends(o, options, log'.trace, answers, SentBy(log', closing), out)
    ensures connects' <= connects + 5
  {
    hide Standing, Visible, Traced, OnCourse, Ends, Streaming, LoopSays, UserSteps, LiveRun;
    var ms := messages;
    connects', log', closing := connects, log, None;
    if !env.alive(maxTurns, 0) {
      DeadAtTheEnd(o, options, log, ms, answers, k, connects, gauge, MessagesOf(log.sent));
      out := RunResult(ms, "", maxTurns, Failed("interrupted"));
      NoQuestion(log);
      return;
    }
    DiagnosticsSaid(env, maxTurns);
    ms, log' := Say(o, ms, env.drainFinal(maxTurns) != "", env.drainFinal(maxTurns), log);
    ghost var asked := Closing(env, log', ms);
    StandsAt(o, log, messages);
    assert asked.messages == messages + ClosingQuestion(env, maxTurns);
    var answer: string;
    StreamingEnds(env.classifier, env.link, connects, MAX_RECONNECTS);
    answer, ms, connects', log' := FinalAnswerAfterMaxTurns(env, o, maxTurns, ms, connects, log');
    closing := Some(asked);
    ghost var r := Streaming(env.classifier, env.link, connects, MAX_RECONNECTS).0;
    assert log'.trace == log.trace + ClosingSteps(env, maxTurns, r);
    TurnsUsedUp(o, options, log, log', ms, answers, k, connects, gauge, MessagesOf(log.sent), r);
    out := RunResult(ms, if answer != "" then answer else env.words(LastAnswer), maxTurns, OutOfTurns);
  }

  lemma EndDelivers(o: Origin, options: Options, prompt: string, log: Log, answers: seq<Answer>, sent: seq<History>,
                    out: RunResult)
    requires Between(o, options.contextWindow > 0, out.messages, log) && Ends(o, options, log.trace, answers, sent, out)
    requires o.start == [SystemMessage(o.prompt), Message(User, prompt, [], "", options.images)]
    ensures Delivers(o.prompt, options, out)
  {
    hide Standing, Replayable, Visible, Ends;
    TurnsWithin(o, options, log.trace, answers, sent, out);
    EndTells(o, options, log.trace, answers, sent, out);
    Replays(o, log, out.messages);
    if options.contextWindow <= 0 {
      StartKept(o.prompt, Message(User, prompt, [], "", options.images), out.messages, options.images);
    }
  }

  lemma TurnsWithin(o: Origin, options: Options, trace: seq<Step>, answers: seq<Answer>, sent: seq<History>,
                    out: RunResult)
    requires Ends(o, options, trace, answers, sent, out)
    ensures out.turns <= Turns(options.maxTurns)
  {
    hide EndsInAnswer, EndsInCall, EndsUsedUp, LiveRun;
  }

  /** Run: whatever the provider, the summarizer, the tools and the clock do, every request it
      sends and every history it returns is replayable, on every way out; `log` tells by which
      blocks, prunings and compactions it came about, and `answers` by which answers of the model and for
      which reason it ended; the run takes at most the turns it is given, and at most ten connects for
      each and ten more. */
  method Run(env: Env, options: Options, prompt: string, systemPrompt: string)
    returns (out: RunResult, connects: nat, ghost log: Log, ghost closing: Option<Request>, ghost answers: seq<Answer>)
    ensures Delivers(systemPrompt, options, out)
    ensures Recorded(Opening(env, options, prompt, systemPrompt), log, closing, out)
    ensures Ends(Opening(env, options, prompt, systemPrompt), options, log.trace, answers, SentBy(log, closing), out)
    ensures connects <= 10 * Turns(options.maxTurns) + 10
  {
    hide Standing, Replayable, GuardState.TurnsTold, GuardState.FailuresTold, Visible, Traced, OnCourse, Ends, Delivers;
    var maxTurns := if options.maxTurns <= 0 then DEFAULT_MAX_TURNS else options.maxTurns;
    var first := Message(User, prompt, [], "", options.images);
    var messages := [SystemMessage(systemPrompt), first];
    ghost var o := Opening(env, options, prompt, systemPrompt);
    Seeded(o, first);
    AtTheStart(o, options);
    var guards := new GuardState(env.remaining);
    var compactor := new CompactionState(options.contextWindow, options.preserveLast);
    var nudges, accepted := 0, false;
    connects, log, closing, answers := 0, Log([], []), None, [];
    for turn := 0 to maxTurns
      invariant Between(o, options.contextWindow > 0, messages, log) && closing == None
      invariant fresh(compactor) && fresh(guards) && guards.remaining == env.remaining
      invariant compactor.enabled == (options.contextWindow > 0) && compactor.preserveLast == o.keep
      invariant compactor.Valid() && guards.TurnsTold() && guards.FailuresTold()
      invariant connects <= 10 * turn + Spent(compactor.reactiveAttempted)
      invariant OnCourse(o, options, log.trace, answers, KnownAt(guards, turn, nudges, accepted), connects,
                         compactor.Reading(), MessagesOf(log.sent))
    {
      var halt: Option<Halt>;
      messages, halt, connects, log, nudges, accepted, answers := TakeTurn(
        env, options, compactor, guards, o, turn, messages, connects, log, nudges, accepted, answers);
      if halt.Some? {
        out := RunResult(messages, halt.value.answer, turn + 1, halt.value.how);
        NoQuestion(log);
        EndDelivers(o, options, prompt, log, answers, SentBy(log, closing), out);
        return;
      }
    }
    out, connects, log, closing := RunOut(env, options, o, maxTurns, messages, connects, log, answers,
                                          KnownAt(guards, maxTurns, nudges, accepted), compactor.Reading());
    EndDelivers(o, options, prompt, log, answers, SentBy(log, closing), out);
  }

  // ---- what a run carries ----

  lemma OpeningIsPlain(o: Origin, prompt: string, images: nat)
    requires o.start == [SystemMessage(o.prompt), Message(User, prompt, [], "", images)]
    requires !IsSummary(UserMessage(prompt))
    ensures WellFormed(o.start) && NoSummary(o.start)
  {
    hide Trim, SUMMARY_LABEL;
    Seeded(o, o.start[1]);
  }

  /** Every history a run sends or returns is accounted for by the steps recorded for it: if these
      are admissible, its summary carries one pass over exactly what they elided. */
  lemma RunHistoryCarries(env: Env, options: Options, prompt: string, systemPrompt: string, trace: seq<Step>,
                          ms: seq<Message>)
    requires Sound(env.parsers) && !IsSummary(UserMessage(prompt))
    requires Traced(Opening(env, options, prompt, systemPrompt), trace, ms)
    requires AllAdmissible(env.parsers, Held(Opening(env, options, prompt, systemPrompt).start, []), trace)
    ensures AccountedFor(env.parsers, Opening(env, options, prompt, systemPrompt).start, trace, ms)
  {
    hide Traced, Sound, AllAdmissible, AccountedFor, IsSummary, WellFormed, NoSummary;
    var o := Opening(env, options, prompt, systemPrompt);
    OpeningIsPlain(o, prompt, options.images);
    TraceAccounts(o, trace, ms);
  }

  /** With an id of its own for every call the run met, it is enough that no appended message poses as
      a summary and that every new summary can be read back. */
  lemma DistinctCallsCarry(env: Env, options: Options, prompt: string, systemPrompt: string, trace: seq<Step>,
                           ms: seq<Message>)
    requires Sound(env.parsers) && !IsSummary(UserMessage(prompt))
    requires Traced(Opening(env, options, prompt, systemPrompt), trace, ms)
    requires DistinctIds(Calls(Opening(env, options, prompt, systemPrompt).start + Appended(trace)))
    requires AllAcceptable(env.parsers, Held(Opening(env, options, prompt, systemPrompt).start, []), trace)
    ensures AccountedFor(env.parsers, Opening(env, options, prompt, systemPrompt).start, trace, ms)
  {
    hide Traced, Sound, AllAcceptable, AccountedFor, IsSummary, WellFormed, NoSummary, DistinctIds, Appended, Calls;
    var o := Opening(env, options, prompt, systemPrompt);
    OpeningIsPlain(o, prompt, options.images);
    DistinctCallsAccount(o, trace, ms);
  }
}
