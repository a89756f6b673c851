/** The course of a run (loop.go): which answer of the model, which results of the tools and which words
    of the loop each step of the record comes from, and what ended the run. */
module Course {
  import opened Basics
  import opened Transcript
  import opened Preserve
  import opened Compaction
  import opened Tokens
  import opened Budget
  import opened LongRun
  import opened Guard
  import opened Reconnect
  import opened RunEnv
  import opened ToolBatch
  import opened RunLog
  import opened ModelCall

  const MAX_CONTINUE_NUDGES := 3

  predicate Visible(text: string) {
    Trim(text) != ""
  }

  lemma BlankIsInvisible()
    ensures !Visible("")
  {
  }

  function AsTurn(collected: Collected): Turn {
    Turn(collected.calls, Visible(collected.text), collected.reasoning)
  }

  function Pushed(when: bool, text: string): seq<Message> {
    if when then [UserMessage(text)] else []
  }

  // ---- what the loop goes by ----

  /** What it has said already: nudges to go on, and the acceptance nudge; the reminder of the present
      stretch of tool-only turns, of the present plan, and of a missing one. */
  datatype Pace = Pace(nudges: nat, accepted: bool, toldProgress: bool, toldStale: bool, toldMissing: bool)

  /** What the loop knows in front of a turn. */
  datatype Known = Known(turn: nat, seen: seq<Observation>, turns: seq<Turn>, pace: Pace)

  datatype Verdict = Ask(notice: Notice) | Show(diagnostics: string) | Stop(halt: Halt)

  function TurnsWith(k: Known, c: Collected): seq<Turn> {
    if c.calls == [] && c.dropped > 0 then k.turns else k.turns + [AsTurn(c)]
  }

  /** What becomes of an answer without calls. */
  function Judged(env: Env, options: Options, k: Known, c: Collected): Verdict {
    var turns := TurnsWith(k, c);
    var cue := env.midStep(c.text);
    var pending := OpenItems(env.remaining, AllCalls(turns)) > 0;
    if c.dropped > 0 then Ask(DroppedCall)
    else if Trailing(turns, Empty) >= MAX_EMPTY_TURNS then Stop(Halt(NoOutputHalt, env.words(NoOutputStop(k.turn + 1))))
    else if !Visible(c.text) then Ask(NoOutput)
    else if options.requireCompletion && env.admits(c.text) then Stop(Halt(Incomplete, c.text))
    else if options.requireCompletion && (cue || pending) && k.pace.nudges < MAX_CONTINUE_NUDGES then
      Ask(if cue then MidStep else PlanOpen)
    else if options.requireCompletion && cue then Stop(Halt(Incomplete, c.text))
    else if options.requireCompletion && options.selfCorrect && !k.pace.accepted then Ask(Acceptance)
    else if env.drainFinal(k.turn) != "" then Show(env.drainFinal(k.turn))
    else Stop(Halt(Answered, c.text))
  }

  function Spoken(env: Env, verdict: Verdict): seq<Message> {
    match verdict
    case Ask(notice) => [UserMessage(env.words(notice))]
    case Show(diagnostics) => [UserMessage(diagnostics)]
    case Stop(_) => []
  }

  /** What is said behind a completed batch before any hint or reminder: self-correction feedback,
      a failed model switch, a dropped call. */
  function Remarks(env: Env, options: Options, turn: nat, batch: Batch, dropped: nat): seq<Message> {
    Pushed(options.selfCorrect && batch.changed && env.feedback(turn) != "", env.feedback(turn))
    + Pushed(batch.requestedModel != "" && options.switcher && env.switchFails(turn, batch.requestedModel),
             env.words(SwitchFailed(batch.requestedModel)))
    + Pushed(dropped > 0, env.words(DroppedCall))
  }

  /** The reminder due behind a turn, `told` being what was said already: of progress, of a stale plan,
      of a missing one. */
  function Reminding(env: Env, turns: seq<Turn>, turn: nat, told: Pace): Reminder {
    var calls := AllCalls(turns);
    if !told.toldProgress && Trailing(turns, ToolOnly) >= 6 then Progress(Trailing(turns, ToolOnly))
    else if Plans(calls) && !told.toldStale
            && (SincePlan(calls) >= 10
                || (Trailing(turns, NoPlan) >= 8 && OpenItems(env.remaining, calls) > 0)) then
      Stale(SincePlan(calls))
    else if calls != [] && !Plans(calls) && turn + 1 >= 3 && !told.toldMissing then NotCalled
    else NoReminder
  }

  /** A hint, or else the reminder. */
  function Prompt(env: Env, hint: Option<Notice>, reminder: Reminder): seq<Message> {
    if hint.Some? then [UserMessage(env.words(hint.value))]
    else Pushed(!reminder.NoReminder?, env.words(Remind(reminder)))
  }

  function WholeBatch(env: Env, k: Known, c: Collected): Batch {
    BatchOf(env, k.turn, c.calls, k.seen, |c.calls|)
  }

  /** The reminder behind a batch; there is none next to a hint. */
  function ReminderBehind(env: Env, k: Known, c: Collected): Reminder {
    if WholeBatch(env, k, c).hint.Some? then NoReminder
    else Reminding(env, TurnsWith(k, c), k.turn, Observing(k.pace, AsTurn(c)))
  }

  /** What the loop says behind an answer and the results of its calls. */
  function SaidBehind(env: Env, options: Options, k: Known, c: Collected): seq<Message> {
    if c.calls == [] then Spoken(env, Judged(env, options, k, c))
    else Remarks(env, options, k.turn, WholeBatch(env, k, c), c.dropped)
         + Prompt(env, WholeBatch(env, k, c).hint, ReminderBehind(env, k, c))
  }

  /** Whether another turn follows. */
  predicate GoesOn(env: Env, options: Options, k: Known, c: Collected) {
    if c.calls == [] then !Judged(env, options, k, c).Stop? else GoesTo(env, k.turn, c.calls, k.seen, |c.calls|)
  }

  /** An observed turn ends the stretch of tool-only turns, or renews the plan. */
  function Observing(pace: Pace, t: Turn): Pace {
    pace.(toldProgress := pace.toldProgress && Is(t, ToolOnly), toldStale := pace.toldStale && !Plans(t.calls))
  }

  function Asking(pace: Pace, verdict: Verdict): Pace {
    match verdict
    case Ask(MidStep) => pace.(nudges := pace.nudges + 1)
    case Ask(PlanOpen) => pace.(nudges := pace.nudges + 1)
    case Ask(Acceptance) => pace.(accepted := true)
    case _ => pace
  }

  function Telling(pace: Pace, reminder: Reminder): Pace {
    match reminder
    case NoReminder => pace
    case Progress(_) => pace.(toldProgress := true)
    case Stale(_) => pace.(toldStale := true)
    case NotCalled => pace.(toldMissing := true)
  }

  /** What the loop knows behind one more turn. */
  function KnownBehind(env: Env, options: Options, k: Known, c: Collected): Known {
    if c.calls == [] then
      var observed := if c.dropped > 0 then k.pace else Observing(k.pace, AsTurn(c));
      Known(k.turn + 1, k.seen, TurnsWith(k, c), Asking(observed, Judged(env, options, k, c)))
    else
      Known(k.turn + 1, k.seen + Observed(c.calls, ResultsOf(env, k.turn, c.calls, |c.calls|)), TurnsWith(k, c),
            Telling(Observing(k.pace, AsTurn(c)), ReminderBehind(env, k, c)))
  }

  // ---- the answers of a run ----

  /** An answer of the model: the connect it came by, the steps of the record where its turn begins and
      where its block is appended, and behind the call the compactor and the histories sent so far. */
  datatype Answer = Answer(connect: nat, from: nat, at: nat, gauge: Gauge, sent: seq<History>)

  function Before(answers: seq<Answer>): seq<Answer>
    requires answers != []
  {
    answers[..|answers| - 1]
  }

  function Last(answers: seq<Answer>): Answer
    requires answers != []
  {
    answers[|answers| - 1]
  }

  function Said(env: Env, a: Answer): Collected {
    match env.link.connect(a.connect)
    case Ok(c) => c
    case Err(e) => Collected("", [], 0, e, false, 0, false)
  }

  function KnownOf(env: Env, options: Options, answers: seq<Answer>): Known {
    if answers == [] then Known(0, [], [], Pace(0, false, false, false, false))
    else KnownBehind(env, options, KnownOf(env, options, Before(answers)), Said(env, Last(answers)))
  }

  /** How many connects the run has made. */
  function ConnectsOf(answers: seq<Answer>): nat {
    if answers == [] then 0 else Last(answers).connect + 1
  }

  function GaugeOf(options: Options, answers: seq<Answer>): Gauge {
    if answers == [] then Gauge(options.contextWindow > 0, Threshold(options.contextWindow), 0, false, 0.0)
    else Last(answers).gauge
  }

  function SentOf(answers: seq<Answer>): seq<History> {
    if answers == [] then [] else Last(answers).sent
  }

  function UserSteps(ms: seq<Message>): seq<Step> {
    seq(|ms|, i requires 0 <= i < |ms| => Append([ms[i]]))
  }

  /** Late diagnostics, told ahead of the request. */
  function Drained(env: Env, turn: nat): seq<Message> {
    Pushed(env.drain(turn) != "", env.drain(turn))
  }

  /** How a turn opens: late diagnostics, proactive compaction, the call, and its sample. */
  function Opened(o: Origin, turn: nat, start: seq<Message>, connects: nat, gauge: Gauge, sent: seq<History>): Call {
    var tokens := o.env.toolTokens(turn);
    var (compacted, mark) :=
      Proactive(gauge, o.env.parsers, SummarizerAt(o.env, turn, 0), o.keep, start + Drained(o.env, turn), tokens);
    var q := Called(o, turn, compacted, connects, gauge.(mark := mark), sent);
    if q.answer.Err? then q
    else q.(gauge := Sampled(q.gauge, Estimate(q.ms) + tokens, q.answer.value.inputTokens))
  }

  /** The steps of an opening: behind the diagnostics nothing is appended. */
  predicate Opens(env: Env, turn: nat, before: seq<Step>, behind: seq<Step>) {
    Shrunk(before + UserSteps(Drained(env, turn)), behind)
  }

  /** The block of an answer: its text, its calls, what the tools said down to the call the batch stopped
      at, and the notice for the others. */
  predicate BlockOf(env: Env, k: Known, c: Collected, executed: nat, block: seq<Message>) {
    StopsAt(env, k.turn, c.calls, k.seen, executed) && BatchBlock(env, k.turn, c.text, c.calls, executed, block)
  }

  /** The last of these answers is the one its turn came to, and its block is in the record, `executed`
      of its calls having run. */
  ghost predicate Taken(o: Origin, options: Options, trace: seq<Step>, answers: seq<Answer>, executed: nat)
    requires answers != []
  {
    var before, a := Before(answers), Last(answers);
    var k := KnownOf(o.env, options, before);
    && a.from <= a.at < |trace| && o.env.link.connect(a.connect).Ok?
    && Opens(o.env, k.turn, trace[..a.from], trace[..a.at])
    && Opened(o, k.turn, LiveAt(o, trace[..a.from]), ConnectsOf(before), GaugeOf(options, before), SentOf(before))
       == Call(LiveAt(o, trace[..a.at]), o.env.link.connect(a.connect), a.connect + 1, a.gauge, a.sent)
    && trace[a.at].Append? && BlockOf(o.env, k, Said(o.env, a), executed, trace[a.at].more)
  }

  /** These steps are those of one turn for each of these answers, and every one of them went on. */
  ghost predicate TurnByTurn(o: Origin, options: Options, trace: seq<Step>, answers: seq<Answer>)
    decreases |answers|
  {
    if answers == [] then trace == []
    else
      var before, a := Before(answers), Last(answers);
      var k := KnownOf(o.env, options, before);
      && Taken(o, options, trace, answers, |Said(o.env, a).calls|)
      && TurnByTurn(o, options, trace[..a.from], before)
      && GoesOn(o.env, options, k, Said(o.env, a))
      && trace[a.at + 1..] == UserSteps(SaidBehind(o.env, options, k, Said(o.env, a)))
  }

  lemma KnownTurn(env: Env, options: Options, answers: seq<Answer>)
    ensures KnownOf(env, options, answers).turn == |answers|
  {
    if answers != [] {
      KnownTurn(env, options, Before(answers));
    }
  }

  lemma UserStepsConcat(a: seq<Message>, b: seq<Message>)
    ensures UserSteps(a + b) == UserSteps(a) + UserSteps(b)
  {
  }

  /** One more turn, at the end of the record. */
  lemma TakenNow(o: Origin, options: Options, before: seq<Answer>, start: seq<Step>, ahead: seq<Step>,
                 block: seq<Message>, rest: seq<Step>, a: Answer, executed: nat)
    requires var k, trace := KnownOf(o.env, options, before), ahead + [Append(block)] + rest;
      && o.env.link.connect(a.connect).Ok? && a.from == |start| && a.at == |ahead|
      && Opens(o.env, k.turn, start, ahead)
      && Opened(o, k.turn, LiveAt(o, start), ConnectsOf(before), GaugeOf(options, before), SentOf(before))
         == Call(LiveAt(o, ahead), o.env.link.connect(a.connect), a.connect + 1, a.gauge, a.sent)
      && BlockOf(o.env, k, Said(o.env, a), executed, block)
    ensures var trace := ahead + [Append(block)] + rest;
      Taken(o, options, trace, before + [a], executed) && a.from <= a.at < |trace| && trace[..a.from] == start
      && trace[a.at + 1..] == rest
  {
    hide LiveRun, Opened, BlockOf, KnownOf, GaugeOf, ConnectsOf, SentOf;
    var trace, answers := ahead + [Append(block)] + rest, before + [a];
    assert Before(answers) == before && Last(answers) == a;
    assert start <= ahead;
    assert trace[..|ahead|] == ahead;
    assert trace[..|start|] == ahead[..|start|] == start;
    assert trace[|ahead|] == Append(block);
  }

  lemma CourseGoesOn(o: Origin, options: Options, before: seq<Answer>, start: seq<Step>, ahead: seq<Step>,
                     block: seq<Message>, a: Answer)
    requires TurnByTurn(o, options, start, before) && a.from == |start| && a.at == |ahead| && start <= ahead
    requires
      var k, c := KnownOf(o.env, options, before), Said(o.env, a);
      var trace := ahead + [Append(block)] + UserSteps(SaidBehind(o.env, options, k, c));
      Taken(o, options, trace, before + [a], |c.calls|) && GoesOn(o.env, options, k, c)
    ensures
      var k, c := KnownOf(o.env, options, before), Said(o.env, a);
      var trace := ahead + [Append(block)] + UserSteps(SaidBehind(o.env, options, k, c));
      && TurnByTurn(o, options, trace, before + [a])
      && KnownOf(o.env, options, before + [a]) == KnownBehind(o.env, options, k, c)
      && ConnectsOf(before + [a]) == a.connect + 1 && GaugeOf(options, before + [a]) == a.gauge
      && SentOf(before + [a]) == a.sent
  {
    hide Taken, KnownOf, SaidBehind, GoesOn, KnownBehind, UserSteps, Said;
    var k, c := KnownOf(o.env, options, before), Said(o.env, a);
    var rest := UserSteps(SaidBehind(o.env, options, k, c));
    var trace, answers := ahead + [Append(block)] + rest, before + [a];
    assert Before(answers) == before && Last(answers) == a;
    assert trace[..|start|] == ahead[..|start|] == start;
    assert trace[|ahead| + 1..] == rest;
    KnownSnoc(o.env, options, before, a);
  }

  lemma KnownSnoc(env: Env, options: Options, before: seq<Answer>, a: Answer)
    ensures KnownOf(env, options, before + [a])
         == KnownBehind(env, options, KnownOf(env, options, before), Said(env, a))
  {
    hide KnownBehind, Said;
    assert Before(before + [a]) == before && Last(before + [a]) == a;
  }

  // ---- how a run ends ----

  /** What of an answer ends the run. */
  ghost predicate Halting(env: Env, options: Options, k: Known, c: Collected, executed: nat, halt: Halt) {
    if c.calls == [] then Judged(env, options, k, c) == Stop(halt)
    else executed <= |c.calls| && Halts(env, k.turn, c.calls, k.seen, ResultsOf(env, k.turn, c.calls, executed))
         && HaltTells(env, k.turn, c.calls, k.seen, executed, halt)
  }

  /** The last answer ended it: by the verdict on its text, or by the last result of its batch. */
  ghost predicate EndsInAnswer(o: Origin, options: Options, trace: seq<Step>, answers: seq<Answer>, executed: nat,
                               sent: seq<History>, out: RunResult) {
    && answers != [] && out.turns == |answers|
    && var before, a := Before(answers), Last(answers);
       var k, c, halt := KnownOf(o.env, options, before), Said(o.env, a), Halt(out.how, out.finalAnswer);
       && Taken(o, options, trace, answers, executed) && TurnByTurn(o, options, trace[..a.from], before)
       && a.at + 1 == |trace| && sent == a.sent
       && Halting(o.env, options, k, c, executed, halt)
  }

  /** The call behind the last answer brought none. */
  ghost predicate EndsInCall(o: Origin, options: Options, trace: seq<Step>, answers: seq<Answer>, from: nat,
                             sent: seq<History>, out: RunResult) {
    && from <= |trace| && TurnByTurn(o, options, trace[..from], answers) && out.turns == |answers| + 1
    && Opens(o.env, |answers|, trace[..from], trace)
    && var q := Opened(o, |answers|, LiveAt(o, trace[..from]), ConnectsOf(answers), GaugeOf(options, answers),
                       SentOf(answers));
       && q.ms == LiveAt(o, trace) && sent == q.sent && q.answer.Err?
       && out.how == Failed(q.answer.error) && out.finalAnswer == ""
  }

  /** The closing question got this answer. */
  predicate Closed(env: Env, turns: nat, r: Result<Collected>) {
    r.Ok? && env.alive(turns, 1) && r.value.error == "" && Visible(r.value.text)
  }

  /** What is said behind the last turn: diagnostics, and the closing question with its answer, if it got one. */
  function ClosingSteps(env: Env, turns: nat, r: Result<Collected>): seq<Step> {
    UserSteps(Pushed(env.drainFinal(turns) != "", env.drainFinal(turns)))
    + if Closed(env, turns, r) then
        [UserStep(env.words(LastPrompt)), Append([AssistantMessage(r.value.text, [])])]
      else []
  }

  /** What is put to the model behind the last turn. */
  function ClosingQuestion(env: Env, turns: nat): seq<Message> {
    Pushed(env.drainFinal(turns) != "", env.drainFinal(turns)) + [UserMessage(env.words(LastPrompt))]
  }

  /** All turns were used up. */
  ghost predicate EndsUsedUp(o: Origin, options: Options, trace: seq<Step>, answers: seq<Answer>, from: nat,
                             sent: seq<History>, out: RunResult) {
    var r := Streaming(o.env.classifier, o.env.link, ConnectsOf(answers), MAX_RECONNECTS).0;
    && from <= |trace| && TurnByTurn(o, options, trace[..from], answers)
    && out.turns == |answers| == Turns(options.maxTurns)
    && if !o.env.alive(out.turns, 0) then
         from == |trace| && sent == SentOf(answers) && out.how == Failed("interrupted") && out.finalAnswer == ""
       else
         && sent == SentOf(answers) + [LiveAt(o, trace[..from]) + ClosingQuestion(o.env, out.turns)]
         && trace[from..] == ClosingSteps(o.env, out.turns, r) && out.how == OutOfTurns
         && out.finalAnswer == if Closed(o.env, out.turns, r) then r.value.text else o.env.words(LastAnswer)
  }

  /** The run that took these steps and sent these histories ended so, and not before. */
  ghost predicate Ends(o: Origin, options: Options, trace: seq<Step>, answers: seq<Answer>, sent: seq<History>,
                       out: RunResult) {
    && |answers| <= out.turns <= Turns(options.maxTurns)
    && out.messages == LiveAt(o, trace)
    && ((exists executed :: EndsInAnswer(o, options, trace, answers, executed, sent, out))
        || (exists from :: EndsInCall(o, options, trace, answers, from, sent, out)
                           || EndsUsedUp(o, options, trace, answers, from, sent, out)))
  }

  // ---- what an opening keeps ----

  /** An answer is that of the last connect, without error; an error has its cause; and at most ten connects
      are made, and five more once in a run. */
  lemma OpenedIsSourced(o: Origin, turn: nat, start: seq<Message>, connects: nat, gauge: Gauge, sent: seq<History>)
    ensures var q := Opened(o, turn, start, connects, gauge, sent);
      && Sourced(o, turn, connects, q)
      && (q.answer.Ok? ==> q.answer.value.error == "")
      && q.connects + Spent(gauge.attempted) <= connects + 10 + Spent(q.gauge.attempted)
  {
    hide Called, Proactive, AskFailed;
    var (compacted, mark) := Proactive(gauge, o.env.parsers, SummarizerAt(o.env, turn, 0), o.keep,
                                       start + Drained(o.env, turn), o.env.toolTokens(turn));
    CalledIsSourced(o, turn, compacted, connects, gauge.(mark := mark), sent);
  }

  /** Without a context window nothing is compacted. */
  lemma OpenedPlain(o: Origin, turn: nat, start: seq<Message>, connects: nat, gauge: Gauge, sent: seq<History>)
    requires !gauge.enabled
    ensures Opened(o, turn, start, connects, gauge, sent).ms == start + Drained(o.env, turn)
    ensures !Opened(o, turn, start, connects, gauge, sent).gauge.enabled
  {
    hide Called, Estimate, Drained;
    var drained := start + Drained(o.env, turn);
    CalledHistory(o, turn, drained, connects, gauge, sent);
  }

  /** Nothing is taken from the head of the history without a context window. */
  lemma OpenedKeepsStart(o: Origin, turn: nat, start: seq<Message>, connects: nat, gauge: Gauge, sent: seq<History>)
    ensures var q := Opened(o, turn, start, connects, gauge, sent);
      q.gauge.enabled == gauge.enabled && (!gauge.enabled ==> start <= q.ms)
  {
    hide Called, Estimate, Drained, Proactive, OnceRecovered;
    if !gauge.enabled {
      OpenedPlain(o, turn, start, connects, gauge, sent);
    } else {
      OpenedStaysEnabled(o, turn, start, connects, gauge, sent);
    }
  }

  lemma OpenedStaysEnabled(o: Origin, turn: nat, start: seq<Message>, connects: nat, gauge: Gauge, sent: seq<History>)
    ensures Opened(o, turn, start, connects, gauge, sent).gauge.enabled == gauge.enabled
  {
    hide Called, Estimate, Drained, Proactive;
    var (compacted, mark) := Proactive(gauge, o.env.parsers, SummarizerAt(o.env, turn, 0), o.keep,
                                       start + Drained(o.env, turn), o.env.toolTokens(turn));
    CalledHistory(o, turn, compacted, connects, gauge.(mark := mark), sent);
  }

  // ---- the record as it grows ----

  /** The record so far is a course, and what the loop knows is what its answers tell. */
  ghost predicate OnCourse(o: Origin, options: Options, trace: seq<Step>, answers: seq<Answer>, k: Known, connects: nat,
                           gauge: Gauge, sent: seq<History>) {
    && TurnByTurn(o, options, trace, answers) && k == KnownOf(o.env, options, answers)
    && connects == ConnectsOf(answers) && gauge == GaugeOf(options, answers) && sent == SentOf(answers)
  }

  lemma LastConnect(o: Origin, turn: nat, from: nat, ms: seq<Message>, r: Result<Collected>, connects: nat,
                    gauge: Gauge, sent: seq<History>)
    requires Sourced(o, turn, from, Call(ms, r, connects, gauge, sent)) && r.Ok?
    ensures connects > 0 && o.env.link.connect(connects - 1) == r
  {
    hide AskFailed;
  }

  lemma TextIsBlockOf(env: Env, k: Known, c: Collected)
    requires c.calls == []
    ensures BlockOf(env, k, c, 0, [AssistantMessage(c.text, [])])
  {
    hide Halts;
    NothingHalts(env, k.turn, c.calls, k.seen);
  }

  /** The turn behind the answers so far came to this answer, and its block was appended. */
  ghost predicate Turning(o: Origin, options: Options, log: Log, start: seq<Message>, opening: Log, ms: seq<Message>,
                          answers: seq<Answer>, k: Known, connects: nat, gauge: Gauge, sent: seq<History>, a: Answer,
                          c: Collected,
                          block: seq<Message>, executed: nat) {
    && OnCourse(o, options, log.trace, answers, k, connects, gauge, sent)
    && Standing(o, log, start) && Standing(o, opening, ms) && Opens(o.env, k.turn, log.trace, opening.trace)
    && Opened(o, k.turn, start, connects, gauge, sent) == Call(ms, Ok(c), a.connect + 1, a.gauge, a.sent)
    && o.env.link.connect(a.connect) == Ok(c) && a.from == |log.trace| && a.at == |opening.trace|
    && BlockOf(o.env, k, c, executed, block)
  }

  lemma StandsAt(o: Origin, log: Log, ms: seq<Message>)
    requires Standing(o, log, ms)
    ensures LiveAt(o, log.trace) == ms
  {
    hide Replayable, Genuine, LiveRun;
  }

  lemma TurnIsTaken(o: Origin, options: Options, log: Log, start: seq<Message>, opening: Log, ms: seq<Message>,
                    answers: seq<Answer>, k: Known, connects: nat, gauge: Gauge, sent: seq<History>, a: Answer,
                    c: Collected,
                    block: seq<Message>, executed: nat, rest: seq<Step>)
    requires Turning(o, options, log, start, opening, ms, answers, k, connects, gauge, sent, a, c, block, executed)
    ensures var trace := opening.trace + [Append(block)] + rest;
      && Taken(o, options, trace, answers + [a], executed) && Said(o.env, a) == c && log.trace <= opening.trace
      && a.from <= a.at < |trace| && trace[..a.from] == log.trace && trace[a.at + 1..] == rest
  {
    hide Standing, LiveRun, Opened, BlockOf, KnownOf, GaugeOf, ConnectsOf, SentOf, UserSteps, TurnByTurn;
    StandsAt(o, log, start);
    StandsAt(o, opening, ms);
    TakenNow(o, options, answers, log.trace, opening.trace, block, rest, a, executed);
  }

  lemma TurnGoesOn(o: Origin, options: Options, log: Log, start: seq<Message>, opening: Log, ms: seq<Message>,
                   answers: seq<Answer>, k: Known, connects: nat, gauge: Gauge, sent: seq<History>, a: Answer,
                   c: Collected,
                   block: seq<Message>)
    requires Turning(o, options, log, start, opening, ms, answers, k, connects, gauge, sent, a, c, block, |c.calls|)
    requires GoesOn(o.env, options, k, c)
    ensures OnCourse(o, options, opening.trace + [Append(block)] + UserSteps(SaidBehind(o.env, options, k, c)),
                     answers + [a], KnownBehind(o.env, options, k, c), a.connect + 1, a.gauge, a.sent)
  {
    hide Standing, LiveRun, Opened, BlockOf, KnownOf, GaugeOf, ConnectsOf, SentOf, UserSteps, TurnByTurn, Taken,
         SaidBehind, KnownBehind,
         GoesOn;
    TurnIsTaken(o, options, log, start, opening, ms, answers, k, connects, gauge, sent, a, c, block, |c.calls|,
                UserSteps(SaidBehind(o.env, options, k, c)));
    CourseGoesOn(o, options, answers, log.trace, opening.trace, block, a);
  }

  lemma TurnEnds(o: Origin, options: Options, log: Log, start: seq<Message>, opening: Log, ms: seq<Message>,
                 answers: seq<Answer>, k: Known, connects: nat, gauge: Gauge, sent: seq<History>, a: Answer,
                 c: Collected,
                 block: seq<Message>, executed: nat, end: Log, last: seq<Message>, halt: Halt)
    requires Turning(o, options, log, start, opening, ms, answers, k, connects, gauge, sent, a, c, block, executed)
    requires Halting(o.env, options, k, c, executed, halt) && k.turn < Turns(options.maxTurns)
    requires Standing(o, end, last) && end.trace == opening.trace + [Append(block)]
    ensures Ends(o, options, end.trace, answers + [a], a.sent, RunResult(last, halt.answer, k.turn + 1, halt.how))
  {
    hide Standing, LiveRun, BlockOf, KnownOf, GaugeOf, ConnectsOf, SentOf, UserSteps, TurnByTurn, Taken, Halting;
    KnownTurn(o.env, options, answers);
    StandsAt(o, end, last);
    assert opening.trace + [Append(block)] + [] == end.trace;
    TurnIsTaken(o, options, log, start, opening, ms, answers, k, connects, gauge, sent, a, c, block, executed, []);
    assert Before(answers + [a]) == answers && Last(answers + [a]) == a;
    assert EndsInAnswer(o, options, end.trace, answers + [a], executed, a.sent,
                        RunResult(last, halt.answer, k.turn + 1, halt.how));
  }

  lemma CallEnds(o: Origin, options: Options, log: Log, start: seq<Message>, end: Log, last: seq<Message>,
                 answers: seq<Answer>, k: Known, connects: nat, gauge: Gauge, sent: seq<History>)
    requires OnCourse(o, options, log.trace, answers, k, connects, gauge, sent) && k.turn < Turns(options.maxTurns)
    requires Standing(o, log, start) && Standing(o, end, last) && Opens(o.env, k.turn, log.trace, end.trace)
    requires var q := Opened(o, k.turn, start, connects, gauge, sent); q.answer.Err? && q.ms == last
    ensures Ends(o, options, end.trace, answers, Opened(o, k.turn, start, connects, gauge, sent).sent,
                 RunResult(last, "", k.turn + 1, Failed(Opened(o, k.turn, start, connects, gauge, sent).answer.error)))
  {
    hide Standing, LiveRun, Opened, KnownOf, GaugeOf, ConnectsOf, SentOf, UserSteps, TurnByTurn;
    KnownTurn(o.env, options, answers);
    StandsAt(o, log, start);
    StandsAt(o, end, last);
    assert end.trace[..|log.trace|] == log.trace;
    assert EndsInCall(o, options, end.trace, answers, |log.trace|, Opened(o, k.turn, start, connects, gauge, sent).sent,
                      RunResult(last, "", k.turn + 1,
                                Failed(Opened(o, k.turn, start, connects, gauge, sent).answer.error)));
  }

  lemma TurnsUsedUp(o: Origin, options: Options, log: Log, end: Log, last: seq<Message>, answers: seq<Answer>, k: Known,
                    connects: nat, gauge: Gauge, sent: seq<History>, r: Result<Collected>)
    requires OnCourse(o, options, log.trace, answers, k, connects, gauge, sent) && k.turn == Turns(options.maxTurns)
    requires Standing(o, end, last) && o.env.alive(k.turn, 0)
    requires r == Streaming(o.env.classifier, o.env.link, connects, MAX_RECONNECTS).0
    requires end.trace == log.trace + ClosingSteps(o.env, k.turn, r)
    ensures Ends(o, options, end.trace, answers,
                 sent + [LiveAt(o, log.trace) + ClosingQuestion(o.env, k.turn)],
                 RunResult(last, if Closed(o.env, k.turn, r) then r.value.text else o.env.words(LastAnswer), k.turn,
                           OutOfTurns))
  {
    hide Standing, LiveRun, KnownOf, GaugeOf, ConnectsOf, SentOf, ClosingSteps, TurnByTurn, Streaming;
    KnownTurn(o.env, options, answers);
    StandsAt(o, end, last);
    var from := |log.trace|;
    assert end.trace[..from] == log.trace && end.trace[from..] == ClosingSteps(o.env, k.turn, r);
    assert EndsUsedUp(o, options, end.trace, answers, from,
                      sent + [LiveAt(o, log.trace) + ClosingQuestion(o.env, k.turn)], RunResult(
      last, if Closed(o.env, k.turn, r) then r.value.text else o.env.words(LastAnswer), k.turn, OutOfTurns));
  }

  lemma DeadAtTheEnd(o: Origin, options: Options, log: Log, last: seq<Message>, answers: seq<Answer>, k: Known,
                     connects: nat, gauge: Gauge, sent: seq<History>)
    requires OnCourse(o, options, log.trace, answers, k, connects, gauge, sent) && k.turn == Turns(options.maxTurns)
    requires Standing(o, log, last) && !o.env.alive(k.turn, 0)
    ensures Ends(o, options, log.trace, answers, sent, RunResult(last, "", k.turn, Failed("interrupted")))
  {
    hide Standing, LiveRun, KnownOf, GaugeOf, ConnectsOf, SentOf, TurnByTurn, Streaming, Closed;
    KnownTurn(o.env, options, answers);
    StandsAt(o, log, last);
    assert log.trace[..|log.trace|] == log.trace;
    assert EndsUsedUp(o, options, log.trace, answers, |log.trace|, sent,
                      RunResult(last, "", k.turn, Failed("interrupted")));
  }

  lemma AtTheStart(o: Origin, options: Options)
    ensures OnCourse(o, options, [], [], Known(0, [], [], Pace(0, false, false, false, false)), 0,
                     Gauge(options.contextWindow > 0, Threshold(options.contextWindow), 0, false, 0.0), [])
  {
  }

  // ---- what the ending says ----

  /** The final answer of a run that was answered, or gave up, is the text of the last answer, whose block
      ends the history; only a run under the completion gate gives up; and only one that used up its turns
      says so. */
  lemma EndTells(o: Origin, options: Options, trace: seq<Step>, answers: seq<Answer>, sent: seq<History>,
                 out: RunResult)
    requires Ends(o, options, trace, answers, sent, out)
    ensures out.how.Answered? || out.how.Incomplete? ==>
      && out.messages != [] && out.messages[|out.messages| - 1] == AssistantMessage(out.finalAnswer, [])
      && answers != [] && out.finalAnswer == Said(o.env, Last(answers)).text
    ensures out.how.Answered? ==> Visible(out.finalAnswer)
    ensures out.how.Incomplete? ==> options.requireCompletion
    ensures out.how.OutOfTurns? ==> out.turns == |answers| == Turns(options.maxTurns)
  {
    hide LiveRun, Opened, KnownOf, GaugeOf, ConnectsOf, SentOf, TurnByTurn, Streaming, Closed, Visible, Taken, Halts,
         OpenItems, Trailing;
    if executed :| EndsInAnswer(o, options, trace, answers, executed, sent, out) {
      if out.how.Answered? || out.how.Incomplete? {
        LastBlockStands(o, options, trace, answers, executed);
      }
    }
  }

  lemma LastBlockStands(o: Origin, options: Options, trace: seq<Step>, answers: seq<Answer>, executed: nat)
    requires answers != [] && Taken(o, options, trace, answers, executed) && Last(answers).at + 1 == |trace|
    requires Said(o.env, Last(answers)).calls == []
    ensures LiveAt(o, trace)
         == LiveAt(o, trace[..|trace| - 1]) + [AssistantMessage(Said(o.env, Last(answers)).text, [])]
  {
    hide LiveRun, Opened, KnownOf, GaugeOf, ConnectsOf, SentOf, StopsAt;
    var block := trace[|trace| - 1].more;
    assert trace == trace[..|trace| - 1] + [trace[|trace| - 1]];
    LiveRunSnoc(o.env.parsers, o.start, trace[..|trace| - 1], trace[|trace| - 1]);
    assert block == [AssistantMessage(Said(o.env, Last(answers)).text, [])];
  }
}
