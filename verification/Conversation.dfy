/** What a run says from turn to turn (loop.go), and why there is one way only for it to go. */
module Conversation {
  import opened Basics
  import opened Transcript
  import opened Preserve
  import opened Compaction
  import opened Budget
  import opened LongRun
  import opened Guard
  import opened Reconnect
  import opened RunEnv
  import opened ToolBatch
  import opened RunLog
  import opened ModelCall
  import opened Course

  // ---- what is appended ----

  /** An answer with its calls, and what the tools said to every one of them. */
  function WholeBlock(env: Env, turn: nat, c: Collected): seq<Message> {
    [AssistantMessage(c.text, SafeCalls(env, c.calls))]
    + seq(|c.calls|, i requires 0 <= i < |c.calls| =>
            ToolMessage(env.execute(turn, i, c.calls[i]).output, c.calls[i].id))
  }

  lemma WholeIsBlock(env: Env, turn: nat, c: Collected, block: seq<Message>)
    requires BatchBlock(env, turn, c.text, c.calls, |c.calls|, block)
    ensures block == WholeBlock(env, turn, c)
  {
    hide SafeCalls;
    var whole := WholeBlock(env, turn, c);
    forall j | 0 <= j < |block| ensures block[j] == whole[j] {
      if j > 0 {
        var i := j - 1;
        assert block[1 + i] == AnswerTo(env, turn, c.calls, |c.calls|, i);
      }
    }
  }

  /** All that is said in the first turns: diagnostics, the answer with the results of its calls, and the
      words of the loop behind it. */
  function Conversed(env: Env, options: Options, answers: seq<Answer>): seq<Message> {
    if answers == [] then []
    else
      var before, c := Before(answers), Said(env, Last(answers));
      var k := KnownOf(env, options, before);
      Conversed(env, options, before) + Drained(env, k.turn) + WholeBlock(env, k.turn, c)
      + SaidBehind(env, options, k, c)
  }

  lemma {:induction false} AppendedConcat(a: seq<Step>, b: seq<Step>)
    ensures Appended(a + b) == Appended(a) + Appended(b)
    decreases |b|
  {
    if b == [] {
      assert a + b == a;
    } else {
      assert (a + b)[..|a + b| - 1] == a + b[..|b| - 1];
      AppendedConcat(a, b[..|b| - 1]);
    }
  }

  lemma {:induction false} AppendedUsers(ms: seq<Message>)
    ensures Appended(UserSteps(ms)) == ms
    decreases |ms|
  {
    if ms != [] {
      var n := |ms| - 1;
      assert UserSteps(ms)[..n] == UserSteps(ms[..n]);
      AppendedUsers(ms[..n]);
    }
  }

  lemma {:induction false} AppendedShrunk(a: seq<Step>, b: seq<Step>)
    requires Shrunk(a, b)
    ensures Appended(b) == Appended(a)
    decreases |b|
  {
    if |b| == |a| {
      assert a == b;
    } else {
      AppendedShrunk(a, b[..|b| - 1]);
    }
  }

  lemma OpeningAppends(env: Env, turn: nat, before: seq<Step>, behind: seq<Step>)
    requires Opens(env, turn, before, behind)
    ensures Appended(behind) == Appended(before) + Drained(env, turn)
  {
    hide Appended, UserSteps;
    AppendedShrunk(before + UserSteps(Drained(env, turn)), behind);
    AppendedConcat(before, UserSteps(Drained(env, turn)));
    AppendedUsers(Drained(env, turn));
  }

  lemma TurnAppends(trace: seq<Step>, at: nat, rest: seq<Message>)
    requires at < |trace| && trace[at].Append? && trace[at + 1..] == UserSteps(rest)
    ensures Appended(trace) == Appended(trace[..at]) + trace[at].more + rest
  {
    hide UserSteps;
    var block := [trace[at]];
    assert trace == trace[..at] + block + UserSteps(rest);
    AppendedConcat(trace[..at] + block, UserSteps(rest));
    AppendedConcat(trace[..at], block);
    AppendedUsers(rest);
    assert block[..0] == [];
  }

  /** The run has appended just this: no call of an answer is dropped, none goes without its own result,
      and nothing else is put between. */
  lemma {:induction false} CourseAppends(o: Origin, options: Options, trace: seq<Step>, answers: seq<Answer>)
    requires TurnByTurn(o, options, trace, answers)
    ensures Appended(trace) == Conversed(o.env, options, answers)
    decreases |answers|
  {
    hide TurnByTurn, Taken, Opens, SaidBehind, WholeBlock, Said, Drained, KnownOf;
    if answers != [] {
      var before, a := Before(answers), Last(answers);
      TurnParts(o, options, trace, answers);
      TakenBounds(o, options, trace, answers, |Said(o.env, a).calls|);
      CourseAppends(o, options, trace[..a.from], before);
      TurnSays(o, options, trace, answers);
      ConversedMore(o.env, options, answers);
    } else {
      assert trace == [] by {
        NoTurns(o, options, trace);
      }
    }
  }

  lemma NoTurns(o: Origin, options: Options, trace: seq<Step>)
    ensures TurnByTurn(o, options, trace, []) ==> trace == []
  {
  }

  lemma TurnParts(o: Origin, options: Options, trace: seq<Step>, answers: seq<Answer>)
    requires TurnByTurn(o, options, trace, answers) && answers != []
    ensures var a, k, c := Last(answers), KnownOf(o.env, options, Before(answers)), Said(o.env, Last(answers));
      && Taken(o, options, trace, answers, |c.calls|) && a.at < |trace| && a.from <= |trace|
      && TurnByTurn(o, options, trace[..a.from], Before(answers)) && GoesOn(o.env, options, k, c)
      && trace[a.at + 1..] == UserSteps(SaidBehind(o.env, options, k, c))
  {
    hide UserSteps, SaidBehind, GoesOn, Opened, LiveRun, KnownOf, Opens, BlockOf;
  }

  lemma TakenSays(o: Origin, options: Options, trace: seq<Step>, answers: seq<Answer>, executed: nat)
    requires answers != [] && Taken(o, options, trace, answers, executed)
    ensures var a, k, c := Last(answers), KnownOf(o.env, options, Before(answers)), Said(o.env, Last(answers));
      && a.from <= a.at < |trace| && trace[a.at].Append? && Opens(o.env, k.turn, trace[..a.from], trace[..a.at])
      && BatchBlock(o.env, k.turn, c.text, c.calls, executed, trace[a.at].more)
  {
    hide Opened, LiveRun, KnownOf, Opens, BatchBlock, StopsAt;
  }

  lemma TurnSays(o: Origin, options: Options, trace: seq<Step>, answers: seq<Answer>)
    requires TurnByTurn(o, options, trace, answers) && answers != [] && Last(answers).from <= |trace|
    ensures var k, c := KnownOf(o.env, options, Before(answers)), Said(o.env, Last(answers));
      Appended(trace) == Appended(trace[..Last(answers).from])
                         + (Drained(o.env, k.turn) + WholeBlock(o.env, k.turn, c) + SaidBehind(o.env, options, k, c))
  {
    hide TurnByTurn, Taken, Appended, UserSteps, Opens, SaidBehind, BatchBlock, Said, Drained, KnownOf, WholeBlock,
         GoesOn;
    var a, k, c := Last(answers), KnownOf(o.env, options, Before(answers)), Said(o.env, Last(answers));
    TurnParts(o, options, trace, answers);
    TakenSays(o, options, trace, answers, |c.calls|);
    OpeningAppends(o.env, k.turn, trace[..a.from], trace[..a.at]);
    TurnAppends(trace, a.at, SaidBehind(o.env, options, k, c));
    WholeIsBlock(o.env, k.turn, c, trace[a.at].more);
  }

  lemma TakenBounds(o: Origin, options: Options, trace: seq<Step>, answers: seq<Answer>, executed: nat)
    requires answers != [] && Taken(o, options, trace, answers, executed)
    ensures Last(answers).from <= Last(answers).at < |trace| && trace[Last(answers).at].Append?
  {
    hide Opened, LiveRun, KnownOf, Opens, BlockOf;
  }

  lemma ConversedMore(env: Env, options: Options, answers: seq<Answer>)
    requires answers != []
    ensures var k, c := KnownOf(env, options, Before(answers)), Said(env, Last(answers));
      Conversed(env, options, answers)
      == Conversed(env, options, Before(answers)) + (Drained(env, k.turn) + WholeBlock(env, k.turn, c)
                                                     + SaidBehind(env, options, k, c))
  {
    hide KnownOf, Said, Drained, WholeBlock, SaidBehind;
  }

  // ---- one way only ----

  /** What a run stands at in front of a turn. */
  datatype Stage = Stage(ms: seq<Message>, known: Known, connects: nat, gauge: Gauge, sent: seq<History>)

  function NextCall(o: Origin, st: Stage): Call {
    Opened(o, st.known.turn, st.ms, st.connects, st.gauge, st.sent)
  }

  predicate GoesFrom(o: Origin, options: Options, st: Stage) {
    var r := NextCall(o, st).answer;
    r.Ok? && GoesOn(o.env, options, st.known, r.value)
  }

  function StageBehind(o: Origin, options: Options, st: Stage): Stage
    requires NextCall(o, st).answer.Ok?
  {
    var q := NextCall(o, st);
    var c := q.answer.value;
    Stage(q.ms + WholeBlock(o.env, st.known.turn, c) + SaidBehind(o.env, options, st.known, c),
          KnownBehind(o.env, options, st.known, c), q.connects, q.gauge, q.sent)
  }

  /** The run as a machine, for as long as it goes on. */
  function StageAt(o: Origin, options: Options, n: nat): Stage {
    if n == 0 then StageOf(o, options, [], [])
    else
      var st := StageAt(o, options, n - 1);
      if NextCall(o, st).answer.Ok? then StageBehind(o, options, st) else st
  }

  function StageOf(o: Origin, options: Options, trace: seq<Step>, answers: seq<Answer>): Stage {
    Stage(LiveAt(o, trace), KnownOf(o.env, options, answers), ConnectsOf(answers), GaugeOf(options, answers),
          SentOf(answers))
  }

  lemma {:induction false} LiveUsers(p: Parsers, ms: seq<Message>, steps: seq<Step>, more: seq<Message>)
    ensures LiveRun(p, ms, steps + UserSteps(more)) == LiveRun(p, ms, steps) + more
    decreases |more|
  {
    if more == [] {
      assert steps + UserSteps(more) == steps;
    } else {
      var n := |more| - 1;
      LiveUsers(p, ms, steps, more[..n]);
      assert steps + UserSteps(more) == (steps + UserSteps(more[..n])) + [Append([more[n]])];
      LiveRunSnoc(p, ms, steps + UserSteps(more[..n]), Append([more[n]]));
      assert more == more[..n] + [more[n]];
    }
  }

  lemma TurnLives(o: Origin, trace: seq<Step>, at: nat, rest: seq<Message>)
    requires at < |trace| && trace[at].Append? && trace[at + 1..] == UserSteps(rest)
    ensures LiveAt(o, trace) == LiveAt(o, trace[..at]) + trace[at].more + rest
  {
    hide UserSteps, LiveRun;
    assert trace == trace[..at] + [trace[at]] + UserSteps(rest);
    LiveUsers(o.env.parsers, o.start, trace[..at] + [trace[at]], rest);
    LiveRunSnoc(o.env.parsers, o.start, trace[..at], trace[at]);
  }

  /** What the record holds of a turn is what the machine comes to in it. */
  lemma TakenIsNext(o: Origin, options: Options, trace: seq<Step>, answers: seq<Answer>, executed: nat)
    requires answers != [] && Taken(o, options, trace, answers, executed)
    ensures var st, a := StageOf(o, options, trace[..Last(answers).from], Before(answers)), Last(answers);
      && NextCall(o, st) == Call(LiveAt(o, trace[..a.at]), Ok(Said(o.env, a)), a.connect + 1, a.gauge, a.sent)
      && BlockOf(o.env, st.known, Said(o.env, a), executed, trace[a.at].more)
  {
    hide LiveRun, Opened, KnownOf, GaugeOf, ConnectsOf, SentOf, Opens, BlockOf;
  }

  /** The record of a run that has gone on so far stands where the machine does, which went on all the way. */
  lemma {:induction false} CourseIsMachine(o: Origin, options: Options, trace: seq<Step>, answers: seq<Answer>)
    requires TurnByTurn(o, options, trace, answers)
    ensures StageOf(o, options, trace, answers) == StageAt(o, options, |answers|)
    ensures forall t: nat {:trigger StageAt(o, options, t)} ::
      t < |answers| ==> GoesFrom(o, options, StageAt(o, options, t))
    decreases |answers|
  {
    hide LiveRun, NextCall, Taken, GoesOn, SaidBehind, KnownBehind, UserSteps, WholeBlock, BatchBlock, StopsAt, Said;
    if answers != [] {
      var before, a := Before(answers), Last(answers);
      var k, c := KnownOf(o.env, options, before), Said(o.env, a);
      TakenBounds(o, options, trace, answers, |c.calls|);
      CourseIsMachine(o, options, trace[..a.from], before);
      TakenIsNext(o, options, trace, answers, |c.calls|);
      WholeIsBlock(o.env, k.turn, c, trace[a.at].more);
      TurnLives(o, trace, a.at, SaidBehind(o.env, options, k, c));
    }
  }

  /** What a run comes to that ends where it stands. */
  ghost predicate Outcome(o: Origin, options: Options, st: Stage, sent: seq<History>, out: RunResult) {
    var turn, q := st.known.turn, NextCall(o, st);
    if turn < Turns(options.maxTurns) then
      && out.turns == turn + 1 && sent == q.sent
      && if q.answer.Err? then out.messages == q.ms && out.finalAnswer == "" && out.how == Failed(q.answer.error)
         else exists executed, block ::
           && BlockOf(o.env, st.known, q.answer.value, executed, block) && out.messages == q.ms + block
           && Halting(o.env, options, st.known, q.answer.value, executed, Halt(out.how, out.finalAnswer))
    else out == AtTheLimit(o, st) && sent == SentAtTheLimit(o, st)
  }

  function AtTheLimit(o: Origin, st: Stage): RunResult {
    var turn, r := st.known.turn, Streaming(o.env.classifier, o.env.link, st.connects, MAX_RECONNECTS).0;
    if !o.env.alive(turn, 0) then RunResult(st.ms, "", turn, Failed("interrupted"))
    else
      RunResult(st.ms + ClosingWords(o.env, turn, r),
                if Closed(o.env, turn, r) then r.value.text else o.env.words(LastAnswer), turn, OutOfTurns)
  }

  function SentAtTheLimit(o: Origin, st: Stage): seq<History> {
    if !o.env.alive(st.known.turn, 0) then st.sent else st.sent + [st.ms + ClosingQuestion(o.env, st.known.turn)]
  }

  function ClosingWords(env: Env, turns: nat, r: Result<Collected>): seq<Message> {
    Pushed(env.drainFinal(turns) != "", env.drainFinal(turns))
    + if Closed(env, turns, r) then [UserMessage(env.words(LastPrompt)), AssistantMessage(r.value.text, [])] else []
  }

  lemma ClosingLives(o: Origin, steps: seq<Step>, turns: nat, r: Result<Collected>)
    ensures LiveAt(o, steps + ClosingSteps(o.env, turns, r)) == LiveAt(o, steps) + ClosingWords(o.env, turns, r)
  {
    hide LiveRun, Visible, Pushed, UserSteps;
    var p, drained := o.env.parsers, Pushed(o.env.drainFinal(turns) != "", o.env.drainFinal(turns));
    LiveUsers(p, o.start, steps, drained);
    var first := steps + UserSteps(drained);
    if Closed(o.env, turns, r) {
      var ask, answer := UserStep(o.env.words(LastPrompt)), Append([AssistantMessage(r.value.text, [])]);
      LiveRunSnoc(p, o.start, first, ask);
      LiveRunSnoc(p, o.start, first + [ask], answer);
      assert steps + ClosingSteps(o.env, turns, r) == first + [ask] + [answer];
    } else {
      assert steps + ClosingSteps(o.env, turns, r) == first;
    }
  }

  ghost predicate ComesTo(o: Origin, options: Options, n: nat, sent: seq<History>, out: RunResult) {
    && n <= Turns(options.maxTurns) && StageAt(o, options, n).known.turn == n
    && (forall t: nat {:trigger StageAt(o, options, t)} :: t < n ==> GoesFrom(o, options, StageAt(o, options, t)))
    && Outcome(o, options, StageAt(o, options, n), sent, out)
  }

  lemma CallIsOutcome(o: Origin, options: Options, trace: seq<Step>, answers: seq<Answer>, from: nat,
                      sent: seq<History>, out: RunResult)
    requires EndsInCall(o, options, trace, answers, from, sent, out) && out.turns <= Turns(options.maxTurns)
    requires out.messages == LiveAt(o, trace)
    ensures ComesTo(o, options, |answers|, sent, out)
  {
    hide LiveRun, Opened, TurnByTurn, GoesFrom, StageAt, KnownOf;
    KnownTurn(o.env, options, answers);
    CourseIsMachine(o, options, trace[..from], answers);
  }

  lemma AnswerIsOutcome(o: Origin, options: Options, trace: seq<Step>, answers: seq<Answer>, executed: nat,
                        sent: seq<History>, out: RunResult)
    requires EndsInAnswer(o, options, trace, answers, executed, sent, out) && out.turns <= Turns(options.maxTurns)
    requires out.messages == LiveAt(o, trace)
    ensures ComesTo(o, options, |answers| - 1, sent, out)
  {
    hide LiveRun, NextCall, TurnByTurn, GoesFrom, StageAt, KnownOf, Taken, BlockOf, Halting, Said;
    var before, a := Before(answers), Last(answers);
    KnownTurn(o.env, options, before);
    TakenBounds(o, options, trace, answers, executed);
    CourseIsMachine(o, options, trace[..a.from], before);
    TakenIsNext(o, options, trace, answers, executed);
    assert trace[a.at + 1..] == UserSteps([]);
    TurnLives(o, trace, a.at, []);
  }

  lemma LimitIsOutcome(o: Origin, options: Options, trace: seq<Step>, answers: seq<Answer>, from: nat,
                      sent: seq<History>, out: RunResult)
    requires EndsUsedUp(o, options, trace, answers, from, sent, out)
    requires out.messages == LiveAt(o, trace)
    ensures ComesTo(o, options, |answers|, sent, out)
  {
    hide LiveRun, NextCall, TurnByTurn, GoesFrom, StageAt, KnownOf, ClosingSteps, ClosingWords, Visible, Streaming;
    KnownTurn(o.env, options, answers);
    CourseIsMachine(o, options, trace[..from], answers);
    var r := Streaming(o.env.classifier, o.env.link, ConnectsOf(answers), MAX_RECONNECTS).0;
    ClosingLives(o, trace[..from], out.turns, r);
    assert trace == trace[..from] + trace[from..];
    if !o.env.alive(out.turns, 0) {
      assert trace == trace[..from];
    }
  }

  lemma EndsComesTo(o: Origin, options: Options, trace: seq<Step>, answers: seq<Answer>, sent: seq<History>,
                      out: RunResult)
    requires Ends(o, options, trace, answers, sent, out)
    ensures exists n :: ComesTo(o, options, n, sent, out)
  {
    hide LiveRun, EndsInAnswer, EndsInCall, EndsUsedUp, ComesTo;
    if executed :| EndsInAnswer(o, options, trace, answers, executed, sent, out) {
      AnswersSome(o, options, trace, answers, executed, sent, out);
      AnswerIsOutcome(o, options, trace, answers, executed, sent, out);
    } else {
      var from :| EndsInCall(o, options, trace, answers, from, sent, out)
                  || EndsUsedUp(o, options, trace, answers, from, sent, out);
      if EndsInCall(o, options, trace, answers, from, sent, out) {
        CallIsOutcome(o, options, trace, answers, from, sent, out);
      } else {
        LimitIsOutcome(o, options, trace, answers, from, sent, out);
      }
    }
  }

  lemma AnswersSome(o: Origin, options: Options, trace: seq<Step>, answers: seq<Answer>, executed: nat,
                        sent: seq<History>, out: RunResult)
    requires EndsInAnswer(o, options, trace, answers, executed, sent, out)
    ensures answers != []
  {
    hide LiveRun, Taken, TurnByTurn, Halting;
  }

  lemma OutcomeStops(o: Origin, options: Options, st: Stage, sent: seq<History>, out: RunResult)
    requires Outcome(o, options, st, sent, out) && st.known.turn < Turns(options.maxTurns)
    ensures !GoesFrom(o, options, st)
  {
    hide NextCall, Judged, Halts, HaltTells, BatchBlock, ResultsOf;
  }

  lemma OutcomeOnce(o: Origin, options: Options, st: Stage, sent: seq<History>, a: RunResult,
                    sent': seq<History>, b: RunResult)
    requires Outcome(o, options, st, sent, a) && Outcome(o, options, st, sent', b)
    ensures a == b && sent == sent'
  {
    hide NextCall, BlockOf, Halting, AtTheLimit, SentAtTheLimit;
    var q := NextCall(o, st);
    if st.known.turn < Turns(options.maxTurns) && q.answer.Ok? {
      var m, x :| BlockOf(o.env, st.known, q.answer.value, m, x) && a.messages == q.ms + x
                  && Halting(o.env, options, st.known, q.answer.value, m, Halt(a.how, a.finalAnswer));
      var n, y :| BlockOf(o.env, st.known, q.answer.value, n, y) && b.messages == q.ms + y
                  && Halting(o.env, options, st.known, q.answer.value, n, Halt(b.how, b.finalAnswer));
      BlockOnce(o.env, st.known, q.answer.value, m, x, n, y);
      HaltingOnce(o.env, options, st.known, q.answer.value, m, Halt(a.how, a.finalAnswer), Halt(b.how, b.finalAnswer));
    }
  }

  lemma BlockOnce(env: Env, k: Known, c: Collected, m: nat, x: seq<Message>, n: nat, y: seq<Message>)
    requires BlockOf(env, k, c, m, x) && BlockOf(env, k, c, n, y)
    ensures m == n && x == y
  {
    hide Halts, ResultsOf, SafeCalls;
    assert m == n;
    forall j | 0 <= j < |x| ensures x[j] == y[j] {
      if j > 0 {
        var i := j - 1;
        assert x[1 + i] == AnswerTo(env, k.turn, c.calls, m, i) && y[1 + i] == AnswerTo(env, k.turn, c.calls, m, i);
      }
    }
  }

  lemma HaltingOnce(env: Env, options: Options, k: Known, c: Collected, executed: nat, a: Halt, b: Halt)
    requires Halting(env, options, k, c, executed, a) && Halting(env, options, k, c, executed, b)
    ensures a == b
  {
    hide Halts, Judged, Streak, Own, Observed, ResultsOf;
  }

  /** Two records of a run with one provider, one set of tools and one clock come to one result: the
      histories sent, the messages returned, the answer, the turns taken and the reason to stop are settled. */
  lemma RunIsOne(o: Origin, options: Options,
                 trace: seq<Step>, answers: seq<Answer>, sent: seq<History>, out: RunResult,
                 trace': seq<Step>, answers': seq<Answer>, sent': seq<History>, out': RunResult)
    requires Ends(o, options, trace, answers, sent, out) && Ends(o, options, trace', answers', sent', out')
    ensures out == out' && sent == sent'
  {
    hide Ends, ComesTo, LiveRun;
    EndsComesTo(o, options, trace, answers, sent, out);
    EndsComesTo(o, options, trace', answers', sent', out');
    var n :| ComesTo(o, options, n, sent, out);
    var n' :| ComesTo(o, options, n', sent', out');
    NotEarlier(o, options, n, sent, out, n', sent', out');
    NotEarlier(o, options, n', sent', out', n, sent, out);
    ComesToOnce(o, options, n, sent, out, sent', out');
  }

  lemma NotEarlier(o: Origin, options: Options, n: nat, sent: seq<History>, out: RunResult,
                   n': nat, sent': seq<History>, out': RunResult)
    requires ComesTo(o, options, n, sent, out) && ComesTo(o, options, n', sent', out')
    ensures n' <= n
  {
    hide StageAt, Outcome, GoesFrom;
    if n < n' {
      OutcomeStops(o, options, StageAt(o, options, n), sent, out);
    }
  }

  lemma ComesToOnce(o: Origin, options: Options, n: nat, sent: seq<History>, a: RunResult,
                    sent': seq<History>, b: RunResult)
    requires ComesTo(o, options, n, sent, a) && ComesTo(o, options, n, sent', b)
    ensures a == b && sent == sent'
  {
    hide StageAt, Outcome, GoesFrom;
    OutcomeOnce(o, options, StageAt(o, options, n), sent, a, sent', b);
  }

  // ---- how often the loop speaks up ----

  /** The loop met the answer of turn `t` by this notice. */
  predicate AskedAt(env: Env, options: Options, answers: seq<Answer>, t: nat, notice: Notice) {
    && t < |answers| && Said(env, answers[t]).calls == []
    && Judged(env, options, KnownOf(env, options, answers[..t]), Said(env, answers[t])) == Ask(notice)
  }

  predicate NudgedAt(env: Env, options: Options, answers: seq<Answer>, t: nat) {
    AskedAt(env, options, answers, t, MidStep) || AskedAt(env, options, answers, t, PlanOpen)
  }

  lemma AskedEarlier(env: Env, options: Options, answers: seq<Answer>, t: nat, notice: Notice)
    requires answers != [] && t < |answers| - 1
    ensures AskedAt(env, options, answers, t, notice) <==> AskedAt(env, options, Before(answers), t, notice)
  {
    hide Judged, KnownOf, Said;
    assert Before(answers)[..t] == answers[..t] && Before(answers)[t] == answers[t];
  }

  lemma AskedLast(env: Env, options: Options, answers: seq<Answer>)
    requires answers != []
    ensures var k, now, n := KnownOf(env, options, Before(answers)), KnownOf(env, options, answers), |answers| - 1;
      && now.pace.accepted == (k.pace.accepted || AskedAt(env, options, answers, n, Acceptance))
      && now.pace.nudges == k.pace.nudges + (if NudgedAt(env, options, answers, n) then 1 else 0)
      && (NudgedAt(env, options, answers, n) ==> k.pace.nudges < MAX_CONTINUE_NUDGES)
      && (AskedAt(env, options, answers, n, Acceptance) ==> !k.pace.accepted)
  {
    hide Judged, KnownOf, Said, KnownBehind;
    var k, c := KnownOf(env, options, Before(answers)), Said(env, Last(answers));
    assert answers[..|answers| - 1] == Before(answers);
    KnownUnfolds(env, options, answers);
    AskingMeans(env, options, k, c);
    PaceBehind(env, options, k, c);
  }

  lemma PaceBehind(env: Env, options: Options, k: Known, c: Collected)
    ensures var verdict, now := Judged(env, options, k, c), KnownBehind(env, options, k, c).pace;
      && now.accepted == (k.pace.accepted || (c.calls == [] && verdict == Ask(Acceptance)))
      && now.nudges
         == k.pace.nudges + (if c.calls == [] && (verdict == Ask(MidStep) || verdict == Ask(PlanOpen)) then 1 else 0)
  {
    hide Judged, ReminderBehind, Is, Plans, TurnsWith, ResultsOf, Observed, AsTurn;
    DroppedAsks(env, options, k, c);
  }

  lemma DroppedAsks(env: Env, options: Options, k: Known, c: Collected)
    ensures c.dropped > 0 ==> Judged(env, options, k, c) == Ask(DroppedCall)
  {
    hide Trailing, OpenItems, AllCalls, Visible, TurnsWith;
  }

  lemma KnownUnfolds(env: Env, options: Options, answers: seq<Answer>)
    requires answers != []
    ensures KnownOf(env, options, answers)
         == KnownBehind(env, options, KnownOf(env, options, Before(answers)), Said(env, Last(answers)))
  {
    hide KnownBehind;
  }

  lemma AskingMeans(env: Env, options: Options, k: Known, c: Collected)
    ensures var verdict := Judged(env, options, k, c);
      && (verdict == Ask(MidStep) || verdict == Ask(PlanOpen) ==> k.pace.nudges < MAX_CONTINUE_NUDGES)
      && (verdict == Ask(Acceptance) ==> !k.pace.accepted)
  {
    hide Trailing, OpenItems, AllCalls, Visible, TurnsWith;
  }

  /** The acceptance nudge counts as asked for exactly if some turn was met by it. */
  lemma {:induction false} AcceptedIff(env: Env, options: Options, answers: seq<Answer>)
    ensures KnownOf(env, options, answers).pace.accepted
       <==> exists t: nat :: AskedAt(env, options, answers, t, Acceptance)
    decreases |answers|
  {
    hide KnownBehind, AskedAt;
    if answers == [] {
      forall t: nat ensures !AskedAt(env, options, answers, t, Acceptance) {
        NothingAsked(env, options, t, Acceptance);
      }
    } else {
      var before, n := Before(answers), |answers| - 1;
      AcceptedIff(env, options, before);
      AskedLast(env, options, answers);
      forall t: nat | t < n
        ensures AskedAt(env, options, answers, t, Acceptance) <==> AskedAt(env, options, before, t, Acceptance)
      {
        AskedEarlier(env, options, answers, t, Acceptance);
      }
      forall t: nat ensures AskedAt(env, options, answers, t, Acceptance) ==> t <= n
      {
        AskedWithin(env, options, answers, t, Acceptance);
      }
      forall t: nat ensures AskedAt(env, options, before, t, Acceptance) ==> t < n
      {
        AskedWithin(env, options, before, t, Acceptance);
      }
    }
  }

  lemma NothingAsked(env: Env, options: Options, t: nat, notice: Notice)
    ensures !AskedAt(env, options, [], t, notice)
  {
  }

  lemma AskedWithin(env: Env, options: Options, answers: seq<Answer>, t: nat, notice: Notice)
    ensures AskedAt(env, options, answers, t, notice) ==> t < |answers|
  {
    hide Judged, KnownOf;
  }

  /** It is asked for at most once in a run. */
  lemma {:induction false} AcceptanceAskedOnce(env: Env, options: Options, answers: seq<Answer>, t: nat, u: nat)
    requires AskedAt(env, options, answers, t, Acceptance) && AskedAt(env, options, answers, u, Acceptance)
    ensures t == u
    decreases |answers|
  {
    hide KnownOf, Judged, Said;
    var before, n := Before(answers), |answers| - 1;
    if t < n && u < n {
      AskedEarlier(env, options, answers, t, Acceptance);
      AskedEarlier(env, options, answers, u, Acceptance);
      AcceptanceAskedOnce(env, options, before, t, u);
    } else if t != u {
      AskedLast(env, options, answers);
      AcceptedIff(env, options, before);
      AskedEarlier(env, options, answers, if t < u then t else u, Acceptance);
    }
  }

  /** Nudges to go on are counted: at most three in a run, and as many as turns that were met by one. */
  lemma {:induction false} NudgesAreCounted(env: Env, options: Options, answers: seq<Answer>, turns: seq<nat>)
    requires forall i :: 0 <= i < |turns| ==> NudgedAt(env, options, answers, turns[i])
    requires forall i, j :: 0 <= i < j < |turns| ==> turns[i] < turns[j]
    ensures |turns| <= KnownOf(env, options, answers).pace.nudges <= MAX_CONTINUE_NUDGES
    decreases |answers|
  {
    hide KnownBehind, NudgedAt;
    if answers == [] {
      if turns != [] {
        NudgedEarlier(env, options, answers, turns[0]);
      }
    } else {
      var before, n := Before(answers), |answers| - 1;
      var rest := if turns != [] && turns[|turns| - 1] == n then turns[..|turns| - 1] else turns;
      forall i | 0 <= i < |turns| ensures turns[i] <= n && (turns[i] < n ==> NudgedAt(env, options, before, turns[i])) {
        NudgedEarlier(env, options, answers, turns[i]);
      }
      forall i | 0 <= i < |rest| ensures NudgedAt(env, options, before, rest[i]) {
        assert rest[i] == turns[i];
      }
      NudgesAreCounted(env, options, before, rest);
      AskedLast(env, options, answers);
    }
  }

  lemma NudgedEarlier(env: Env, options: Options, answers: seq<Answer>, t: nat)
    requires NudgedAt(env, options, answers, t)
    ensures t < |answers| && (t < |answers| - 1 ==> NudgedAt(env, options, Before(answers), t))
  {
    hide KnownOf, Judged, Said;
    if t < |answers| - 1 {
      AskedEarlier(env, options, answers, t, MidStep);
      AskedEarlier(env, options, answers, t, PlanOpen);
    }
  }

  /** And the turns can be named. */
  lemma {:induction false} NudgesAreTold(env: Env, options: Options, answers: seq<Answer>) returns (turns: seq<nat>)
    ensures |turns| == KnownOf(env, options, answers).pace.nudges
    ensures forall i :: 0 <= i < |turns| ==> NudgedAt(env, options, answers, turns[i]) && turns[i] < |answers|
    ensures forall i, j :: 0 <= i < j < |turns| ==> turns[i] < turns[j]
    decreases |answers|
  {
    hide KnownBehind, NudgedAt;
    turns := [];
    if answers != [] {
      var n := |answers| - 1;
      turns := NudgesAreTold(env, options, Before(answers));
      AskedLast(env, options, answers);
      forall i | 0 <= i < |turns| ensures NudgedAt(env, options, answers, turns[i]) {
        NudgedLater(env, options, answers, turns[i]);
      }
      if NudgedAt(env, options, answers, n) {
        turns := turns + [n];
      }
    }
  }

  lemma NudgedLater(env: Env, options: Options, answers: seq<Answer>, t: nat)
    requires answers != [] && NudgedAt(env, options, Before(answers), t)
    ensures NudgedAt(env, options, answers, t)
  {
    hide KnownOf, Judged, Said;
    AskedEarlier(env, options, answers, t, MidStep);
    AskedEarlier(env, options, answers, t, PlanOpen);
  }

  // ---- why a run goes on, and why it stops ----

  /** Three turns were met by a nudge to go on. */
  ghost predicate ThreeNudged(env: Env, options: Options, answers: seq<Answer>) {
    exists a: nat, b: nat, c: nat ::
      && a < b < c && NudgedAt(env, options, answers, a)
      && NudgedAt(env, options, answers, b) && NudgedAt(env, options, answers, c)
  }

  lemma NudgesSpentIff(env: Env, options: Options, answers: seq<Answer>)
    ensures KnownOf(env, options, answers).pace.nudges >= MAX_CONTINUE_NUDGES <==> ThreeNudged(env, options, answers)
  {
    hide NudgedAt, KnownOf;
    var turns := NudgesAreTold(env, options, answers);
    if |turns| >= MAX_CONTINUE_NUDGES {
      assert turns[0] < turns[1] < turns[2];
    }
    if ThreeNudged(env, options, answers) {
      var a: nat, b: nat, c: nat :|
        && a < b < c && NudgedAt(env, options, answers, a)
        && NudgedAt(env, options, answers, b) && NudgedAt(env, options, answers, c);
      NudgesAreCounted(env, options, answers, [a, b, c]);
    }
  }

  lemma AcceptanceAskedIff(env: Env, options: Options, answers: seq<Answer>)
    ensures KnownOf(env, options, answers).pace.accepted
       <==> exists t: nat :: AskedAt(env, options, answers, t, Acceptance)
  {
    hide KnownOf, AskedAt;
    AcceptedIff(env, options, answers);
  }

  /** A turn without calls answers the run exactly if no call of it was dropped, its text shows, the edits have
      brought no error, and under the completion gate: the text neither gives up nor ends in mid-step, the plan
      is done or three nudges are spent, and the acceptance nudge has been asked for. */
  lemma AnsweredIff(env: Env, options: Options, answers: seq<Answer>, c: Collected)
    requires c.calls == []
    ensures
      var k := KnownOf(env, options, answers);
      Judged(env, options, k, c) == Stop(Halt(Answered, c.text)) <==>
        && c.dropped == 0 && Visible(c.text) && env.drainFinal(k.turn) == ""
        && (options.requireCompletion ==>
              && !env.admits(c.text) && !env.midStep(c.text)
              && (OpenItems(env.remaining, AllCalls(k.turns)) > 0 ==> ThreeNudged(env, options, answers))
              && (options.selfCorrect ==> exists t: nat :: AskedAt(env, options, answers, t, Acceptance)))
  {
    hide KnownOf, AskedAt, ThreeNudged, OpenItems, AllCalls, Visible, Trailing;
    var k := KnownOf(env, options, answers);
    NudgesSpentIff(env, options, answers);
    AcceptanceAskedIff(env, options, answers);
    TextIsNoCalls(env, k, c);
  }

  /** It gives up exactly if the text says so, or ends in mid-step for all three nudges. */
  lemma IncompleteIff(env: Env, options: Options, answers: seq<Answer>, c: Collected)
    requires c.calls == []
    ensures
      Judged(env, options, KnownOf(env, options, answers), c) == Stop(Halt(Incomplete, c.text)) <==>
        && c.dropped == 0 && Visible(c.text) && options.requireCompletion
        && (env.admits(c.text) || (env.midStep(c.text) && ThreeNudged(env, options, answers)))
  {
    hide KnownOf, AskedAt, ThreeNudged, OpenItems, AllCalls, Visible, Trailing;
    var k := KnownOf(env, options, answers);
    NudgesSpentIff(env, options, answers);
    TextIsNoCalls(env, k, c);
  }

  /** A nudge to go on is given exactly if the gate is on, the text does not give up but ends in mid-step or
      the plan is open, and three nudges are not yet spent. */
  lemma NudgedIff(env: Env, options: Options, answers: seq<Answer>, c: Collected)
    requires c.calls == []
    ensures
      var k := KnownOf(env, options, answers);
      var verdict := Judged(env, options, k, c);
      var open := OpenItems(env.remaining, AllCalls(k.turns)) > 0;
      var gated := c.dropped == 0 && Visible(c.text) && options.requireCompletion && !env.admits(c.text);
      && (verdict == Ask(MidStep) <==> gated && env.midStep(c.text) && !ThreeNudged(env, options, answers))
      && (verdict == Ask(PlanOpen) <==> gated && !env.midStep(c.text) && open && !ThreeNudged(env, options, answers))
      && (verdict == Ask(Acceptance) <==>
            gated && options.selfCorrect && !env.midStep(c.text) && (open ==> ThreeNudged(env, options, answers))
            && !exists t: nat :: AskedAt(env, options, answers, t, Acceptance))
  {
    hide KnownOf, AskedAt, ThreeNudged, OpenItems, AllCalls, Visible, Trailing;
    var k := KnownOf(env, options, answers);
    NudgesSpentIff(env, options, answers);
    AcceptanceAskedIff(env, options, answers);
    TextIsNoCalls(env, k, c);
  }

  predicate SaysNothing(t: Turn) {
    t.calls == [] && !t.visible && !t.reasoning
  }

  /** The run is given up for its silence exactly if this turn and the two before it, those with a dropped
      call set aside, had neither text nor calls nor reasoning. */
  lemma SilenceIff(env: Env, options: Options, k: Known, c: Collected)
    requires c.calls == []
    ensures
      var turns := k.turns + [AsTurn(c)];
      Judged(env, options, k, c) == Stop(Halt(NoOutputHalt, env.words(NoOutputStop(k.turn + 1)))) <==>
        c.dropped == 0 && |turns| >= 3 && forall i :: |turns| - 3 <= i < |turns| ==> SaysNothing(turns[i])
  {
    hide OpenItems, AllCalls, Visible, Trailing;
    var turns := k.turns + [AsTurn(c)];
    TrailingWithin(turns, Empty);
    if |turns| >= 3 {
      TrailingIsLongest(turns, Empty, 3);
    }
  }

  lemma {:induction false} TrailingWithin(turns: seq<Turn>, kind: Kind)
    ensures Trailing(turns, kind) <= |turns|
    decreases |turns|
  {
    if turns != [] {
      TrailingWithin(turns[..|turns| - 1], kind);
    }
  }

  /** A visible text ends no stretch of empty turns, and adds no call. */
  lemma TextIsNoCalls(env: Env, k: Known, c: Collected)
    requires c.calls == []
    ensures AllCalls(TurnsWith(k, c)) == AllCalls(k.turns)
    ensures c.dropped == 0 && Visible(c.text) ==> Trailing(TurnsWith(k, c), Empty) == 0
  {
    hide Visible;
    AllCallsSnoc(k.turns, AsTurn(c));
    TrailingSnoc(k.turns, AsTurn(c), Empty);
  }

  /** As long as a run goes on no tool has failed six times in a row with one error. */
  lemma {:induction false} GoesOnWithoutSix(o: Origin, options: Options, trace: seq<Step>, answers: seq<Answer>)
    requires TurnByTurn(o, options, trace, answers)
    ensures forall i: nat :: !StopsOn(KnownOf(o.env, options, answers).seen, i)
    ensures forall tool, at: nat :: !SixInARow(KnownOf(o.env, options, answers).seen, tool, at)
    decreases |answers|
  {
    hide Taken, StopsOn, SixInARow, LiveRun, UserSteps, SaidBehind, KnownBehind, GoesOn, Said;
    var seen := KnownOf(o.env, options, answers).seen;
    if answers == [] {
      NoStopYet();
    } else {
      var before, a := Before(answers), Last(answers);
      TakenBounds(o, options, trace, answers, |Said(o.env, a).calls|);
      GoesOnWithoutSix(o, options, trace[..a.from], before);
      StreaksStayShort(o.env, options, KnownOf(o.env, options, before), Said(o.env, a));
    }
    StopsExactlyOnSix(seen);
  }

  lemma NoStopYet()
    ensures forall i: nat :: !StopsOn([], i)
  {
  }

  lemma StreaksStayShort(env: Env, options: Options, k: Known, c: Collected)
    requires GoesOn(env, options, k, c) && forall i: nat :: !StopsOn(k.seen, i)
    ensures forall i: nat :: !StopsOn(KnownBehind(env, options, k, c).seen, i)
  {
    hide Judged, Asking, Telling, ReminderBehind, Own, Streak;
    if c.calls != [] {
      forall i: nat ensures !StopsOn(KnownBehind(env, options, k, c).seen, i) {
        BatchStaysShort(env, k.turn, c.calls, k.seen, |c.calls|, i);
      }
    }
  }

  /** Observations of a batch that reached its call `n`. */
  lemma BatchStaysShort(env: Env, turn: nat, calls: seq<ToolCall>, seen: seq<Observation>, n: nat, i: nat)
    requires GoesTo(env, turn, calls, seen, n) && !StopsOn(seen, i)
    ensures !StopsOn(seen + Observed(calls, ResultsOf(env, turn, calls, n)), i)
  {
    hide Own, Streak;
    var results := ResultsOf(env, turn, calls, n);
    var now := seen + Observed(calls, results);
    if i < |seen| {
      assert now[..i + 1] == seen[..i + 1];
    } else if i < |now| {
      var m := i - |seen| + 1;
      ObservedPrefix(env, turn, calls, n, m);
      assert now[..i + 1] == seen + Observed(calls, ResultsOf(env, turn, calls, m));
      assert !Halts(env, turn, calls, seen, ResultsOf(env, turn, calls, m));
    }
  }

  lemma ObservedPrefix(env: Env, turn: nat, calls: seq<ToolCall>, n: nat, m: nat)
    requires m <= n <= |calls|
    ensures Observed(calls, ResultsOf(env, turn, calls, n))[..m] == Observed(calls, ResultsOf(env, turn, calls, m))
  {
  }

  /** The result in front of call `executed` is the first at which a tool has failed six times in a row with one
      error, and the tool is this. */
  ghost predicate FirstSixth(env: Env, k: Known, c: Collected, executed: nat, tool: ToolName) {
    && 0 < executed <= |c.calls|
    && var seen := k.seen + Observed(c.calls, ResultsOf(env, k.turn, c.calls, executed));
       && StopsOn(seen, |seen| - 1) && seen[|seen| - 1].tool == tool
       && forall i: nat :: i < |seen| - 1 ==> !StopsOn(seen, i)
  }

  /** A run stopped by the failure guard is stopped by the sixth failure, and by the first such sixth there is. */
  lemma GuardStopsAtTheSixth(o: Origin, options: Options, trace: seq<Step>, answers: seq<Answer>, executed: nat,
                             sent: seq<History>, out: RunResult)
    requires answers != [] && EndsInAnswer(o, options, trace, answers, executed, sent, out) && out.how.GuardHalt?
    ensures FirstSixth(o.env, KnownOf(o.env, options, Before(answers)), Said(o.env, Last(answers)), executed,
                       out.how.tool)
  {
    hide LiveRun, KnownOf, Said, TurnByTurn, Own, Streak, Halting, EndsInAnswer, StopsOn, StopsAt, FirstSixth;
    EndingParts(o, options, trace, answers, executed, sent, out);
    var before, a := Before(answers), Last(answers);
    var k, c := KnownOf(o.env, options, before), Said(o.env, a);
    GoesOnWithoutSix(o, options, trace[..a.from], before);
    StopIsSixth(o.env, k, c, executed, Halt(out.how, out.finalAnswer), options);
  }

  lemma EndingParts(o: Origin, options: Options, trace: seq<Step>, answers: seq<Answer>, executed: nat,
                        sent: seq<History>, out: RunResult)
    requires EndsInAnswer(o, options, trace, answers, executed, sent, out)
    ensures answers != [] && Last(answers).from <= |trace|
    ensures TurnByTurn(o, options, trace[..Last(answers).from], Before(answers))
    ensures var k, c := KnownOf(o.env, options, Before(answers)), Said(o.env, Last(answers));
      && StopsAt(o.env, k.turn, c.calls, k.seen, executed)
      && Halting(o.env, options, k, c, executed, Halt(out.how, out.finalAnswer))
  {
    hide LiveRun, KnownOf, Said, TurnByTurn, Halting, StopsAt, BatchBlock, Opens, Opened, GaugeOf, ConnectsOf, SentOf;
  }

  lemma StopIsSixth(env: Env, k: Known, c: Collected, executed: nat, halt: Halt, options: Options)
    requires StopsAt(env, k.turn, c.calls, k.seen, executed) && Halting(env, options, k, c, executed, halt)
    requires halt.how.GuardHalt? && forall i: nat :: !StopsOn(k.seen, i)
    ensures FirstSixth(env, k, c, executed, halt.how.tool)
  {
    hide Own, Streak, Halting, Judged, Halts, ResultsOf;
    GuardTells(env, k, c, executed, halt, options);
    var n := executed - 1;
    var seen := k.seen + Observed(c.calls, ResultsOf(env, k.turn, c.calls, executed));
    var less := k.seen + Observed(c.calls, ResultsOf(env, k.turn, c.calls, n));
    assert seen[..|seen|] == seen;
    ObservedPrefix(env, k.turn, c.calls, executed, n);
    forall i: nat | i < |seen| - 1 ensures !StopsOn(seen, i) {
      BatchStaysShort(env, k.turn, c.calls, k.seen, n, i);
      assert seen[..i + 1] == less[..i + 1];
    }
  }

  lemma GuardTells(env: Env, k: Known, c: Collected, executed: nat, halt: Halt, options: Options)
    requires Halting(env, options, k, c, executed, halt) && halt.how.GuardHalt?
    ensures 0 < executed <= |c.calls| && c.calls[executed - 1].name == halt.how.tool
    ensures Streak(Own(k.seen + Observed(c.calls, ResultsOf(env, k.turn, c.calls, executed)), halt.how.tool)) >= STOP_AT
  {
    hide Own, Streak, Judged, Halts, Observed, ResultsOf;
    JudgedNoGuard(env, options, k, c);
  }

  lemma JudgedNoGuard(env: Env, options: Options, k: Known, c: Collected)
    ensures var verdict := Judged(env, options, k, c); verdict.Stop? ==> !verdict.halt.how.GuardHalt?
  {
    hide Trailing, OpenItems, AllCalls, Visible, TurnsWith;
  }

  /** Without a context window the history is the start and all that was said. */
  lemma {:induction false} PlainRunKeepsAll(o: Origin, options: Options, trace: seq<Step>, answers: seq<Answer>)
    requires TurnByTurn(o, options, trace, answers) && options.contextWindow <= 0
    ensures LiveAt(o, trace) == o.start + Conversed(o.env, options, answers)
    ensures !GaugeOf(options, answers).enabled
    decreases |answers|
  {
    hide Opened, UserSteps, Taken, SaidBehind, GoesOn, BatchBlock, StopsAt, Said, Drained, WholeBlock, LiveRun;
    if answers == [] {
      NothingLives(o);
    } else {
      var before, a := Before(answers), Last(answers);
      TakenBounds(o, options, trace, answers, |Said(o.env, a).calls|);
      PlainRunKeepsAll(o, options, trace[..a.from], before);
      PlainTurn(o, options, trace, answers);
    }
  }

  lemma NothingLives(o: Origin)
    ensures LiveAt(o, []) == o.start + []
  {
  }

  lemma PlainTurn(o: Origin, options: Options, trace: seq<Step>, answers: seq<Answer>)
    requires TurnByTurn(o, options, trace, answers) && answers != [] && Last(answers).from <= |trace|
    requires !GaugeOf(options, Before(answers)).enabled
    requires LiveAt(o, trace[..Last(answers).from]) == o.start + Conversed(o.env, options, Before(answers))
    ensures LiveAt(o, trace) == o.start + Conversed(o.env, options, answers)
    ensures !GaugeOf(options, answers).enabled
  {
    hide Opened, UserSteps, Taken, SaidBehind, GoesOn, StopsAt, BatchBlock, Said, Drained, WholeBlock, LiveRun,
         KnownOf, ConnectsOf;
    var before, a := Before(answers), Last(answers);
    var k, c := KnownOf(o.env, options, before), Said(o.env, a);
    TakenBounds(o, options, trace, answers, |c.calls|);
    TakenIsNext(o, options, trace, answers, |c.calls|);
    OpenedPlain(o, k.turn, LiveAt(o, trace[..a.from]), ConnectsOf(before), GaugeOf(options, before), SentOf(before));
    WholeIsBlock(o.env, k.turn, c, trace[a.at].more);
    TurnLives(o, trace, a.at, SaidBehind(o.env, options, k, c));
    ConversedMore(o.env, options, answers);
  }

  /** And so it returns all of it: no message of a run without a context window is ever lost or changed. */
  lemma PlainRunReturnsAll(o: Origin, options: Options, trace: seq<Step>, answers: seq<Answer>, sent: seq<History>,
                      out: RunResult)
    requires Ends(o, options, trace, answers, sent, out) && options.contextWindow <= 0
    ensures out.messages == o.start + Appended(trace)
  {
    hide LiveRun, EndsInAnswer, EndsInCall, EndsUsedUp, Appended;
    if executed :| EndsInAnswer(o, options, trace, answers, executed, sent, out) {
      EndingParts(o, options, trace, answers, executed, sent, out);
      PlainAnswerEnd(o, options, trace, answers, executed, sent, out);
    } else {
      var from :| EndsInCall(o, options, trace, answers, from, sent, out)
                  || EndsUsedUp(o, options, trace, answers, from, sent, out);
      if EndsInCall(o, options, trace, answers, from, sent, out) {
        PlainCallEnd(o, options, trace, answers, from, sent, out);
      } else {
        PlainLimitEnd(o, options, trace, answers, from, sent, out);
      }
    }
  }

  lemma PlainSoFar(o: Origin, options: Options, trace: seq<Step>, answers: seq<Answer>)
    requires TurnByTurn(o, options, trace, answers) && options.contextWindow <= 0
    ensures LiveAt(o, trace) == o.start + Appended(trace) && !GaugeOf(options, answers).enabled
  {
    hide LiveRun, TurnByTurn, Appended, Conversed;
    PlainRunKeepsAll(o, options, trace, answers);
    CourseAppends(o, options, trace, answers);
  }

  lemma PlainAnswerEnd(o: Origin, options: Options, trace: seq<Step>, answers: seq<Answer>, executed: nat,
                        sent: seq<History>, out: RunResult)
    requires answers != [] && EndsInAnswer(o, options, trace, answers, executed, sent, out)
             && options.contextWindow <= 0
    requires Last(answers).from <= |trace| && TurnByTurn(o, options, trace[..Last(answers).from], Before(answers))
    ensures LiveAt(o, trace) == o.start + Appended(trace)
  {
    hide LiveRun, TurnByTurn, Taken, Halting, Appended, Opened, Opens, KnownOf, GaugeOf, ConnectsOf, SentOf, Drained,
         BatchBlock, Said;
    var before, a := Before(answers), Last(answers);
    var k := KnownOf(o.env, options, before);
    PlainSoFar(o, options, trace[..a.from], before);
    TakenSays(o, options, trace, answers, executed);
    TakenIsNext(o, options, trace, answers, executed);
    OpenedPlain(o, k.turn, LiveAt(o, trace[..a.from]), ConnectsOf(before), GaugeOf(options, before), SentOf(before));
    OpeningAppends(o.env, k.turn, trace[..a.from], trace[..a.at]);
    assert trace[a.at + 1..] == UserSteps([]);
    TurnLives(o, trace, a.at, []);
    TurnAppends(trace, a.at, []);
  }

  lemma PlainCallEnd(o: Origin, options: Options, trace: seq<Step>, answers: seq<Answer>, from: nat,
                      sent: seq<History>, out: RunResult)
    requires EndsInCall(o, options, trace, answers, from, sent, out) && options.contextWindow <= 0
    ensures LiveAt(o, trace) == o.start + Appended(trace)
  {
    hide LiveRun, TurnByTurn, Appended, Opened, Opens, GaugeOf, ConnectsOf, SentOf, Drained;
    PlainSoFar(o, options, trace[..from], answers);
    OpenedPlain(o, |answers|, LiveAt(o, trace[..from]), ConnectsOf(answers), GaugeOf(options, answers),
                SentOf(answers));
    OpeningAppends(o.env, |answers|, trace[..from], trace);
  }

  lemma PlainLimitEnd(o: Origin, options: Options, trace: seq<Step>, answers: seq<Answer>, from: nat,
                      sent: seq<History>, out: RunResult)
    requires EndsUsedUp(o, options, trace, answers, from, sent, out) && options.contextWindow <= 0
    ensures LiveAt(o, trace) == o.start + Appended(trace)
  {
    hide LiveRun, TurnByTurn, Appended, ClosingSteps, ClosingWords, Visible, Streaming;
    PlainSoFar(o, options, trace[..from], answers);
    var r := Streaming(o.env.classifier, o.env.link, ConnectsOf(answers), MAX_RECONNECTS).0;
    if !o.env.alive(out.turns, 0) {
      assert trace == trace[..from];
    } else {
      assert trace == trace[..from] + ClosingSteps(o.env, out.turns, r);
      ClosingLives(o, trace[..from], out.turns, r);
      AppendedConcat(trace[..from], ClosingSteps(o.env, out.turns, r));
      ClosingAppends(o.env, out.turns, r);
    }
  }

  lemma ClosingAppends(env: Env, turns: nat, r: Result<Collected>)
    ensures Appended(ClosingSteps(env, turns, r)) == ClosingWords(env, turns, r)
  {
    hide Visible, Pushed, UserSteps;
    var drained := Pushed(env.drainFinal(turns) != "", env.drainFinal(turns));
    AppendedUsers(drained);
    if Closed(env, turns, r) {
      var ask, answer := UserMessage(env.words(LastPrompt)), AssistantMessage(r.value.text, []);
      AppendedConcat(UserSteps(drained), [Append([ask]), Append([answer])]);
      AppendedTwo([ask], [answer]);
      assert [ask] + [answer] == [ask, answer];
    } else {
      assert UserSteps(drained) + [] == UserSteps(drained);
    }
  }

  lemma AppendedTwo(a: seq<Message>, b: seq<Message>)
    ensures Appended([Append(a), Append(b)]) == a + b
  {
    var both, one := [Append(a), Append(b)], [Append(a)];
    assert both[..1] == one && one[..0] == [];
    assert Appended(one) == Appended([]) + a == a;
  }

  // ---- what is said behind a batch ----

  predicate Changed(env: Env, turn: nat, c: Collected, i: int) {
    0 <= i < |c.calls| && env.execute(turn, i, c.calls[i]).changed
  }

  /** The first model any result asks for. */
  predicate FirstModel(env: Env, turn: nat, c: Collected, i: int) {
    && 0 <= i < |c.calls| && env.execute(turn, i, c.calls[i]).requestedModel != ""
    && forall j :: 0 <= j < i ==> env.execute(turn, j, c.calls[j]).requestedModel == ""
  }

  /** Behind a batch the loop says these things and no others: the self-correction feedback if any call changed
      files, that the switch to the first model asked for failed, that a call was dropped, the hint for the
      first tool to fail alike a second time, and a reminder only if there is no hint. */
  lemma WhatIsSaid(env: Env, options: Options, k: Known, c: Collected, text: string)
    requires c.calls != []
    ensures UserMessage(text) in SaidBehind(env, options, k, c) <==>
      || (options.selfCorrect && (exists i :: Changed(env, k.turn, c, i)) && text == env.feedback(k.turn) != "")
      || (exists i :: FirstModel(env, k.turn, c, i) && FailedSwitch(env, options, k.turn, c, i, text))
      || (c.dropped > 0 && text == env.words(DroppedCall))
      || (exists i :: FirstHint(env, k.turn, c.calls, k.seen, |c.calls|, i)
                      && text == env.words(FailureHint(c.calls[i].name, env.execute(k.turn, i, c.calls[i]).output)))
      || ((forall i :: !Hints(env, k.turn, c.calls, k.seen, i)) && RemindedBy(env, k, c, text))
  {
    hide Hints, RemindedBy, BatchOf, Reminding;
    var batch := WholeBatch(env, k, c);
    BatchOfTells(env, k.turn, c.calls, k.seen, |c.calls|);
    ChangedIff(env, k, c, batch);
    SwitchIff(env, options, k, c, batch, text);
    HintIff(env, k, c, batch, text);
    SaidInParts(env, options, k, c, text);
  }

  predicate FailedSwitch(env: Env, options: Options, turn: nat, c: Collected, i: int, text: string)
    requires 0 <= i < |c.calls|
  {
    var name := env.execute(turn, i, c.calls[i]).requestedModel;
    options.switcher && env.switchFails(turn, name) && text == env.words(SwitchFailed(name))
  }

  predicate RemindedBy(env: Env, k: Known, c: Collected, text: string) {
    var reminder := Reminding(env, TurnsWith(k, c), k.turn, Observing(k.pace, AsTurn(c)));
    reminder != NoReminder && text == env.words(Remind(reminder))
  }

  lemma ChangedIff(env: Env, k: Known, c: Collected, batch: Batch)
    requires BatchTells(env, k.turn, c.calls, k.seen, |c.calls|, batch)
    ensures batch.changed <==> exists i :: Changed(env, k.turn, c, i)
  {
    hide FirstRequest, FirstHint, Hints;
    var results := ResultsOf(env, k.turn, c.calls, |c.calls|);
    assert forall i :: 0 <= i < |c.calls| ==> (results[i].changed <==> Changed(env, k.turn, c, i));
  }

  lemma SwitchIff(env: Env, options: Options, k: Known, c: Collected, batch: Batch, text: string)
    requires BatchTells(env, k.turn, c.calls, k.seen, |c.calls|, batch)
    ensures (exists i :: FirstModel(env, k.turn, c, i) && FailedSwitch(env, options, k.turn, c, i, text))
       <==> batch.requestedModel != "" && options.switcher && env.switchFails(k.turn, batch.requestedModel)
            && text == env.words(SwitchFailed(batch.requestedModel))
  {
    hide FirstHint, Hints;
    var results := ResultsOf(env, k.turn, c.calls, |c.calls|);
    forall i ensures FirstModel(env, k.turn, c, i) <==> FirstRequest(results, i) {
      assert forall j :: 0 <= j < |c.calls| ==> results[j] == env.execute(k.turn, j, c.calls[j]);
      if FirstModel(env, k.turn, c, i) {
        assert forall j :: 0 <= j < i ==> env.execute(k.turn, j, c.calls[j]).requestedModel == "";
      }
    }
    if batch.requestedModel != "" {
      var i :| FirstRequest(results, i) && batch.requestedModel == results[i].requestedModel;
      assert FirstModel(env, k.turn, c, i);
      forall j | FirstModel(env, k.turn, c, j) ensures j == i {
        assert FirstRequest(results, j);
      }
    }
  }

  lemma HintIff(env: Env, k: Known, c: Collected, batch: Batch, text: string)
    requires BatchTells(env, k.turn, c.calls, k.seen, |c.calls|, batch)
    ensures batch.hint.None? <==> forall i :: !Hints(env, k.turn, c.calls, k.seen, i)
    ensures batch.hint.Some? && text == env.words(batch.hint.value) <==>
      exists i :: FirstHint(env, k.turn, c.calls, k.seen, |c.calls|, i)
                  && text == env.words(FailureHint(c.calls[i].name, env.execute(k.turn, i, c.calls[i]).output))
  {
    hide FirstRequest;
    var results := ResultsOf(env, k.turn, c.calls, |c.calls|);
    if batch.hint.Some? {
      var i :| FirstHint(env, k.turn, c.calls, k.seen, |c.calls|, i)
               && batch.hint == Some(FailureHint(c.calls[i].name, results[i].output));
      forall j | FirstHint(env, k.turn, c.calls, k.seen, |c.calls|, j) ensures j == i {
      }
    }
  }

  lemma SaidInParts(env: Env, options: Options, k: Known, c: Collected, text: string)
    requires c.calls != []
    ensures var batch := WholeBatch(env, k, c);
      UserMessage(text) in SaidBehind(env, options, k, c) <==>
        || (options.selfCorrect && batch.changed && text == env.feedback(k.turn) != "")
        || (batch.requestedModel != "" && options.switcher && env.switchFails(k.turn, batch.requestedModel)
            && text == env.words(SwitchFailed(batch.requestedModel)))
        || (c.dropped > 0 && text == env.words(DroppedCall))
        || (batch.hint.Some? && text == env.words(batch.hint.value))
        || (batch.hint.None? && RemindedBy(env, k, c, text))
  {
    hide WholeBatch, Reminding, Observing, Pushed, RemindedBy;
    var m, batch := UserMessage(text), WholeBatch(env, k, c);
    var remarks := Remarks(env, options, k.turn, batch, c.dropped);
    var prompt := Prompt(env, batch.hint, ReminderBehind(env, k, c));
    RemarksSay(env, options, k.turn, batch, c.dropped, text);
    PromptSays(env, k, c, text);
    assert m in remarks + prompt <==> m in remarks || m in prompt;
  }

  lemma RemarksSay(env: Env, options: Options, turn: nat, batch: Batch, dropped: nat, text: string)
    ensures UserMessage(text) in Remarks(env, options, turn, batch, dropped) <==>
      || (options.selfCorrect && batch.changed && text == env.feedback(turn) != "")
      || (batch.requestedModel != "" && options.switcher && env.switchFails(turn, batch.requestedModel)
          && text == env.words(SwitchFailed(batch.requestedModel)))
      || (dropped > 0 && text == env.words(DroppedCall))
  {
    hide Pushed;
    var feeds := options.selfCorrect && batch.changed && env.feedback(turn) != "";
    var switch := batch.requestedModel != "" && options.switcher && env.switchFails(turn, batch.requestedModel);
    PushedSays(feeds, env.feedback(turn), text);
    PushedSays(switch, env.words(SwitchFailed(batch.requestedModel)), text);
    PushedSays(dropped > 0, env.words(DroppedCall), text);
  }

  lemma PromptSays(env: Env, k: Known, c: Collected, text: string)
    ensures var batch := WholeBatch(env, k, c);
      UserMessage(text) in Prompt(env, batch.hint, ReminderBehind(env, k, c)) <==>
        || (batch.hint.Some? && text == env.words(batch.hint.value))
        || (batch.hint.None? && RemindedBy(env, k, c, text))
  {
    hide WholeBatch, Reminding, Observing, Pushed;
    PushedSays(!ReminderBehind(env, k, c).NoReminder?, env.words(Remind(ReminderBehind(env, k, c))), text);
  }

  lemma PushedSays(when: bool, said: string, text: string)
    ensures UserMessage(text) in Pushed(when, said) <==> when && text == said
  {
  }
}
