/** The loop's guards (guardrails.go): every counter is what the history of observations says. */
module Guard {
  import opened Basics
  import opened Transcript

  const HINT_AT := 2
  const STOP_AT := 6
  const MAX_EMPTY_TURNS := 3
  const TOOL_ONLY_REMINDER_AT := 6
  const PLAN_REMINDER_TURN := 3
  const STALE_TOOL_CALLS := 10
  const STALE_TURNS := 8

  // ---- repeated failures, as history tells them ----

  /** One result of a tool; `sign` is the normalized error text. */
  datatype Observation = Observation(tool: ToolName, failed: bool, sign: string)

  /** The observations of one tool. */
  function Own(seen: seq<Observation>, tool: ToolName): seq<Observation> {
    if seen == [] then []
    else Own(seen[..|seen| - 1], tool) + if seen[|seen| - 1].tool == tool then [seen[|seen| - 1]] else []
  }

  /** The last `k` are failures with one signature. */
  predicate SameFailures(own: seq<Observation>, k: nat) {
    && k <= |own|
    && forall i :: |own| - k <= i < |own| ==> own[i].failed && own[i].sign == own[|own| - 1].sign
  }

  /** The longest trailing run of failures with one signature. */
  function Streak(own: seq<Observation>): nat {
    if own == [] || !own[|own| - 1].failed then 0
    else
      var rest := own[..|own| - 1];
      if rest != [] && rest[|rest| - 1].failed && rest[|rest| - 1].sign == own[|own| - 1].sign then 1 + Streak(rest)
      else 1
  }

  lemma {:induction false} StreakStops(own: seq<Observation>)
    ensures SameFailures(own, Streak(own))
    ensures Streak(own) < |own| ==> !SameFailures(own, Streak(own) + 1)
    decreases |own|
  {
    if own != [] && own[|own| - 1].failed {
      var rest := own[..|own| - 1];
      StreakStops(rest);
      var k := Streak(own);
      if k < |own| && SameFailures(own, k + 1) && k > 1 {
        assert forall i :: |own| - k - 1 <= i < |rest| ==> rest[i] == own[i];
        assert SameFailures(rest, k);
      }
    }
  }

  /** The streak is the length of the longest such run. */
  lemma StreakIsLongest(own: seq<Observation>, k: nat)
    ensures SameFailures(own, k) <==> k <= Streak(own)
  {
    StreakStops(own);
    if SameFailures(own, k) && k > Streak(own) {
      assert SameFailures(own, Streak(own) + 1);
    }
  }

  lemma OwnSnoc(seen: seq<Observation>, o: Observation, tool: ToolName)
    ensures Own(seen + [o], tool) == if o.tool == tool then Own(seen, tool) + [o] else Own(seen, tool)
  {
    assert (seen + [o])[..|seen|] == seen;
  }

  lemma StreakSnoc(own: seq<Observation>, o: Observation)
    ensures Streak(own + [o]) ==
      if !o.failed then 0
      else if own != [] && own[|own| - 1].failed && own[|own| - 1].sign == o.sign then 1 + Streak(own)
      else 1
  {
    assert (own + [o])[..|own|] == own;
  }

  /** Somewhere in its own history, the tool failed six times in a row with one signature. */
  ghost predicate SixInARow(seen: seq<Observation>, tool: ToolName, at: nat) {
    at < |Own(seen, tool)| && SameFailures(Own(seen, tool)[..at + 1], 6)
  }

  /** The guard stops on observation `i`. */
  ghost predicate StopsOn(seen: seq<Observation>, i: nat) {
    i < |seen| && Streak(Own(seen[..i + 1], seen[i].tool)) >= STOP_AT
  }

  /** Where the k-th observation of a tool stands in the interleaving. */
  lemma {:induction false} PlaceOf(seen: seq<Observation>, tool: ToolName, k: nat) returns (i: nat)
    requires k < |Own(seen, tool)|
    ensures i < |seen| && seen[i].tool == tool && Own(seen[..i + 1], tool) == Own(seen, tool)[..k + 1]
    decreases |seen|
  {
    var before := seen[..|seen| - 1];
    if k < |Own(before, tool)| {
      i := PlaceOf(before, tool, k);
      assert seen[..i + 1] == before[..i + 1];
      assert Own(seen, tool)[..k + 1] == Own(before, tool)[..k + 1];
    } else {
      i := |seen| - 1;
      assert seen[..i + 1] == seen;
    }
  }

  lemma {:induction false} PlaceIn(seen: seq<Observation>, tool: ToolName, i: nat) returns (k: nat)
    requires i < |seen| && seen[i].tool == tool
    ensures k < |Own(seen, tool)| && Own(seen[..i + 1], tool) == Own(seen, tool)[..k + 1]
    decreases |seen|
  {
    var before := seen[..|seen| - 1];
    if i < |before| {
      k := PlaceIn(before, tool, i);
      assert seen[..i + 1] == before[..i + 1];
      assert Own(seen, tool)[..k + 1] == Own(before, tool)[..k + 1];
    } else {
      k := |Own(seen, tool)| - 1;
      assert seen[..i + 1] == seen;
    }
  }

  /** However the tools' results interleave: the guard stops a run if and only if some tool failed
      six times in a row, in its own history, with one and the same error. */
  lemma StopsExactlyOnSix(seen: seq<Observation>)
    ensures (exists i: nat :: StopsOn(seen, i)) <==> (exists tool, at: nat :: SixInARow(seen, tool, at))
  {
    hide Own;
    if i: nat :| StopsOn(seen, i) {
      var k := PlaceIn(seen, seen[i].tool, i);
      StreakIsLongest(Own(seen[..i + 1], seen[i].tool), STOP_AT);
      assert SixInARow(seen, seen[i].tool, k);
    }
    if tool, at: nat :| SixInARow(seen, tool, at) {
      var i := PlaceOf(seen, tool, at);
      StreakIsLongest(Own(seen[..i + 1], tool), STOP_AT);
      assert StopsOn(seen, i);
    }
  }

  // ---- turns, as history tells them ----

  /** One collected model turn. */
  datatype Turn = Turn(calls: seq<ToolCall>, visible: bool, reasoning: bool)

  /** What the counters count trailing runs of. */
  datatype Kind = Empty | ToolOnly | NoPlan

  predicate Is(t: Turn, kind: Kind) {
    match kind
    case Empty => t.calls == [] && !t.visible && !t.reasoning
    case ToolOnly => t.calls != [] && !t.visible
    case NoPlan => !Plans(t.calls)
  }

  /** How many turns at the end are of one kind. */
  function Trailing(turns: seq<Turn>, kind: Kind): nat {
    if turns == [] || !Is(turns[|turns| - 1], kind) then 0 else 1 + Trailing(turns[..|turns| - 1], kind)
  }

  /** The count is the length of the longest trailing run. */
  lemma {:induction false} TrailingIsLongest(turns: seq<Turn>, kind: Kind, k: nat)
    requires k <= |turns|
    ensures k <= Trailing(turns, kind) <==> forall i :: |turns| - k <= i < |turns| ==> Is(turns[i], kind)
    decreases |turns|
  {
    hide Is;
    if k > 0 {
      var before := turns[..|turns| - 1];
      TrailingIsLongest(before, kind, k - 1);
      assert forall i :: 0 <= i < |before| ==> before[i] == turns[i];
    }
  }

  function AllCalls(turns: seq<Turn>): seq<ToolCall> {
    if turns == [] then [] else AllCalls(turns[..|turns| - 1]) + turns[|turns| - 1].calls
  }

  predicate Plans(calls: seq<ToolCall>) {
    exists i :: 0 <= i < |calls| && calls[i].name == UpdatePlan
  }

  /** The calls behind the last update_plan. */
  function SincePlan(calls: seq<ToolCall>): nat {
    if calls == [] || calls[|calls| - 1].name == UpdatePlan then 0 else 1 + SincePlan(calls[..|calls| - 1])
  }

  lemma {:induction false} SincePlanIsLongest(calls: seq<ToolCall>, k: nat)
    requires k <= |calls|
    ensures k <= SincePlan(calls) <==> forall i :: |calls| - k <= i < |calls| ==> calls[i].name != UpdatePlan
    decreases |calls|
  {
    if k > 0 {
      var before := calls[..|calls| - 1];
      SincePlanIsLongest(before, k - 1);
      assert forall i :: 0 <= i < |before| ==> before[i] == calls[i];
    }
  }

  /** What the last readable plan left open. */
  function OpenItems(parse: string -> Option<nat>, calls: seq<ToolCall>): nat {
    if calls == [] then 0
    else
      var last := calls[|calls| - 1];
      if last.name == UpdatePlan && parse(last.arguments).Some? then parse(last.arguments).value
      else OpenItems(parse, calls[..|calls| - 1])
  }

  datatype Record = Record(count: nat, sign: string, hintShown: bool)

  datatype Outcome = Outcome(injectHint: bool, stop: bool, count: nat)

  datatype Reminder = NoReminder | Stale(calls: nat) | NotCalled | Progress(turns: nat)

  class GuardState {
    const remaining: string -> Option<nat>
    var emptyTurns: nat
    var totalToolCalls: nat
    var toolCallsSincePlanUpdate: nat
    var turnsSincePlanUpdate: nat
    var planEverCalled: bool
    var notCalledReminderSent: bool
    var staleReminderSent: bool
    var toolOnlyTurns: nat
    var toolOnlyReminderSent: bool
    var planItemsPending: nat
    var toolFailures: map<ToolName, Record>
    ghost var seen: seq<Observation>
    ghost var turns: seq<Turn>

    /** A tool has a record exactly while it is failing, and the record is its streak. */
    ghost predicate RecordTells(tool: ToolName)
      reads this`toolFailures, this`seen
    {
      var own := Own(seen, tool);
      if tool in toolFailures then
        && own != [] && own[|own| - 1].failed
        && toolFailures[tool] == Record(Streak(own), own[|own| - 1].sign, Streak(own) >= HINT_AT)
      else Streak(own) == 0
    }

    ghost predicate FailuresTold()
      reads this`toolFailures, this`seen
    {
      forall tool :: RecordTells(tool)
    }

    ghost predicate TurnsTold()
      reads this`emptyTurns, this`toolOnlyTurns, this`totalToolCalls, this`toolCallsSincePlanUpdate
      reads this`turnsSincePlanUpdate, this`planEverCalled, this`planItemsPending, this`turns
    {
      var calls := AllCalls(turns);
      && emptyTurns == Trailing(turns, Empty)
      && toolOnlyTurns == Trailing(turns, ToolOnly)
      && totalToolCalls == |calls|
      && toolCallsSincePlanUpdate == SincePlan(calls)
      && turnsSincePlanUpdate == Trailing(turns, NoPlan)
      && planEverCalled == Plans(calls)
      && planItemsPending == OpenItems(remaining, calls)
    }

    constructor (remaining: string -> Option<nat>)
      ensures FailuresTold() && TurnsTold() && seen == [] && turns == []
      ensures !staleReminderSent && !notCalledReminderSent && !toolOnlyReminderSent
      ensures this.remaining == remaining
    {
      this.remaining := remaining;
      emptyTurns, totalToolCalls, toolCallsSincePlanUpdate, turnsSincePlanUpdate := 0, 0, 0, 0;
      toolOnlyTurns, planItemsPending := 0, 0;
      planEverCalled, notCalledReminderSent, staleReminderSent, toolOnlyReminderSent := false, false, false, false;
      toolFailures := map[];
      seen, turns := [], [];
    }

    /** observeToolResult: the count is the streak, the hint comes at two, the stop from six on. */
    method ObserveToolResult(tool: ToolName, failed: bool, sign: string) returns (outcome: Outcome)
      requires FailuresTold()
      modifies this`toolFailures, this`seen
      ensures FailuresTold()
      ensures seen == old(seen) + [Observation(tool, failed, sign)]
      ensures var k := Streak(Own(seen, tool));
        outcome == Outcome(k == 2, k >= 6, k)
    {
      hide Own, Streak, SameFailures;
      ghost var o := Observation(tool, failed, sign);
      assert RecordTells(tool);
      OwnSnoc(seen, o, tool);
      StreakSnoc(Own(seen, tool), o);
      ghost var before, records := seen, toolFailures;
      seen := seen + [o];
      if !failed {
        toolFailures := toolFailures - {tool};
        outcome := Outcome(false, false, 0);
      } else {
        var record: Record;
        if tool !in toolFailures || toolFailures[tool].sign != sign {
          record := Record(1, sign, false);
        } else {
          record := toolFailures[tool].(count := toolFailures[tool].count + 1);
        }
        outcome := Outcome(false, false, record.count);
        if record.count >= STOP_AT {
          outcome := outcome.(stop := true);
        } else if record.count >= HINT_AT && !record.hintShown {
          record := record.(hintShown := true);
          outcome := outcome.(injectHint := true);
        }
        toolFailures := toolFailures[tool := record];
      }
      forall t ensures RecordTells(t) {
        OwnSnoc(before, o, t);
        assert t != tool ==> old(RecordTells(t));
      }
    }

    /** observeTurn; the answer is whether the no-output guard stops the run. */
    method ObserveTurn(t: Turn) returns (stop: bool)
      requires TurnsTold()
      modifies this`emptyTurns, this`totalToolCalls, this`toolCallsSincePlanUpdate, this`turnsSincePlanUpdate
      modifies this`planEverCalled, this`staleReminderSent, this`toolOnlyTurns, this`toolOnlyReminderSent
      modifies this`planItemsPending, this`turns
      ensures TurnsTold()
      ensures turns == old(turns) + [t]
      ensures stop == (Trailing(turns, Empty) >= MAX_EMPTY_TURNS)
      ensures staleReminderSent == (old(staleReminderSent) && !Plans(t.calls))
      ensures toolOnlyReminderSent == (old(toolOnlyReminderSent) && Is(t, ToolOnly))
    {
      hide Trailing, SincePlan, Plans, OpenItems, Is, AllCalls;
      CountTurn(t);
      AllCallsSnoc(turns, t);
      TrailingSnoc(turns, t, NoPlan);
      IsNoPlan(t);
      ObserveCalls(t.calls, AllCalls(turns));
      turns := turns + [t];
      stop := emptyTurns >= MAX_EMPTY_TURNS;
    }

    /** The counters of observeTurn that look at the turn as a whole. */
    method CountTurn(t: Turn)
      requires emptyTurns == Trailing(turns, Empty) && toolOnlyTurns == Trailing(turns, ToolOnly)
      modifies this`emptyTurns, this`toolOnlyTurns, this`toolOnlyReminderSent, this`turnsSincePlanUpdate
      ensures emptyTurns == Trailing(turns + [t], Empty) && toolOnlyTurns == Trailing(turns + [t], ToolOnly)
      ensures toolOnlyReminderSent == (old(toolOnlyReminderSent) && Is(t, ToolOnly))
      ensures turnsSincePlanUpdate == old(turnsSincePlanUpdate) + 1
    {
      hide Trailing;
      TrailingSnoc(turns, t, Empty);
      TrailingSnoc(turns, t, ToolOnly);
      emptyTurns := if t.calls != [] || t.visible || t.reasoning then 0 else emptyTurns + 1;
      if t.calls != [] && !t.visible {
        toolOnlyTurns := toolOnlyTurns + 1;
      } else {
        toolOnlyTurns := 0;
        toolOnlyReminderSent := false;
      }
      turnsSincePlanUpdate := turnsSincePlanUpdate + 1;
    }

    /** The loop of observeTurn over the calls of the turn. */
    method ObserveCalls(calls: seq<ToolCall>, ghost before: seq<ToolCall>)
      requires totalToolCalls == |before| && toolCallsSincePlanUpdate == SincePlan(before)
      requires planEverCalled == Plans(before) && planItemsPending == OpenItems(remaining, before)
      modifies this`totalToolCalls, this`toolCallsSincePlanUpdate, this`turnsSincePlanUpdate
      modifies this`planEverCalled, this`staleReminderSent, this`planItemsPending
      ensures var all := before + calls;
        && totalToolCalls == |all| && toolCallsSincePlanUpdate == SincePlan(all)
        && planEverCalled == Plans(all) && planItemsPending == OpenItems(remaining, all)
      ensures turnsSincePlanUpdate == if Plans(calls) then 0 else old(turnsSincePlanUpdate)
      ensures staleReminderSent == (old(staleReminderSent) && !Plans(calls))
    {
      hide SincePlan, OpenItems;
      assert before + calls[..0] == before;
      for i := 0 to |calls|
        invariant totalToolCalls == |before| + i
        invariant toolCallsSincePlanUpdate == SincePlan(before + calls[..i])
        invariant planEverCalled == Plans(before + calls[..i])
        invariant planItemsPending == OpenItems(remaining, before + calls[..i])
        invariant turnsSincePlanUpdate == if Plans(calls[..i]) then 0 else old(turnsSincePlanUpdate)
        invariant staleReminderSent == (old(staleReminderSent) && !Plans(calls[..i]))
      {
        var call := calls[i];
        assert before + calls[..i + 1] == (before + calls[..i]) + [call];
        CallSnoc(remaining, before + calls[..i], call);
        assert calls[..i + 1] == calls[..i] + [call];
        CallSnoc(remaining, calls[..i], call);
        totalToolCalls := totalToolCalls + 1;
        if call.name == UpdatePlan {
          planEverCalled := true;
          toolCallsSincePlanUpdate := 0;
          turnsSincePlanUpdate := 0;
          staleReminderSent := false;
          match remaining(call.arguments)
          case Some(n) => planItemsPending := n;
          case None =>
        } else {
          toolCallsSincePlanUpdate := toolCallsSincePlanUpdate + 1;
        }
      }
      assert calls[..|calls|] == calls;
    }

    /** progressReminder: once per stretch of tool-only turns. */
    method ProgressReminder() returns (r: Reminder)
      requires TurnsTold()
      modifies this`toolOnlyReminderSent
      ensures TurnsTold()
      ensures r == if !old(toolOnlyReminderSent) && Trailing(turns, ToolOnly) >= TOOL_ONLY_REMINDER_AT
                   then Progress(Trailing(turns, ToolOnly)) else NoReminder
      ensures toolOnlyReminderSent == (old(toolOnlyReminderSent) || r != NoReminder)
    {
      if toolOnlyReminderSent || toolOnlyTurns < TOOL_ONLY_REMINDER_AT {
        return NoReminder;
      }
      toolOnlyReminderSent := true;
      return Progress(toolOnlyTurns);
    }

    /** The plan stands untouched for ten calls, or for eight turns with open items. */
    ghost predicate PlanIsStale()
      reads this`turns
    {
      var calls := AllCalls(turns);
      && Plans(calls)
      && (SincePlan(calls) >= STALE_TOOL_CALLS
          || (Trailing(turns, NoPlan) >= STALE_TURNS && OpenItems(remaining, calls) > 0))
    }

    /** planReminder: a stale plan is told once until it is updated, a missing one once per run. */
    method PlanReminder(turn: nat) returns (r: Reminder)
      requires TurnsTold()
      modifies this`staleReminderSent, this`notCalledReminderSent
      ensures TurnsTold()
      ensures r.Stale? <==> PlanIsStale() && !old(staleReminderSent)
      ensures r.Stale? ==> r.calls == SincePlan(AllCalls(turns))
      ensures r.NotCalled? <==> AllCalls(turns) != [] && !Plans(AllCalls(turns)) && turn >= PLAN_REMINDER_TURN
                                && !old(notCalledReminderSent)
      ensures !r.Progress?
      ensures staleReminderSent == (old(staleReminderSent) || r.Stale?)
      ensures notCalledReminderSent == (old(notCalledReminderSent) || r.NotCalled?)
    {
      if planEverCalled && !staleReminderSent
         && (toolCallsSincePlanUpdate >= STALE_TOOL_CALLS
             || (turnsSincePlanUpdate >= STALE_TURNS && planItemsPending > 0)) {
        staleReminderSent := true;
        return Stale(toolCallsSincePlanUpdate);
      }
      if !notCalledReminderSent && !planEverCalled && turn >= PLAN_REMINDER_TURN && totalToolCalls >= 1 {
        notCalledReminderSent := true;
        return NotCalled;
      }
      return NoReminder;
    }
  }

  lemma AllCallsSnoc(turns: seq<Turn>, t: Turn)
    ensures AllCalls(turns + [t]) == AllCalls(turns) + t.calls
  {
    assert (turns + [t])[..|turns|] == turns;
  }

  lemma TrailingSnoc(turns: seq<Turn>, t: Turn, kind: Kind)
    ensures Trailing(turns + [t], kind) == if Is(t, kind) then 1 + Trailing(turns, kind) else 0
  {
    assert (turns + [t])[..|turns|] == turns;
  }

  lemma IsNoPlan(t: Turn)
    ensures Is(t, NoPlan) <==> !Plans(t.calls)
  {
  }

  lemma CallSnoc(parse: string -> Option<nat>, calls: seq<ToolCall>, c: ToolCall)
    ensures SincePlan(calls + [c]) == if c.name == UpdatePlan then 0 else 1 + SincePlan(calls)
    ensures Plans(calls + [c]) == (Plans(calls) || c.name == UpdatePlan)
    ensures OpenItems(parse, calls + [c]) ==
      if c.name == UpdatePlan && parse(c.arguments).Some? then parse(c.arguments).value else OpenItems(parse, calls)
  {
    assert (calls + [c])[..|calls|] == calls;
    if Plans(calls) {
      var i :| 0 <= i < |calls| && calls[i].name == UpdatePlan;
      assert (calls + [c])[i].name == UpdatePlan;
    }
    if c.name == UpdatePlan {
      assert (calls + [c])[|calls|].name == UpdatePlan;
    }
  }
}
