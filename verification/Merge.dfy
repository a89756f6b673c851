/** Merging a fresh digest into a carried one, and the state carried from chunk to chunk. */
module Merge {
  import opened Basics
  import opened Transcript
  import opened LastSeen
  import opened Preserve
  import opened OnePass

  /** mergeRecentEdits: what is touched again moves to the newest place with the fresh note. */
  function MergeEdits(older: seq<Entry>, newer: seq<Entry>): seq<Entry> {
    Minus(older, Names(newer)) + FirstPlace(newer)
  }

  /** capRecentEdits. */
  function CapEdits(entries: seq<Entry>): seq<Entry> {
    Tail(entries, MAX_RECENT_EDITS)
  }

  method MergeRecentEdits(older: seq<Entry>, newer: seq<Entry>) returns (merged: seq<Entry>)
    ensures merged == MergeEdits(older, newer)
  {
    if |newer| == 0 {
      MinusNothing(older);
      return older;
    }
    hide FirstPlace;
    SpellsEmpty();
    var freshOrder, freshBody := SpellMore([], map[], newer, []);
    assert [] + newer == newer;
    SpellsNames(freshOrder, freshBody, newer);
    var kept := KeepUntouched(older, newer, freshBody);
    var touched := SpellOut(freshOrder, freshBody, newer);
    return kept + touched;
  }

  /** The older entries no fresh edit names, in their order. */
  method KeepUntouched(older: seq<Entry>, ghost newer: seq<Entry>, freshBody: map<string, string>)
    returns (kept: seq<Entry>)
    requires forall n :: n in Names(newer) <==> n in freshBody
    ensures kept == Minus(older, Names(newer))
  {
    kept := [];
    for i := 0 to |older|
      invariant kept == Minus(older[..i], Names(newer))
    {
      assert older[..i + 1] == older[..i] + [older[i]];
      MinusConcat(older[..i], [older[i]], Names(newer));
      if older[i].name !in freshBody {
        kept := kept + [older[i]];
      }
    }
    assert older[..|older|] == older;
  }

  lemma {:induction false} MinusNothing(log: seq<Entry>)
    ensures Minus(log, []) == log
    decreases |log|
  {
    if log != [] {
      MinusNothing(log[1..]);
    }
  }

  /** The last body `newer` gives under the name of `e`, or the body `e` has. */
  function Refreshed(e: Entry, newer: seq<Entry>): Entry {
    if e.name in Names(newer) then Entry(e.name, Newest(newer, e.name)) else e
  }

  function RefreshAll(older: seq<Entry>, newer: seq<Entry>): (r: seq<Entry>)
    ensures |r| == |older| && Names(r) == Names(older)
  {
    seq(|older|, i requires 0 <= i < |older| => Refreshed(older[i], newer))
  }

  /** mergeSkillEntries: known names keep their place, unknown ones follow. */
  function MergeSkills(older: seq<Entry>, newer: seq<Entry>): seq<Entry> {
    RefreshAll(older, newer) + Minus(newer, Names(older))
  }

  method MergeSkillEntries(older: seq<Entry>, newer: seq<Entry>) returns (merged: seq<Entry>)
    ensures merged == MergeSkills(older, newer)
  {
    if |newer| == 0 {
      assert RefreshAll(older, newer) == older;
      return older;
    }
    var newBody := BodiesOf(newer);
    merged := [];
    var seen: set<string> := {};
    for i := 0 to |older|
      invariant merged == RefreshAll(older, newer)[..i]
      invariant forall n :: n in seen <==> n in Names(older)[..i]
    {
      hide Newest;
      var e := older[i];
      if e.name in newBody {
        e := Entry(e.name, newBody[e.name]);
      }
      merged := merged + [e];
      seen := seen + {e.name};
    }
    var unknown := Unseen(newer, seen, Names(older));
    merged := merged + unknown;
  }

  /** The newest body of each name. */
  method BodiesOf(log: seq<Entry>) returns (bodies: map<string, string>)
    ensures forall n :: n in bodies <==> n in Names(log)
    ensures forall n :: n in bodies ==> bodies[n] == Newest(log, n)
  {
    hide Newest;
    bodies := map[];
    for i := 0 to |log|
      invariant forall n :: n in bodies <==> n in Names(log[..i])
      invariant forall n :: n in bodies ==> bodies[n] == Newest(log[..i], n)
    {
      assert log[..i + 1] == log[..i] + [log[i]];
      NamesConcat(log[..i], [log[i]]);
      forall n | n in Names(log[..i] + [log[i]]) {
        NewestSnoc(log[..i], log[i], n);
      }
      bodies := bodies[log[i].name := log[i].body];
    }
    assert log[..|log|] == log;
  }

  /** The entries whose names are not known yet, in their order. */
  method Unseen(log: seq<Entry>, seen: set<string>, ghost names: seq<string>) returns (unknown: seq<Entry>)
    requires forall n :: n in seen <==> n in names
    ensures unknown == Minus(log, names)
  {
    unknown := [];
    for i := 0 to |log|
      invariant unknown == Minus(log[..i], names)
    {
      assert log[..i + 1] == log[..i] + [log[i]];
      MinusConcat(log[..i], [log[i]], names);
      if log[i].name !in seen {
        unknown := unknown + [log[i]];
      }
    }
    assert log[..|log|] == log;
  }

  /** A list without repeated names is its own digest. */
  lemma {:induction false} FirstPlaceOfDistinct(log: seq<Entry>)
    requires Distinct(Names(log))
    ensures FirstPlace(log) == log
    decreases |log|
  {
    if log != [] {
      var before := log[..|log| - 1];
      assert Names(before) == Names(log)[..|before|];
      FirstPlaceOfDistinct(before);
      assert log[|before|].name == Names(log)[|before|];
    }
  }

  /** On a digest without repeated names the merge is the overlay. */
  lemma {:induction false} MergeSkillsIsOverlay(older: seq<Entry>, newer: seq<Entry>)
    requires Distinct(Names(newer))
    ensures MergeSkills(older, newer) == Overlay(older, newer)
    decreases |newer|
  {
    if newer == [] {
      assert RefreshAll(older, newer) == older;
    } else {
      var before, last := newer[..|newer| - 1], newer[|newer| - 1];
      assert newer == before + [last];
      assert Names(before) == Names(newer)[..|before|];
      assert last.name == Names(newer)[|before|];
      MergeSkillsIsOverlay(older, before);
      MinusConcat(before, [last], Names(older));
      MergeOneMore(older, before, last);
    }
  }

  lemma MergeOneMore(older: seq<Entry>, before: seq<Entry>, last: Entry)
    requires last.name !in Names(before)
    ensures MergeSkills(older, before + [last]) == Upsert(MergeSkills(older, before), last)
  {
    var more := before + [last];
    NamesConcat(before, [last]);
    MinusConcat(before, [last], Names(older));
    MinusNames(before, Names(older));
    NamesConcat(RefreshAll(older, before), Minus(before, Names(older)));
    forall i | 0 <= i < |older|
      ensures RefreshAll(older, more)[i]
           == if older[i].name == last.name then last else RefreshAll(older, before)[i]
    {
      if older[i].name in Names(more) {
        NewestSnoc(before, last, older[i].name);
      }
    }
    if last.name in Names(older) {
      RebodyHead(RefreshAll(older, before), Minus(before, Names(older)), last);
      assert Minus([last], Names(older)) == [];
      assert RefreshAll(older, more) == Rebody(RefreshAll(older, before), last);
    } else {
      forall i | 0 <= i < |older| ensures older[i].name != last.name {
        assert Names(older)[i] == older[i].name;
      }
      assert RefreshAll(older, more) == RefreshAll(older, before);
    }
  }

  lemma RebodyHead(a: seq<Entry>, b: seq<Entry>, e: Entry)
    requires e.name !in Names(b)
    ensures Rebody(a + b, e) == Rebody(a, e) + b
  {
    forall i | 0 <= i < |b| ensures b[i].name != e.name {
      assert Names(b)[i] == b[i].name;
    }
  }

  // ---- from chunk to chunk ----

  /** Chunks whose ids lose nothing: see EditsExactness and SkillsExactness. */
  predicate CleanIds(p: Parsers, ms: seq<Message>) {
    && KeepsNotes(p, Calls(ms))
    && KeepsKeys(ToolLoader(p), Calls(ms))
    && KeepsKeys(SkillLoader(p), Calls(ms))
  }

  lemma DistinctIdsAreClean(p: Parsers, ms: seq<Message>)
    requires DistinctIds(Calls(ms))
    ensures CleanIds(p, ms)
  {
    DistinctIdsKeepNotes(p, Calls(ms));
    DistinctIdsKeepKeys(ToolLoader(p), Calls(ms));
    DistinctIdsKeepKeys(SkillLoader(p), Calls(ms));
  }

  /** The state after eliding `chunk` with `prior` carried in: appendPreservedState's merges. */
  function CarryOn(p: Parsers, prior: Carried, chunk: seq<Message>): Carried {
    var calls, results := Calls(chunk), ToolResults(chunk);
    Carried(
      if LatestPlan(p, calls) != "" then LatestPlan(p, calls) else prior.plan,
      CapEdits(MergeEdits(prior.edits, RecentEdits(p, calls, results))),
      MergeSkills(prior.tools, Loaded(ToolLoader(p), calls, results)),
      MergeSkills(prior.skills, Loaded(SkillLoader(p), calls, results)),
      MergeSkills(prior.instructions, FirstPlace(InstructionLog(p, chunk))))
  }

  method CarryState(p: Parsers, prior: Carried, chunk: seq<Message>) returns (state: Carried)
    ensures state == CarryOn(p, prior, chunk)
  {
    hide RecentEdits, Loaded, LatestPlan, MergeEdits, MergeSkills, InstructionLog, FirstPlace, Calls, ToolResults;
    var plan := ExtractLatestPlan(p, chunk);
    if plan == "" {
      plan := prior.plan;
    }
    var newEdits := CollectRecentEdits(p, chunk);
    var edits := MergeRecentEdits(prior.edits, newEdits);
    var newTools := CollectLoads(ToolLoader(p), chunk);
    var tools := MergeSkillEntries(prior.tools, newTools);
    var newSkills := CollectLoads(SkillLoader(p), chunk);
    var skills := MergeSkillEntries(prior.skills, newSkills);
    var newInstructions := CollectInstructions(p, chunk);
    var instructions := MergeSkillEntries(prior.instructions, newInstructions);
    state := Carried(plan, CapEdits(edits), tools, skills, instructions);
  }

  /** What one pass over everything elided carries. */
  function OnePassState(p: Parsers, ms: seq<Message>): Carried
    requires WellFormed(ms)
  {
    ResultsAnswerCalls(ms);
    var calls, results := Calls(ms), ToolResults(ms);
    Carried(
      LatestPlan(p, calls),
      EditsOnePass(p, calls, results),
      LoadsOnePass(ToolLoader(p), calls, results),
      LoadsOnePass(SkillLoader(p), calls, results),
      FirstPlace(InstructionLog(p, ms)))
  }

  lemma {:induction false} TouchesConcat(p: Parsers, c1: seq<ToolCall>, r1: seq<Message>, c2: seq<ToolCall>, r2: seq<Message>)
    requires |c1| == |r1| && |c2| == |r2|
    ensures Touches(p, c1 + c2, r1 + r2) == Touches(p, c1, r1) + Touches(p, c2, r2)
    decreases |c2|
  {
    hide EditNote, EditPath;
    if c2 == [] {
      assert c1 + c2 == c1 && r1 + r2 == r1;
    } else {
      var n := |c2| - 1;
      TouchesConcat(p, c1, r1, c2[..n], r2[..n]);
      assert (c1 + c2)[..|c1| + n] == c1 + c2[..n];
      assert (r1 + r2)[..|c1| + n] == r1 + r2[..n];
    }
  }

  lemma {:induction false} LogConcat(l: Loader, f1: seq<Option<string>>, r1: seq<Message>,
                                     f2: seq<Option<string>>, r2: seq<Message>)
    requires |f1| == |r1| && |f2| == |r2|
    ensures LogBy(l, f1 + f2, r1 + r2) == LogBy(l, f1, r1) + LogBy(l, f2, r2)
    decreases |r2|
  {
    if r2 == [] {
      assert f1 + f2 == f1 && r1 + r2 == r1;
    } else {
      var n := |r2| - 1;
      LogConcat(l, f1, r1, f2[..n], r2[..n]);
      assert (f1 + f2)[..|r1| + n] == f1 + f2[..n];
      assert (r1 + r2)[..|r1| + n] == r1 + r2[..n];
    }
  }

  lemma EditsCarryOn(p: Parsers, c1: seq<ToolCall>, r1: seq<Message>, c2: seq<ToolCall>, r2: seq<Message>)
    requires |c1| == |r1| && Answers(r2, c2) && KeepsNotes(p, c2)
    ensures CapEdits(MergeEdits(EditsOnePass(p, c1, r1), RecentEdits(p, c2, r2)))
         == EditsOnePass(p, c1 + c2, r1 + r2)
  {
    hide EditNote;
    var a, b := Touches(p, c1, r1), Touches(p, c2, r2);
    EditsByIdAreOnePass(p, c2, r2);
    TouchesConcat(p, c1, r1, c2, r2);
    LastTouchDistinct(b);
    var newer := Tail(LastTouch(b), MAX_RECENT_EDITS);
    assert Distinct(Names(newer)) by {
      assert Names(newer) == Tail(Names(LastTouch(b)), MAX_RECENT_EDITS);
    }
    FirstPlaceOfDistinct(newer);
    CappedOverlayIsOnePass(a, b, MAX_RECENT_EDITS);
  }

  lemma DigestsMerge(a: seq<Entry>, b: seq<Entry>)
    ensures MergeSkills(FirstPlace(a), FirstPlace(b)) == FirstPlace(a + b)
  {
    FirstPlaceDistinct(b);
    MergeSkillsIsOverlay(FirstPlace(a), FirstPlace(b));
    OverlayIsOnePass(a, b);
  }

  lemma LoadsCarryOn(l: Loader, c1: seq<ToolCall>, r1: seq<Message>, c2: seq<ToolCall>, r2: seq<Message>)
    requires |c1| == |r1| && Answers(r2, c2) && KeepsKeys(l, c2)
    ensures MergeSkills(LoadsOnePass(l, c1, r1), Loaded(l, c2, r2)) == LoadsOnePass(l, c1 + c2, r1 + r2)
  {
    LoadsByIdAreOnePass(l, c2, r2);
    assert OwnKeys(l, c1 + c2) == OwnKeys(l, c1) + OwnKeys(l, c2);
    LogConcat(l, OwnKeys(l, c1), r1, OwnKeys(l, c2), r2);
    DigestsMerge(LogBy(l, OwnKeys(l, c1), r1), LogBy(l, OwnKeys(l, c2), r2));
  }

  /** Carrying on over one more chunk is one pass over all that was elided so far. */
  lemma CarryOnIsOnePass(p: Parsers, elided: seq<Message>, chunk: seq<Message>)
    requires WellFormed(elided) && WellFormed(chunk) && CleanIds(p, chunk)
    ensures WellFormed(elided + chunk)
    ensures CarryOn(p, OnePassState(p, elided), chunk) == OnePassState(p, elided + chunk)
  {
    hide EditNote;
    ConcatWellFormed(elided, chunk);
    ResultsAnswerCalls(elided);
    ResultsAnswerCalls(chunk);
    CallsConcat(elided, chunk);
    ToolResultsConcat(elided, chunk);
    InstructionLogConcat(p, elided, chunk);
    var c1, r1, c2, r2 := Calls(elided), ToolResults(elided), Calls(chunk), ToolResults(chunk);
    LatestPlanConcat(p, c1, c2);
    EditsCarryOn(p, c1, r1, c2, r2);
    LoadsCarryOn(ToolLoader(p), c1, r1, c2, r2);
    LoadsCarryOn(SkillLoader(p), c1, r1, c2, r2);
    DigestsMerge(InstructionLog(p, elided), InstructionLog(p, chunk));
  }

  function CarryAll(p: Parsers, chunks: seq<seq<Message>>): Carried {
    if chunks == [] then NOTHING else CarryOn(p, CarryAll(p, chunks[..|chunks| - 1]), chunks[|chunks| - 1])
  }

  function Flatten(chunks: seq<seq<Message>>): seq<Message> {
    if chunks == [] then [] else Flatten(chunks[..|chunks| - 1]) + chunks[|chunks| - 1]
  }

  /** After any number of compactions the carried state is one pass over everything elided. */
  lemma {:induction false} CarriedStateIsOnePass(p: Parsers, chunks: seq<seq<Message>>)
    requires forall i :: 0 <= i < |chunks| ==> WellFormed(chunks[i]) && CleanIds(p, chunks[i])
    ensures WellFormed(Flatten(chunks))
    ensures CarryAll(p, chunks) == OnePassState(p, Flatten(chunks))
    decreases |chunks|
  {
    hide CarryOn;
    if chunks != [] {
      CarriedStateIsOnePass(p, chunks[..|chunks| - 1]);
      CarryOnIsOnePass(p, Flatten(chunks[..|chunks| - 1]), chunks[|chunks| - 1]);
    }
  }
}
