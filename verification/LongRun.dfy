/** A history through any number of appends, prunings and compactions: the one live summary carries
    the state of everything elided, and exactly when that is the state of what was appended. */
module LongRun {
  import opened Basics
  import opened Transcript
  import opened LastSeen
  import opened Preserve
  import opened OnePass
  import opened Merge
  import opened PreservedFrame
  import opened Prune
  import opened Thinning
  import opened Compaction
  import opened Budget

  // ---- what is asked of the parsers ----

  /** What the parsers keep to: a JSON reader for the state, schemas and instruction blocks that are
      named and read off nothing but their own kind of text. */
  ghost predicate Sound(p: Parsers) {
    && Reads(p.state)
    && (forall c :: p.instructions(c).body != "" ==> p.instructions(c).name != "" && Trim(c) != "" && Trim(c)[0] == '#')
    && (forall c :: AllNamed(p.toolSchemas(c)))
    && LoadsSaySo(p)
  }

  lemma {:induction false} FirstPlaceNamed(log: seq<Entry>)
    requires AllNamed(log)
    ensures AllNamed(FirstPlace(log))
    decreases |log|
  {
    if log != [] {
      FirstPlaceNamed(log[..|log| - 1]);
    }
  }

  lemma {:induction false} LogNamed(l: Loader, filed: seq<Option<string>>, results: seq<Message>)
    requires |filed| == |results|
    requires forall i :: 0 <= i < |filed| && filed[i].Some? ==> AllNamed(l.emit(filed[i].value, results[i].content))
    ensures AllNamed(LogBy(l, filed, results))
    decreases |results|
  {
    if results != [] {
      var n := |results| - 1;
      LogNamed(l, filed[..n], results[..n]);
    }
  }

  lemma {:induction false} InstructionsNamed(p: Parsers, ms: seq<Message>)
    requires Sound(p)
    ensures AllNamed(InstructionLog(p, ms))
    decreases |ms|
  {
    if ms != [] {
      InstructionsNamed(p, ms[1..]);
    }
  }

  lemma EditsNamed(p: Parsers, calls: seq<ToolCall>, results: seq<Message>)
    requires Answers(results, calls)
    ensures AllNamed(EditsOnePass(p, calls, results))
  {
    hide EditNote;
    EditOrderOnePass(p, calls, results);
    EditPathsNotEmpty(p, calls);
    DedupeMembers(EditPaths(p, calls));
    var edits := EditsOnePass(p, calls, results);
    forall i | 0 <= i < |edits| ensures edits[i].name != "" {
      assert Names(edits)[i] in DedupeLast(EditPaths(p, calls));
    }
  }

  lemma SkillsNamed(p: Parsers, calls: seq<ToolCall>, results: seq<Message>)
    requires |calls| == |results|
    ensures AllNamed(LoadsOnePass(SkillLoader(p), calls, results))
  {
    LogNamed(SkillLoader(p), OwnKeys(SkillLoader(p), calls), results);
    FirstPlaceNamed(LogBy(SkillLoader(p), OwnKeys(SkillLoader(p), calls), results));
  }

  lemma ToolsNamed(p: Parsers, calls: seq<ToolCall>, results: seq<Message>)
    requires Sound(p) && |calls| == |results|
    ensures AllNamed(LoadsOnePass(ToolLoader(p), calls, results))
  {
    LogNamed(ToolLoader(p), OwnKeys(ToolLoader(p), calls), results);
    FirstPlaceNamed(LogBy(ToolLoader(p), OwnKeys(ToolLoader(p), calls), results));
  }

  lemma StateNamed(p: Parsers, ms: seq<Message>)
    requires Sound(p) && WellFormed(ms)
    ensures HasNames(OnePassState(p, ms))
  {
    hide EditsOnePass, LoadsOnePass, AllNamed, Sound;
    ResultsAnswerCalls(ms);
    EditsNamed(p, Calls(ms), ToolResults(ms));
    SkillsNamed(p, Calls(ms), ToolResults(ms));
    ToolsNamed(p, Calls(ms), ToolResults(ms));
    InstructionsNamed(p, ms);
    FirstPlaceNamed(InstructionLog(p, ms));
  }

  // ---- the summary message ----

  lemma SummaryIsRecognised(p: Parsers, summary: string, middle: seq<Message>)
    ensures IsSummary(SummaryMessage(p, summary, middle))
  {
    hide StateOf, Encode, Trim;
    var rest := "\n" + Trim(summary);
    var content := SummaryMessage(p, summary, middle).content;
    var tail := content[|SUMMARY_LABEL|..];
    assert content == SUMMARY_LABEL + tail;
    SummaryLabelEnds();
    TrimKeepsHead(SUMMARY_LABEL, tail);
  }

  lemma SummaryLabelEnds()
    ensures SUMMARY_LABEL != "" && SUMMARY_LABEL[0] == '[' && SUMMARY_LABEL[|SUMMARY_LABEL| - 1] == ']'
  {
  }

  predicate NoSummary(ms: seq<Message>) {
    forall i :: 0 <= i < |ms| ==> !IsSummary(ms[i])
  }

  lemma {:induction false} NoSummaryNoContent(ms: seq<Message>)
    requires NoSummary(ms)
    ensures LatestSummary(ms) == ""
    decreases |ms|
  {
    hide IsSummary;
    if ms != [] {
      NoSummaryNoContent(ms[..|ms| - 1]);
    }
  }

  lemma {:induction false} LeadingSummaryFound(m: Message, rest: seq<Message>)
    requires IsSummary(m) && NoSummary(rest)
    ensures LatestSummary([m] + rest) == m.content
    decreases |rest|
  {
    hide IsSummary;
    var all := [m] + rest;
    if rest != [] {
      assert all[..|all| - 1] == [m] + rest[..|rest| - 1];
      LeadingSummaryFound(m, rest[..|rest| - 1]);
    }
  }

  lemma SummaryIsNoInstruction(p: Parsers, m: Message)
    requires Sound(p) && IsSummary(m)
    ensures InstructionOf(p, m) == []
  {
    hide Trim;
    SummaryLabelEnds();
    var t := Trim(m.content);
    assert t[0] == SUMMARY_LABEL[0];
  }

  /** A summary in front of a chunk adds its carried state and nothing else. */
  lemma SummaryOnlyCarries(p: Parsers, m: Message, rest: seq<Message>)
    requires Sound(p) && IsSummary(m) && m.toolCalls == [] && NoSummary(rest)
    ensures StateOf(p, [m] + rest) == CarryOn(p, ParseBlock(p.state, LABEL, m.content), rest)
  {
    hide RecentEdits, Loaded, LatestPlan, ParseBlock, IsSummary;
    LeadingSummaryFound(m, rest);
    SummaryIsNoInstruction(p, m);
    var all := [m] + rest;
    assert all[1..] == rest;
    assert m.role == User by {
      assert IsSummary(m);
      SummaryIsUser(m);
    }
    assert Calls(all) == [] + Calls(rest) == Calls(rest);
    assert ToolResults(all) == [] + ToolResults(rest) == ToolResults(rest);
    assert InstructionLog(p, all) == [] + InstructionLog(p, rest) == InstructionLog(p, rest);
  }

  lemma SummaryIsUser(m: Message)
    requires IsSummary(m)
    ensures m.role == User
  {
  }

  lemma NothingCarriedWithoutSummary(p: Parsers, chunk: seq<Message>)
    requires NoSummary(chunk)
    ensures StateOf(p, chunk) == CarryOn(p, NOTHING, chunk)
  {
    hide CarryOn, IsSummary;
    NoSummaryNoContent(chunk);
    LabelIsLabel();
  }

  // ---- a run of appends, prunings and compactions ----

  /** The live history, and everything that was summarized away. */
  datatype Held = Held(ms: seq<Message>, elided: seq<Message>)

  datatype Step =
    | Append(more: seq<Message>)
    | EmptyStale(protect: int)
    | Summarize(preserveLast: int, summary: string)

  /** The messages a compaction elides for the first time: all but an earlier summary. */
  function Fresh(h: Held, middle: seq<Message>): seq<Message> {
    if h.elided == [] || middle == [] then middle else middle[1..]
  }

  function After(p: Parsers, h: Held, step: Step): Held {
    match step
    case Append(more) => Held(h.ms + more, h.elided)
    case EmptyStale(k) => Held(Pruned(h.ms, k), h.elided)
    case Summarize(k, summary) =>
      if Middle(h.ms, k) == [] then h
      else Held(Spliced(p, h.ms, k, summary), h.elided + Fresh(h, Middle(h.ms, k)))
  }

  /** No message poses as a summary, and a new summary can be read back. */
  ghost predicate Acceptable(p: Parsers, h: Held, step: Step) {
    match step
    case Append(more) => WellFormed(more) && NoSummary(more)
    case EmptyStale(_) => true
    case Summarize(k, summary) =>
      var middle := Middle(h.ms, k);
      middle != [] ==> Readable(p, StateOf(p, middle), SUMMARY_LABEL + ("\n" + Trim(summary)))
  }

  /** And the ids of what is elided now keep what they answer. */
  ghost predicate Admissible(p: Parsers, h: Held, step: Step) {
    && Acceptable(p, h, step)
    && (step.Summarize? && Middle(h.ms, step.preserveLast) != [] ==>
          CleanIds(p, Fresh(h, Middle(h.ms, step.preserveLast))))
  }

  /** The state is UTF-8 and does not spell the label; or, with nothing to carry, the prose does not
      end in a block that reads as a state. */
  predicate Readable(p: Parsers, s: Carried, prose: string) {
    if s == NOTHING then !ReadsAsState(p.state, LABEL, prose)
    else ValidState(s) && !Contains(Encode(s), LABEL)
  }

  /** The one live summary stands at `at`, and carries one pass over everything elided. */
  ghost predicate Live(p: Parsers, ms: seq<Message>, at: nat, elided: seq<Message>)
    requires WellFormed(elided)
  {
    if elided == [] then NoSummary(ms)
    else
      && at < |ms| && IsSummary(ms[at]) && ms[at].toolCalls == [] && NoSummary(ms[at + 1..])
      && ParseBlock(p.state, LABEL, ms[at].content) == OnePassState(p, elided)
  }

  /** Replayable, with the state of everything elided right behind the system prompt. */
  ghost predicate Carries(p: Parsers, h: Held) {
    WellFormed(h.ms) && WellFormed(h.elided) && Live(p, h.ms, SystemEnd(h.ms), h.elided)
  }

  function PutBack(ms: seq<Message>, at: nat, elided: seq<Message>): seq<Message> {
    if elided == [] || at >= |ms| then ms else ms[..at] + elided + ms[at + 1..]
  }

  /** The history with the elided messages put back in the summary's place. */
  function Rebuilt(h: Held): seq<Message> {
    PutBack(h.ms, SystemEnd(h.ms), h.elided)
  }

  lemma NoSummaryConcat(a: seq<Message>, b: seq<Message>)
    requires NoSummary(a) && NoSummary(b)
    ensures NoSummary(a + b)
  {
    hide IsSummary;
  }

  lemma AppendLive(p: Parsers, ms: seq<Message>, at: nat, elided: seq<Message>, more: seq<Message>)
    requires WellFormed(elided) && Live(p, ms, at, elided) && NoSummary(more)
    ensures Live(p, ms + more, at, elided)
    ensures PutBack(ms + more, at, elided) == PutBack(ms, at, elided) + more
  {
    hide IsSummary, ParseBlock, OnePassState, WellFormed, NoSummary;
    if elided == [] {
      NoSummaryConcat(ms, more);
    } else {
      NoSummaryConcat(ms[at + 1..], more);
      assert (ms + more)[at + 1..] == ms[at + 1..] + more;
      assert (ms + more)[..at] == ms[..at];
    }
  }

  lemma AppendCarries(p: Parsers, h: Held, more: seq<Message>)
    requires Carries(p, h) && WellFormed(more) && NoSummary(more)
    ensures Carries(p, After(p, h, Append(more)))
    ensures Rebuilt(After(p, h, Append(more))) == Rebuilt(h) + more
  {
    hide Live, PutBack, WellFormed, NoSummary, SystemEnd;
    ConcatWellFormed(h.ms, more);
    AppendLive(p, h.ms, SystemEnd(h.ms), h.elided, more);
    LivePlace(p, h.ms, SystemEnd(h.ms), h.elided);
    if h.elided != [] {
      SystemEndKept(h.ms, more);
    } else {
      NowhereLive(p, h.ms, SystemEnd(h.ms), SystemEnd(h.ms + more));
      AppendLive(p, h.ms, SystemEnd(h.ms + more), h.elided, more);
    }
  }

  lemma LivePlace(p: Parsers, ms: seq<Message>, at: nat, elided: seq<Message>)
    requires WellFormed(elided) && Live(p, ms, at, elided)
    ensures elided != [] ==> at < |ms|
  {
  }

  lemma NowhereLive(p: Parsers, ms: seq<Message>, at: nat, to: nat)
    requires Live(p, ms, at, [])
    ensures Live(p, ms, to, []) && PutBack(ms, at, []) == PutBack(ms, to, [])
  {
  }

  lemma PruneKeepsUsers(ms: seq<Message>, k: int)
    ensures |Pruned(ms, k)| == |ms|
    ensures forall i :: 0 <= i < |ms| ==> IsSummary(Pruned(ms, k)[i]) == IsSummary(ms[i])
    ensures forall i :: 0 <= i < |ms| && IsSummary(ms[i]) ==> Pruned(ms, k)[i] == ms[i]
  {
    hide Recent, IsPlaceholder, Worthwhile, Trim, SUMMARY_LABEL;
    var out := Pruned(ms, k);
    forall i | 0 <= i < |ms|
      ensures IsSummary(out[i]) == IsSummary(ms[i]) && (IsSummary(ms[i]) ==> out[i] == ms[i])
    {
      if ms[i].role == User {
        assert out[i] == ms[i];
      }
    }
  }

  lemma RewrittenLive(p: Parsers, ms: seq<Message>, out: seq<Message>, at: nat, elided: seq<Message>, plain: bool)
    requires WellFormed(elided) && Live(p, ms, at, elided) && Thinned(ms, out, plain)
    requires forall i :: 0 <= i < |ms| ==> IsSummary(out[i]) == IsSummary(ms[i])
    requires forall i :: 0 <= i < |ms| && IsSummary(ms[i]) ==> out[i] == ms[i]
    ensures Live(p, out, at, elided)
    ensures Thinned(PutBack(ms, at, elided), PutBack(out, at, elided), plain)
  {
    hide IsSummary, ParseBlock, OnePassState, WellFormed, GaveWay;
    if elided != [] {
      var rest, was := out[at + 1..], ms[at + 1..];
      forall i | 0 <= i < |rest| ensures !IsSummary(rest[i]) {
        assert !IsSummary(was[i]);
      }
    }
  }

  lemma PruneCarries(p: Parsers, h: Held, k: int, plain: bool)
    requires Carries(p, h) && (plain ==> PlainNames(Rebuilt(h)))
    ensures Carries(p, After(p, h, EmptyStale(k)))
    ensures Thinned(Rebuilt(h), Rebuilt(After(p, h, EmptyStale(k))), plain)
  {
    hide Live, PutBack, WellFormed, SystemEnd, Pruned, IsSummary, Stale, Worthwhile, GaveWay, PlainNames;
    PruneKeepsWellFormed(h.ms, k);
    PruneKeepsSystem(h.ms, k);
    PruneKeepsUsers(h.ms, k);
    PruneThins(h.ms, k);
    if plain {
      PlainLive(p, h.ms, SystemEnd(h.ms), h.elided);
    }
    LessPlain(h.ms, Pruned(h.ms, k), PlainNames(h.ms), plain);
    RewrittenLive(p, h.ms, Pruned(h.ms, k), SystemEnd(h.ms), h.elided, plain);
  }

  lemma LessPlain(was: seq<Message>, now: seq<Message>, plainer: bool, plain: bool)
    requires Thinned(was, now, plainer) && (plain ==> plainer)
    ensures Thinned(was, now, plain)
  {
  }

  lemma PlainLive(p: Parsers, ms: seq<Message>, at: nat, elided: seq<Message>)
    requires WellFormed(elided) && Live(p, ms, at, elided) && PlainNames(PutBack(ms, at, elided))
    ensures PlainNames(ms)
  {
    hide IsSummary, ParseBlock, OnePassState, WellFormed, PlainText;
    if elided != [] {
      var all := PutBack(ms, at, elided);
      forall i | 0 <= i < |ms| && i != at
        ensures ms[i] == all[if i < at then i else i - 1 + |elided|]
      {
      }
    }
  }

  /** Exactly when the state to be carried can be read back from the new summary. */
  lemma NewSummaryReads(p: Parsers, summary: string, middle: seq<Message>)
    requires Sound(p) && HasNames(StateOf(p, middle))
    ensures ParseBlock(p.state, LABEL, SummaryMessage(p, summary, middle).content) == StateOf(p, middle)
      <==> Readable(p, StateOf(p, middle), SUMMARY_LABEL + ("\n" + Trim(summary)))
  {
    hide StateOf, Trim, Encode, ParseBlock, HasNames, Contains, ValidState, ReadsAsState;
    var prose := SUMMARY_LABEL + ("\n" + Trim(summary));
    if StateOf(p, middle) == NOTHING {
      NothingComesBackIff(p.state, LABEL, prose);
    } else {
      FrameRoundTrip(p.state, prose, StateOf(p, middle));
    }
  }

  lemma ChunkBehindSummary(p: Parsers, h: Held, k: int)
    requires Carries(p, h) && Middle(h.ms, k) != [] && h.elided != []
    ensures var s := SystemEnd(h.ms);
      Middle(h.ms, k) == [h.ms[s]] + Fresh(h, Middle(h.ms, k)) && NoSummary(Fresh(h, Middle(h.ms, k)))
  {
    hide IsSummary, ParseBlock, OnePassState, WellFormed, Boundary;
    var s, b := SystemEnd(h.ms), Boundary(h.ms, k);
    assert h.ms[s..b][1..] == h.ms[s + 1..][..b - s - 1];
  }

  lemma LeadingUserStandsAlone(m: Message, rest: seq<Message>)
    requires WellFormed([m] + rest) && m.role == User
    ensures WellFormed(rest)
  {
    assert ([m] + rest)[1..] == rest;
  }

  /** The state the new summary carries is one pass over all that is elided now. */
  lemma StateOfMiddle(p: Parsers, h: Held, k: int)
    requires Sound(p) && Carries(p, h) && Middle(h.ms, k) != []
    requires CleanIds(p, Fresh(h, Middle(h.ms, k)))
    ensures WellFormed(h.elided + Fresh(h, Middle(h.ms, k)))
    ensures StateOf(p, Middle(h.ms, k)) == OnePassState(p, h.elided + Fresh(h, Middle(h.ms, k)))
  {
    hide CarryOn, IsSummary, ParseBlock, CleanIds, Sound, Middle, WellFormed, OnePassState, SystemEnd, StateOf;
    var middle := Middle(h.ms, k);
    var chunk := Fresh(h, middle);
    CutSplitsNoBlock(h.ms, k);
    if h.elided == [] {
      NoSummaryWithin(h.ms, k);
      NothingCarriedWithoutSummary(p, middle);
      EmptyPass(p);
    } else {
      var m := h.ms[SystemEnd(h.ms)];
      SummaryIsUser(m);
      ChunkBehindSummary(p, h, k);
      LeadingUserStandsAlone(m, chunk);
      SummaryOnlyCarries(p, m, chunk);
    }
    CarryOnIsOnePass(p, h.elided, chunk);
  }

  lemma NoSummaryWithin(ms: seq<Message>, k: int)
    requires NoSummary(ms)
    ensures NoSummary(Middle(ms, k))
  {
    hide IsSummary;
  }

  lemma EmptyPass(p: Parsers)
    ensures OnePassState(p, []) == NOTHING
  {
    assert CarryAll(p, []) == NOTHING;
    CarriedStateIsOnePass(p, []);
  }

  lemma SummarizeCarries(p: Parsers, h: Held, k: int, summary: string)
    requires Sound(p) && Carries(p, h) && Admissible(p, h, Summarize(k, summary))
    ensures Carries(p, After(p, h, Summarize(k, summary)))
    ensures Rebuilt(After(p, h, Summarize(k, summary))) == Rebuilt(h)
  {
    hide CarryOn, IsSummary, ParseBlock, CleanIds, Sound, StateOf, AppendBlock, OnePassState, Readable, HasNames;
    hide Trim, Boundary, WellFormed, Live, PutBack, SystemEnd;
    var middle := Middle(h.ms, k);
    if middle != [] {
      StateOfMiddle(p, h, k);
      StateNamed(p, h.elided + Fresh(h, middle));
      NewSummaryReads(p, summary, middle);
      SummaryIsRecognised(p, summary, middle);
      CompactionKeepsWellFormed(p, h.ms, k, summary);
      SpliceKeepsSystem(p, h.ms, k, summary);
      var s, b := SystemEnd(h.ms), Boundary(h.ms, k);
      assert h.ms[s..b][1..] == h.ms[s + 1..b];
      SpliceLive(p, h.ms, s, b, h.elided, SummaryMessage(p, summary, middle), h.elided + Fresh(h, middle));
    }
  }

  /** Replacing the old summary, if any, and what follows it up to `b`; `now` is what is elided then. */
  lemma SpliceLive(p: Parsers, ms: seq<Message>, s: nat, b: nat, elided: seq<Message>, m: Message, now: seq<Message>)
    requires WellFormed(elided) && Live(p, ms, s, elided) && s < b <= |ms|
    requires WellFormed(now) && now == elided + if elided == [] then ms[s..b] else ms[s + 1..b]
    requires IsSummary(m) && m.toolCalls == [] && ParseBlock(p.state, LABEL, m.content) == OnePassState(p, now)
    ensures Live(p, ms[..s] + [m] + ms[b..], s, now)
    ensures PutBack(ms[..s] + [m] + ms[b..], s, now) == PutBack(ms, s, elided)
  {
    hide IsSummary, ParseBlock, OnePassState, WellFormed, PutBack;
    var out := ms[..s] + [m] + ms[b..];
    assert out[s] == m;
    SplicePutsBack(ms, s, b, elided, m, now);
  }

  lemma SplicePutsBack(ms: seq<Message>, s: nat, b: nat, elided: seq<Message>, m: Message, now: seq<Message>)
    requires s < b <= |ms| && now == elided + if elided == [] then ms[s..b] else ms[s + 1..b]
    ensures PutBack(ms[..s] + [m] + ms[b..], s, now) == PutBack(ms, s, elided)
  {
    var out := ms[..s] + [m] + ms[b..];
    assert out[..s] == ms[..s] && out[s + 1..] == ms[b..];
    if elided == [] {
      assert ms == ms[..s] + ms[s..b] + ms[b..];
      assert [] + ms[s..b] == ms[s..b];
    } else {
      assert ms[s + 1..] == ms[s + 1..b] + ms[b..];
      assert ms[..s] + (elided + ms[s + 1..b]) + ms[b..] == ms[..s] + elided + ms[s + 1..];
    }
  }

  // ---- any number of steps ----

  function RunAll(p: Parsers, h: Held, steps: seq<Step>): Held {
    if steps == [] then h else After(p, RunAll(p, h, steps[..|steps| - 1]), steps[|steps| - 1])
  }

  ghost predicate AllAdmissible(p: Parsers, h: Held, steps: seq<Step>) {
    forall i :: 0 <= i < |steps| ==> Admissible(p, RunAll(p, h, steps[..i]), steps[i])
  }

  /** Everything the steps appended, in order. */
  function Appended(steps: seq<Step>): seq<Message> {
    if steps == [] then []
    else
      var last := steps[|steps| - 1];
      Appended(steps[..|steps| - 1]) + if last.Append? then last.more else []
  }

  function Added(step: Step): seq<Message> {
    if step.Append? then step.more else []
  }

  lemma SameThinned(ms: seq<Message>, plain: bool)
    ensures Thinned(ms, ms, plain)
  {
  }

  lemma OneStep(p: Parsers, h: Held, step: Step, plain: bool)
    requires Sound(p) && Carries(p, h) && Admissible(p, h, step) && (plain ==> PlainNames(Rebuilt(h)))
    ensures Carries(p, After(p, h, step))
    ensures Thinned(Rebuilt(h) + Added(step), Rebuilt(After(p, h, step)), plain)
  {
    hide Carries, Sound, CleanIds, Readable, WellFormed, NoSummary, Rebuilt, Thinned, PlainNames;
    assert Rebuilt(h) + [] == Rebuilt(h);
    match step
    case Append(more) =>
      AppendCarries(p, h, more);
      SameThinned(Rebuilt(h) + more, plain);
    case EmptyStale(k) =>
      PruneCarries(p, h, k, plain);
    case Summarize(k, summary) =>
      SummarizeCarries(p, h, k, summary);
      SameThinned(Rebuilt(h), plain);
  }

  /** Over any run the live history is replayable, its summary carries one pass over everything
      elided, and with the elided put back it is, message by message, what was appended, but for
      old tool output that gave way to a placeholder. */
  lemma {:induction false} HistoryIsAccountedFor(p: Parsers, start: seq<Message>, steps: seq<Step>, plain: bool)
    requires Sound(p) && WellFormed(start) && NoSummary(start)
    requires AllAdmissible(p, Held(start, []), steps)
    requires plain ==> PlainNames(start + Appended(steps))
    ensures Carries(p, RunAll(p, Held(start, []), steps))
    ensures Thinned(start + Appended(steps), Rebuilt(RunAll(p, Held(start, []), steps)), plain)
    decreases |steps|
  {
    hide Admissible, NoSummary, Sound, Carries, Rebuilt, After, WellFormed, Thinned, PlainNames;
    var h := Held(start, []);
    if steps == [] {
      StartCarries(p, start);
      SameThinned(start, plain);
      assert start + [] == start;
    } else {
      var before, last := steps[..|steps| - 1], steps[|steps| - 1];
      forall i | 0 <= i < |before| ensures Admissible(p, RunAll(p, h, before[..i]), before[i]) {
        assert before[..i] == steps[..i];
      }
      assert start + Appended(steps) == (start + Appended(before)) + Added(last);
      if plain {
        PlainPrefix(start + Appended(before), Added(last));
      }
      HistoryIsAccountedFor(p, start, before, plain);
      assert Admissible(p, RunAll(p, h, steps[..|before|]), last);
      LastStep(p, RunAll(p, h, before), last, start + Appended(before), plain);
    }
  }

  lemma PlainPrefix(a: seq<Message>, b: seq<Message>)
    requires PlainNames(a + b)
    ensures PlainNames(a)
  {
    hide PlainText;
    forall i | 0 <= i < |a| ensures a[i] == (a + b)[i] {
    }
  }

  lemma StartCarries(p: Parsers, start: seq<Message>)
    requires WellFormed(start) && NoSummary(start)
    ensures Carries(p, Held(start, [])) && Rebuilt(Held(start, [])) == start
  {
  }

  lemma PlainShape(was: seq<Message>, now: seq<Message>)
    requires SameShape(was, now) && PlainNames(was)
    ensures PlainNames(now)
  {
    hide PlainText;
    assert forall i :: 0 <= i < |was| ==> now[i].toolCalls == was[i].toolCalls;
  }

  lemma LastStep(p: Parsers, h: Held, step: Step, so: seq<Message>, plain: bool)
    requires Sound(p) && Carries(p, h) && Admissible(p, h, step)
    requires Thinned(so, Rebuilt(h), plain) && (plain ==> PlainNames(so))
    ensures Carries(p, After(p, h, step))
    ensures Thinned(so + Added(step), Rebuilt(After(p, h, step)), plain)
  {
    hide Carries, Sound, Admissible, Rebuilt, After, Thinned, PlainNames;
    ThinnedShape(so, Rebuilt(h), plain);
    if plain {
      PlainShape(so, Rebuilt(h));
    }
    OneStep(p, h, step, plain);
    SameThinned(Added(step), plain);
    ThinnedConcat(so, Rebuilt(h), Added(step), Added(step), plain);
    ThinnedTwice(so + Added(step), Rebuilt(h) + Added(step), Rebuilt(After(p, h, step)), plain);
  }

  // ---- what the summary carries of what was appended ----

  /** The appended messages that stand behind the live summary now. */
  function Behind(h: Held, all: seq<Message>): seq<Message>
    requires SystemEnd(h.ms) + |h.elided| <= |all|
  {
    all[SystemEnd(h.ms)..SystemEnd(h.ms) + |h.elided|]
  }

  lemma ElidedStands(p: Parsers, h: Held)
    requires Carries(p, h) && h.elided != []
    ensures SystemEnd(h.ms) + |h.elided| <= |Rebuilt(h)| && Behind(h, Rebuilt(h)) == h.elided
    ensures SystemEnd(h.ms) < |h.ms|
    ensures ParseBlock(p.state, LABEL, h.ms[SystemEnd(h.ms)].content) == OnePassState(p, h.elided)
  {
    hide IsSummary, ParseBlock, OnePassState, WellFormed, SystemEnd;
  }

  /** The state read back from the live summary is one pass over the messages as they were appended,
      exactly if what that state keeps still reads the same in the elided ones. With plain tool names:
      if no answer that gave way is the last edit of a kept path or the last load of a skill, and the
      schemas stand without such answers. */
  ghost predicate CarriedIff(p: Parsers, h: Held, all: seq<Message>) {
    h.elided != [] ==>
      && SystemEnd(h.ms) < |h.ms| && SystemEnd(h.ms) + |h.elided| <= |all|
      && var src := Behind(h, all);
      && WellFormed(src) && |Calls(src)| == |ToolResults(src)| == |ToolResults(h.elided)|
      && var calls, was, now := Calls(src), ToolResults(src), ToolResults(h.elided);
      && (ParseBlock(p.state, LABEL, h.ms[SystemEnd(h.ms)].content) == OnePassState(p, src)
          <==> StateStands(p, calls, was, now))
      && (PlainNames(all) ==> (StateStands(p, calls, was, now) <==> Dispensable(p, calls, was, Gone(was, now))))
  }

  /** After any run that is so. */
  lemma CarriedIsAppendedIff(p: Parsers, start: seq<Message>, steps: seq<Step>)
    requires Sound(p) && WellFormed(start) && NoSummary(start)
    requires AllAdmissible(p, Held(start, []), steps)
    ensures CarriedIff(p, RunAll(p, Held(start, []), steps), start + Appended(steps))
  {
    hide Admissible, NoSummary, Sound, Carries, Rebuilt, WellFormed, Thinned, PlainNames, RunAll, SystemEnd, ParseBlock,
         OnePassState, StateStands, Dispensable, AllAdmissible, Appended, Gone;
    var h, all := RunAll(p, Held(start, []), steps), start + Appended(steps);
    var plain := PlainNames(all);
    HistoryIsAccountedFor(p, start, steps, plain);
    if h.elided != [] {
      ElidedStands(p, h);
      ThinnedLength(all, Rebuilt(h), plain);
      BehindCarries(p, h, all, plain);
    }
  }

  lemma BehindCarries(p: Parsers, h: Held, all: seq<Message>, plain: bool)
    requires Sound(p) && Carries(p, h) && Thinned(all, Rebuilt(h), plain) && |all| == |Rebuilt(h)|
    requires SystemEnd(h.ms) + |h.elided| <= |all| && Behind(h, Rebuilt(h)) == h.elided
    ensures
      var src := Behind(h, all);
      && WellFormed(src) && WellFormed(h.elided) && |Calls(src)| == |ToolResults(src)| == |ToolResults(h.elided)|
      && var calls, was, now := Calls(src), ToolResults(src), ToolResults(h.elided);
      && (OnePassState(p, h.elided) == OnePassState(p, src) <==> StateStands(p, calls, was, now))
      && (plain ==> (StateStands(p, calls, was, now) <==> Dispensable(p, calls, was, Gone(was, now))))
  {
    hide Live, Rebuilt, WellFormed, Thinned, SystemEnd, OnePassState, StateStands, Dispensable, Gone;
    var src := Behind(h, all);
    ThinnedSlice(all, Rebuilt(h), SystemEnd(h.ms), SystemEnd(h.ms) + |h.elided|, plain);
    ThinnedShape(src, h.elided, plain);
    ShapeBack(src, h.elided);
    OnePassStandsIff(p, src, h.elided, plain);
    ThinnedParts(p, src, h.elided, plain);
    if plain {
      DispensableIff(p, Calls(src), ToolResults(src), ToolResults(h.elided));
    }
  }

  lemma ShapeBack(was: seq<Message>, now: seq<Message>)
    requires SameShape(was, now) && WellFormed(now)
    ensures WellFormed(was)
  {
    hide WellFormed;
    SameShapeWellFormed(now, was);
  }

  // ---- ids a caller can check ----

  lemma DistinctWithin(a: seq<Message>, b: seq<Message>, c: seq<Message>)
    requires DistinctIds(Calls(a + b + c))
    ensures DistinctIds(Calls(a)) && DistinctIds(Calls(b))
  {
    hide DistinctIds, Calls;
    CallsConcat(a + b, c);
    CallsConcat(a, b);
    DistinctParts(Calls(a), Calls(b), Calls(c));
  }

  lemma DistinctParts(x: seq<ToolCall>, y: seq<ToolCall>, z: seq<ToolCall>)
    requires DistinctIds(x + y + z)
    ensures DistinctIds(x) && DistinctIds(y)
  {
    var all := x + y + z;
    forall i, j | 0 <= i <= j < |y| ensures y[i].id != "" && (i < j ==> y[i].id != y[j].id) {
      assert all[|x| + i] == y[i] && all[|x| + j] == y[j];
    }
    assert x == all[..|x|];
  }

  /** What a compaction elides for the first time stands in the rebuilt history. */
  lemma FreshStands(p: Parsers, h: Held, k: int)
    requires Carries(p, h) && Middle(h.ms, k) != []
    ensures exists a, c :: Rebuilt(h) == a + Fresh(h, Middle(h.ms, k)) + c
  {
    hide IsSummary, ParseBlock, OnePassState, WellFormed, Boundary, SystemEnd;
    var s, b := SystemEnd(h.ms), Boundary(h.ms, k);
    var head := if h.elided == [] then h.ms[..s] else h.ms[..s] + h.elided;
    assert h.elided != [] ==> h.ms[s..b][1..] == h.ms[s + 1..b];
    assert Rebuilt(h) == head + Fresh(h, Middle(h.ms, k)) + h.ms[b..];
  }

  ghost predicate AllAcceptable(p: Parsers, h: Held, steps: seq<Step>) {
    forall i :: 0 <= i < |steps| ==> Acceptable(p, RunAll(p, h, steps[..i]), steps[i])
  }

  lemma DistinctIdsAdmit(p: Parsers, h: Held, so: seq<Message>, step: Step)
    requires Carries(p, h) && Thinned(so, Rebuilt(h), false) && DistinctIds(Calls(so)) && Acceptable(p, h, step)
    ensures Admissible(p, h, step)
  {
    hide Acceptable, Carries, Rebuilt, Thinned, DistinctIds, Calls, CleanIds, Fresh, Middle;
    ThinnedParts(p, so, Rebuilt(h), false);
    if step.Summarize? && Middle(h.ms, step.preserveLast) != [] {
      FreshStands(p, h, step.preserveLast);
      var newly := Fresh(h, Middle(h.ms, step.preserveLast));
      var a, c :| Rebuilt(h) == a + newly + c;
      DistinctWithin(a, newly, c);
      DistinctIdsAreClean(p, newly);
    }
  }

  lemma AdmitsOneMore(p: Parsers, h: Held, before: seq<Step>, last: Step)
    requires AllAdmissible(p, h, before) && Admissible(p, RunAll(p, h, before), last)
    ensures AllAdmissible(p, h, before + [last])
  {
    hide Admissible, RunAll;
    var steps := before + [last];
    forall i | 0 <= i < |steps| ensures Admissible(p, RunAll(p, h, steps[..i]), steps[i]) {
      assert steps[..i] == before[..i];
      assert i == |before| ==> before[..i] == before;
    }
  }

  lemma AcceptsOneLess(p: Parsers, h: Held, before: seq<Step>, last: Step)
    requires AllAcceptable(p, h, before + [last])
    ensures AllAcceptable(p, h, before) && Acceptable(p, RunAll(p, h, before), last)
  {
    hide Acceptable, RunAll;
    var steps := before + [last];
    forall i | 0 <= i < |before| ensures Acceptable(p, RunAll(p, h, before[..i]), before[i]) {
      assert steps[..i] == before[..i] && steps[i] == before[i];
    }
    assert steps[..|before|] == before && steps[|before|] == last;
  }

  lemma AppendedSnoc(before: seq<Step>, last: Step)
    ensures Appended(before + [last]) == Appended(before) + Added(last)
  {
    assert (before + [last])[..|before|] == before;
  }

  /** Where every call has an id of its own, over everything appended, no compaction is in doubt. */
  lemma {:induction false} DistinctIdsSuffice(p: Parsers, start: seq<Message>, steps: seq<Step>)
    requires Sound(p) && WellFormed(start) && NoSummary(start)
    requires DistinctIds(Calls(start + Appended(steps)))
    requires AllAcceptable(p, Held(start, []), steps)
    ensures AllAdmissible(p, Held(start, []), steps)
    decreases |steps|
  {
    hide Acceptable, Admissible, AllAcceptable, Appended, RunAll, NoSummary, Sound, Carries, Rebuilt, WellFormed,
         Thinned, DistinctIds, Calls, PlainNames;
    if steps != [] {
      var n, h := |steps| - 1, Held(start, []);
      var before, last := steps[..n], steps[n];
      assert steps == before + [last];
      AcceptsOneLess(p, h, before, last);
      AppendedSnoc(before, last);
      assert start + Appended(steps) == [] + (start + Appended(before)) + Added(last);
      DistinctWithin([], start + Appended(before), Added(last));
      DistinctIdsSuffice(p, start, before);
      HistoryIsAccountedFor(p, start, before, false);
      DistinctIdsAdmit(p, RunAll(p, h, before), start + Appended(before), last);
      AdmitsOneMore(p, h, before, last);
    }
  }

  // ---- the live history alone ----

  /** What a step makes of the live history, whatever was elided. */
  function LiveAfter(p: Parsers, ms: seq<Message>, step: Step): seq<Message> {
    match step
    case Append(more) => ms + more
    case EmptyStale(k) => Pruned(ms, k)
    case Summarize(k, summary) => if Middle(ms, k) == [] then ms else Spliced(p, ms, k, summary)
  }

  function LiveRun(p: Parsers, ms: seq<Message>, steps: seq<Step>): seq<Message> {
    if steps == [] then ms else LiveAfter(p, LiveRun(p, ms, steps[..|steps| - 1]), steps[|steps| - 1])
  }

  lemma LiveRunSnoc(p: Parsers, ms: seq<Message>, steps: seq<Step>, step: Step)
    ensures LiveRun(p, ms, steps + [step]) == LiveAfter(p, LiveRun(p, ms, steps), step)
  {
    hide LiveAfter;
    assert (steps + [step])[..|steps|] == steps;
  }

  lemma {:induction false} LiveIsHeld(p: Parsers, h: Held, steps: seq<Step>)
    ensures RunAll(p, h, steps).ms == LiveRun(p, h.ms, steps)
    decreases |steps|
  {
    hide Pruned, Spliced, Middle;
    if steps != [] {
      LiveIsHeld(p, h, steps[..|steps| - 1]);
    }
  }

  /** `ms`, which these steps made, is accounted for: its summary carries one pass over all they
      elided, it is message by message what they appended but for old tool output, and the condition
      under which the carried state is one pass over what they appended. */
  ghost predicate AccountedFor(p: Parsers, start: seq<Message>, steps: seq<Step>, ms: seq<Message>) {
    var h, all := RunAll(p, Held(start, []), steps), start + Appended(steps);
    && h.ms == ms
    && Carries(p, h)
    && Thinned(all, Rebuilt(h), PlainNames(all))
    && CarriedIff(p, h, all)
  }

  lemma RunIsAccountedFor(p: Parsers, start: seq<Message>, steps: seq<Step>)
    requires Sound(p) && WellFormed(start) && NoSummary(start)
    requires AllAdmissible(p, Held(start, []), steps)
    ensures AccountedFor(p, start, steps, LiveRun(p, start, steps))
  {
    hide RunAll, WellFormed, NoSummary, Sound, Carries, Thinned, Rebuilt, AllAdmissible, Appended, PlainNames, CarriedIff;
    LiveIsHeld(p, Held(start, []), steps);
    HistoryIsAccountedFor(p, start, steps, PlainNames(start + Appended(steps)));
    CarriedIsAppendedIff(p, start, steps);
  }
}
