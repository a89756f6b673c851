/** Replacing the oldest middle of a history by one summary (compaction.go). */
module Compaction {
  import opened Basics
  import opened Transcript
  import opened LastSeen
  import opened Preserve
  import opened OnePass
  import opened Merge
  import opened PreservedFrame
  import opened Tokens
  import Prune

  const DEFAULT_PRESERVE_LAST := 6
  const SUMMARY_LABEL: string := "[Summary of earlier conversation]"

  // ---- where to cut ----

  /** The leading system messages. */
  function SystemEnd(ms: seq<Message>): (n: nat)
    ensures n <= |ms| && (n < |ms| ==> ms[n].role != System)
    ensures forall i :: 0 <= i < n ==> ms[i].role == System
  {
    if ms != [] && ms[0].role == System then 1 + SystemEnd(ms[1..]) else 0
  }

  /** What is appended behind other messages does not move the system prefix. */
  lemma {:induction false} SystemEndKept(a: seq<Message>, b: seq<Message>)
    requires SystemEnd(a) < |a|
    ensures SystemEnd(a + b) == SystemEnd(a)
    decreases |a|
  {
    if a[0].role == System {
      assert (a + b)[1..] == a[1..] + b;
      SystemEndKept(a[1..], b);
    }
  }

  function SafeBoundary(ms: seq<Message>, systemEnd: nat, b: nat): (r: nat)
    requires systemEnd <= b <= |ms| && (b > systemEnd ==> b < |ms|)
    ensures systemEnd <= r <= b
    ensures r > systemEnd ==> ms[r].role == Assistant
    ensures forall i :: r < i <= b ==> ms[i].role != Assistant
  {
    if b > systemEnd && ms[b].role != Assistant then SafeBoundary(ms, systemEnd, b - 1) else b
  }

  function Keep(preserveLast: int): (k: nat)
    ensures k > 0
  {
    if preserveLast <= 0 then DEFAULT_PRESERVE_LAST else preserveLast
  }

  /** The first message kept behind the summary. */
  function Boundary(ms: seq<Message>, preserveLast: int): (b: nat)
    ensures SystemEnd(ms) <= b <= |ms|
    ensures b > SystemEnd(ms) ==> b < |ms| && ms[b].role == Assistant && |ms| - b >= Keep(preserveLast)
  {
    var systemEnd := SystemEnd(ms);
    var naive := |ms| - Keep(preserveLast);
    SafeBoundary(ms, systemEnd, if naive < systemEnd then systemEnd else naive)
  }

  function Middle(ms: seq<Message>, preserveLast: int): seq<Message> {
    ms[SystemEnd(ms)..Boundary(ms, preserveLast)]
  }

  /** The suffix has the messages asked for, six if none were, and as few more as it takes to open with
      an assistant message; or everything behind the system prompt stays. */
  lemma BoundaryIsNearest(ms: seq<Message>, preserveLast: int)
    ensures var keep := if preserveLast <= 0 then 6 else preserveLast;
      var b, s := Boundary(ms, preserveLast), SystemEnd(ms);
      && s <= b <= |ms|
      && (b > s ==> b <= |ms| - keep && ms[b].role == Assistant)
      && forall i :: b < i <= |ms| - keep ==> ms[i].role != Assistant
  {
    hide SystemEnd;
  }

  method FindSystemEnd(ms: seq<Message>) returns (systemEnd: nat)
    ensures systemEnd == SystemEnd(ms)
  {
    systemEnd := 0;
    while systemEnd < |ms| && ms[systemEnd].role == System
      invariant systemEnd <= |ms|
      invariant SystemEnd(ms) == systemEnd + SystemEnd(ms[systemEnd..])
    {
      assert ms[systemEnd..][1..] == ms[systemEnd + 1..];
      systemEnd := systemEnd + 1;
    }
  }

  method SafeSuffixBoundary(ms: seq<Message>, systemEnd: nat, boundary: nat) returns (b: nat)
    requires systemEnd <= boundary <= |ms| && (boundary > systemEnd ==> boundary < |ms|)
    ensures b == SafeBoundary(ms, systemEnd, boundary)
  {
    b := boundary;
    while b > systemEnd && ms[b].role != Assistant
      invariant systemEnd <= b <= boundary
      invariant SafeBoundary(ms, systemEnd, boundary) == SafeBoundary(ms, systemEnd, b)
    {
      b := b - 1;
    }
  }

  // ---- the summary message ----

  predicate IsSummary(m: Message) {
    m.role == User && HasPrefix(Trim(m.content), SUMMARY_LABEL)
  }

  /** The newest injected summary, "" when there is none. */
  function LatestSummary(ms: seq<Message>): string {
    if ms == [] then ""
    else if IsSummary(ms[|ms| - 1]) then ms[|ms| - 1].content
    else LatestSummary(ms[..|ms| - 1])
  }

  method LatestSummaryContent(ms: seq<Message>) returns (content: string)
    ensures content == LatestSummary(ms)
  {
    hide IsSummary;
    var i := |ms|;
    assert ms[..i] == ms;
    while i > 0
      invariant 0 <= i <= |ms|
      invariant LatestSummary(ms) == LatestSummary(ms[..i])
    {
      i := i - 1;
      assert ms[..i + 1][..i] == ms[..i];
      if IsSummary(ms[i]) {
        return ms[i].content;
      }
    }
    return "";
  }

  /** What the summary of `middle` carries. */
  function StateOf(p: Parsers, middle: seq<Message>): Carried {
    CarryOn(p, ParseBlock(p.state, LABEL, LatestSummary(middle)), middle)
  }

  function SummaryMessage(p: Parsers, summary: string, middle: seq<Message>): Message {
    UserMessage(AppendBlock(LABEL, SUMMARY_LABEL + ("\n" + Trim(summary)), StateOf(p, middle)))
  }

  /** The summary opens with its label and what the summarizer said, and nothing stands behind that but
      the state, if there is any. */
  lemma SummaryTellsProse(p: Parsers, summary: string, middle: seq<Message>)
    ensures var m := SummaryMessage(p, summary, middle);
      var prose := "[Summary of earlier conversation]" + "\n" + Trim(summary);
      && m.role == User && m.toolCalls == [] && prose <= m.content
      && (StateOf(p, middle) == NOTHING ==> m.content == prose)
      && (StateOf(p, middle) != NOTHING ==>
            m.content[|prose|..] == "\n\n" + LABEL + "\n" + Encode(StateOf(p, middle)))
  {
    hide StateOf, Trim, Encode, LABEL;
    var prose := "[Summary of earlier conversation]" + "\n" + Trim(summary);
    assert prose == SUMMARY_LABEL + ("\n" + Trim(summary));
    var tail := LABEL + ("\n" + Encode(StateOf(p, middle)));
    assert prose + "\n\n" + tail == prose + ("\n\n" + LABEL + "\n" + Encode(StateOf(p, middle)));
  }

  /** appendPreservedState. */
  method AppendPreservedState(p: Parsers, summary: string, middle: seq<Message>) returns (content: string)
    ensures content == AppendBlock(LABEL, summary, StateOf(p, middle))
  {
    hide AppendBlock, ParseBlock, CarryOn, LatestSummary;
    var prior := LatestSummaryContent(middle);
    var state := CarryState(p, ParseBlock(p.state, LABEL, prior), middle);
    return AppendBlock(LABEL, summary, state);
  }

  // ---- compaction ----

  datatype Compacted = Compacted(
    messages: seq<Message>, removedCount: nat, preservedCount: nat, summaryText: string, compacted: bool)

  /** System prefix, one summary, suffix. */
  function Spliced(p: Parsers, ms: seq<Message>, preserveLast: int, summary: string): seq<Message> {
    ms[..SystemEnd(ms)] + [SummaryMessage(p, summary, Middle(ms, preserveLast))] + ms[Boundary(ms, preserveLast)..]
  }

  /** CompactMessages, the summarizer being its parameter. */
  method CompactMessages(p: Parsers, ms: seq<Message>, preserveLast: int,
                         summarize: Option<seq<Message> -> Result<string>>) returns (r: Result<Compacted>)
    ensures r.Err? <==> (summarize.None?
      || (Middle(ms, preserveLast) != [] && summarize.value(Middle(ms, preserveLast)).Err?))
    ensures r.Err? && summarize.Some? ==> r.error == summarize.value(Middle(ms, preserveLast)).error
    ensures r.Ok? ==> (r.value.compacted <==> Middle(ms, preserveLast) != [])
    ensures r.Ok? && !r.value.compacted ==> r.value.messages == ms && r.value.removedCount == 0
    ensures r.Ok? && r.value.compacted ==>
      r.value.messages == Spliced(p, ms, preserveLast, summarize.value(Middle(ms, preserveLast)).value)
    ensures r.Ok? ==> r.value.removedCount + r.value.preservedCount == |ms|
    ensures r.Ok? && r.value.compacted ==>
      r.value.preservedCount >= Keep(preserveLast) && |r.value.messages| == r.value.preservedCount + 1
  {
    hide AppendBlock, StateOf, Trim, SystemEnd, SafeBoundary;
    if summarize.None? {
      return Err("compaction requires a Summarize function");
    }
    var keep := if preserveLast <= 0 then DEFAULT_PRESERVE_LAST else preserveLast;
    var systemEnd := FindSystemEnd(ms);
    var boundary := |ms| - keep;
    if boundary < systemEnd {
      boundary := systemEnd;
    }
    boundary := SafeSuffixBoundary(ms, systemEnd, boundary);
    var middle := ms[systemEnd..boundary];
    if |middle| == 0 {
      return Ok(Compacted(ms, 0, |ms|, "", false));
    }
    var summary := summarize.value(middle);
    if summary.Err? {
      return Err(summary.error);
    }
    var text := Trim(summary.value);
    var content := AppendPreservedState(p, SUMMARY_LABEL + ("\n" + text), middle);
    var compacted := ms[..systemEnd] + [UserMessage(content)] + ms[boundary..];
    return Ok(Compacted(compacted, |middle|, |ms| - |middle|, text, true));
  }

  /** The first message behind the system prompt is never a tool result. */
  lemma {:induction false} SystemPrefixWellFormed(ms: seq<Message>)
    requires WellFormed(ms)
    ensures SystemEnd(ms) < |ms| ==> ms[SystemEnd(ms)].role != Tool
    decreases |ms|
  {
    if ms != [] && ms[0].role == System {
      SystemPrefixWellFormed(ms[1..]);
    }
  }

  /** The cut splits a well-formed history into three well-formed parts. */
  lemma CutSplitsNoBlock(ms: seq<Message>, preserveLast: int)
    requires WellFormed(ms)
    ensures WellFormed(ms[..SystemEnd(ms)])
    ensures WellFormed(Middle(ms, preserveLast))
    ensures WellFormed(ms[Boundary(ms, preserveLast)..])
  {
    var s, b := SystemEnd(ms), Boundary(ms, preserveLast);
    SystemPrefixWellFormed(ms);
    SplitWellFormed(ms, s);
    if b > s {
      SplitWellFormed(ms, b);
      assert ms[..b][s..] == ms[s..b];
      SplitWellFormed(ms[..b], s);
    }
  }

  /** Compaction keeps a history replayable, for every history and every summary. */
  lemma CompactionKeepsWellFormed(p: Parsers, ms: seq<Message>, preserveLast: int, summary: string)
    requires WellFormed(ms)
    ensures WellFormed(Spliced(p, ms, preserveLast, summary))
  {
    hide SummaryMessage;
    var s, b := ms[..SystemEnd(ms)], ms[Boundary(ms, preserveLast)..];
    CutSplitsNoBlock(ms, preserveLast);
    SummaryStandsAlone(p, summary, Middle(ms, preserveLast));
    ConcatWellFormed(s, [SummaryMessage(p, summary, Middle(ms, preserveLast))]);
    ConcatWellFormed(s + [SummaryMessage(p, summary, Middle(ms, preserveLast))], b);
  }

  lemma SummaryStandsAlone(p: Parsers, summary: string, middle: seq<Message>)
    ensures WellFormed([SummaryMessage(p, summary, middle)])
  {
    hide AppendBlock, StateOf, Trim;
    var m := SummaryMessage(p, summary, middle);
    assert [m][1..] == [];
  }
}
