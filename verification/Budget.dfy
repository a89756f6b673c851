/** When a run compacts (compaction.go): the summarizer with its split-in-half fallback, the
    calibrated estimate, and the two ways a history is made smaller. */
module Budget {
  import opened Basics
  import opened Transcript
  import opened Preserve
  import opened PreservedFrame
  import opened Tokens
  import opened Prune
  import opened Compaction

  // ---- the summarizer ----

  /** The stream of the k-th summarization call on a slice comes to anything; `tooLong` is the
      substring test for a context-limit error. */
  datatype Summarizer = Summarizer(once: (nat, seq<Message>) -> Result<string>, tooLong: string -> bool)

  /** Text without white space at its ends. */
  predicate Solid(t: string) {
    t != "" && !IsSpace(t[0]) && !IsSpace(t[|t| - 1])
  }

  const NO_TEXT: string := "summarizer returned no text"

  /** summarizeMessagesOnce: an answer is trimmed, and a blank one is none. */
  function Asked(s: Summarizer, k: nat, part: seq<Message>): (r: Result<string>)
    ensures r.Ok? ==> Solid(r.value) && s.once(k, part).Ok?
  {
    match s.once(k, part)
    case Err(e) => Err(e)
    case Ok(text) =>
      TrimmedIsSolid(text);
      if Trim(text) == "" then Err(NO_TEXT) else Ok(Trim(text))
  }

  lemma TrimmedIsSolid(text: string)
    ensures Trim(text) == "" || Solid(Trim(text))
  {
  }

  /** `e` is what call `k`, made within `from..to`, came to; a slice that does not fit is given
      up on only when it cannot be split. */
  ghost predicate Surfaced(s: Summarizer, e: Result<string>, from: nat, to: nat) {
    e.Err? && exists k: nat, part: seq<Message> {:trigger Asked(s, k, part)} ::
      from <= k < to && Asked(s, k, part) == e && (s.tooLong(e.error) ==> |part| < 2)
  }

  /** summarizeWithFallback; `n` calls were made before, and the second component counts on. */
  function SummarizeWithFallback(s: Summarizer, ms: seq<Message>, n: nat): (r: (Result<string>, nat))
    ensures n < r.1 <= n + if |ms| < 2 then 1 else 3 * |ms| - 2
    ensures r.0.Err? ==> Surfaced(s, r.0, n, r.1)
    decreases |ms|
  {
    var whole := Asked(s, n, ms);
    if whole.Ok? || |ms| < 2 || !s.tooLong(whole.error) then (whole, n + 1)
    else
      var mid := |ms| / 2;
      var left := SummarizeWithFallback(s, ms[..mid], n + 1);
      if left.0.Err? then left
      else
        var right := SummarizeWithFallback(s, ms[mid..], left.1);
        if right.0.Err? then right
        else
          var combined := Trim(left.0.value + "\n\n" + right.0.value);
          var reduced := Asked(s, right.1, [UserMessage(combined)]);
          if reduced.Err? && s.tooLong(reduced.error) then (Ok(combined), right.1 + 1)
          else (reduced, right.1 + 1)
  }

  // ---- what reaches the summary ----

  /** How a summary came about: by one call on a slice, or by a reducing call on a text that tells what
      the two halves say. */
  datatype Digest = Whole(call: nat, slice: seq<Message>) | Halves(left: Digest, right: Digest, text: string, call: nat)

  /** What a digest says: what its call answered, or the text that was too long for the call. */
  function Says(s: Summarizer, d: Digest): string {
    var answer := if d.Whole? then Asked(s, d.call, d.slice) else Asked(s, d.call, [UserMessage(d.text)]);
    if answer.Ok? then answer.value else if d.Whole? then "" else d.text
  }

  function About(d: Digest): seq<Message> {
    match d
    case Whole(_, slice) => slice
    case Halves(left, right, _, _) => About(left) + About(right)
  }

  /** First `a`, an empty line, then `b`, and nothing else. */
  predicate TellsBoth(text: string, a: string, b: string) {
    && |text| == |a| + 2 + |b|
    && text[..|a|] == a && text[|a|..|a| + 2] == "\n\n" && text[|a| + 2..] == b
  }

  /** Every part was answered within these calls, and every text put to a reducing call tells what both
      halves say, whole, the earlier half first. */
  ghost predicate Heard(s: Summarizer, d: Digest, from: nat, to: nat) {
    && from <= d.call < to
    && match d
       case Whole(k, slice) => Asked(s, k, slice).Ok?
       case Halves(left, right, text, k) =>
         && Heard(s, left, from, k) && Heard(s, right, from, k)
         && TellsBoth(text, Says(s, left), Says(s, right))
         && (Asked(s, k, [UserMessage(text)]).Ok? || s.tooLong(Asked(s, k, [UserMessage(text)]).error))
  }

  lemma {:induction false} HeardLonger(s: Summarizer, d: Digest, from: nat, to: nat, from': nat, to': nat)
    requires Heard(s, d, from, to) && from' <= from && to <= to'
    ensures Heard(s, d, from', to')
    decreases d
  {
    match d
    case Whole(_, _) =>
    case Halves(left, right, _, k) =>
      HeardLonger(s, left, from, k, from', k);
      HeardLonger(s, right, from, k, from', k);
  }

  lemma JoinedText(a: string, b: string)
    requires Solid(a) && Solid(b)
    ensures Trim(a + "\n\n" + b) == a + "\n\n" + b && Solid(a + "\n\n" + b)
    ensures TellsBoth(a + "\n\n" + b, a, b)
  {
    var t := a + "\n\n" + b;
    assert t[0] == a[0] && t[|t| - 1] == b[|b| - 1];
    TrimUntouched(t);
  }

  /** However often it is split: a summary that comes back is what a digest of all the messages says,
      in which nothing a half said was lost on the way to the call that reduces it. */
  lemma {:induction false} SummaryTellsEverything(s: Summarizer, ms: seq<Message>, n: nat) returns (d: Digest)
    requires SummarizeWithFallback(s, ms, n).0.Ok?
    ensures var r := SummarizeWithFallback(s, ms, n);
      Heard(s, d, n, r.1) && About(d) == ms && Says(s, d) == r.0.value && Solid(r.0.value)
    decreases |ms|
  {
    hide Trim, Surfaced, Solid, TellsBoth;
    var whole := Asked(s, n, ms);
    if whole.Ok? || |ms| < 2 || !s.tooLong(whole.error) {
      d := Whole(n, ms);
    } else {
      var mid := |ms| / 2;
      var left := SummarizeWithFallback(s, ms[..mid], n + 1);
      var right := SummarizeWithFallback(s, ms[mid..], left.1);
      var a := SummaryTellsEverything(s, ms[..mid], n + 1);
      var b := SummaryTellsEverything(s, ms[mid..], left.1);
      d := Halves(a, b, left.0.value + "\n\n" + right.0.value, right.1);
      JoinedText(left.0.value, right.0.value);
      assert ms == ms[..mid] + ms[mid..];
      hide SummarizeWithFallback, About;
      HeardBoth(s, a, b, n, left.1, right.1);
    }
  }

  lemma HeardBoth(s: Summarizer, a: Digest, b: Digest, n: nat, mid: nat, k: nat)
    requires Heard(s, a, n + 1, mid) && Heard(s, b, mid, k)
    ensures n < mid < k && Heard(s, a, n, k) && Heard(s, b, n, k)
  {
    hide Asked, TellsBoth;
    HeardLonger(s, a, n + 1, mid, n, k);
    HeardLonger(s, b, mid, k, n, k);
  }

  /** The answers a digest rests on, oldest first. */
  function Replies(s: Summarizer, d: Digest): seq<string> {
    match d
    case Whole(k, slice) => [Says(s, d)]
    case Halves(left, right, _, _) => Replies(s, left) + Replies(s, right)
  }

  /** No reducing call was answered: each of the texts was too long. */
  ghost predicate Unreduced(s: Summarizer, d: Digest) {
    d.Halves? ==> Unreduced(s, d.left) && Unreduced(s, d.right) && Asked(s, d.call, [UserMessage(d.text)]).Err?
  }

  /** The texts stand whole in `text`, one behind the other. */
  predicate Placed(text: string, parts: seq<string>, at: seq<nat>) {
    && |at| == |parts|
    && (forall i :: 0 <= i < |parts| ==> at[i] + |parts[i]| <= |text| && text[at[i]..at[i] + |parts[i]|] == parts[i])
    && (forall i, j :: 0 <= i < j < |parts| ==> at[i] + |parts[i]| < at[j])
  }

  lemma PlacedOne(text: string)
    ensures Placed(text, [text], [0])
  {
  }

  lemma PlacedBoth(text: string, a: string, b: string, p: seq<string>, q: seq<string>, at: seq<nat>, bt: seq<nat>)
    returns (ct: seq<nat>)
    requires TellsBoth(text, a, b) && Placed(a, p, at) && Placed(b, q, bt)
    ensures Placed(text, p + q, ct)
  {
    hide TellsBoth;
    ct := at + seq(|bt|, i requires 0 <= i < |bt| => |a| + 2 + bt[i]);
    var all := p + q;
    forall i | 0 <= i < |all| ensures ct[i] + |all[i]| <= |text| && text[ct[i]..ct[i] + |all[i]|] == all[i] {
      if i < |p| {
        PlacedLeft(text, a, b, p[i], at[i]);
      } else {
        PlacedRight(text, a, b, q[i - |p|], bt[i - |p|]);
      }
    }
  }

  lemma PlacedLeft(text: string, a: string, b: string, part: string, at: nat)
    requires TellsBoth(text, a, b) && at + |part| <= |a| && a[at..at + |part|] == part
    ensures at + |part| <= |text| && text[at..at + |part|] == part
  {
    assert text[..|a|][at..at + |part|] == text[at..at + |part|];
  }

  lemma PlacedRight(text: string, a: string, b: string, part: string, at: nat)
    requires TellsBoth(text, a, b) && at + |part| <= |b| && b[at..at + |part|] == part
    ensures |a| + 2 + at + |part| <= |text| && text[|a| + 2 + at..|a| + 2 + at + |part|] == part
  {
    assert text[|a| + 2..][at..at + |part|] == text[|a| + 2 + at..|a| + 2 + at + |part|];
  }

  /** Where no reducing call was answered, the summary holds every answer it rests on, in order. */
  lemma {:induction false} UnreducedTellsAll(s: Summarizer, d: Digest, from: nat, to: nat) returns (at: seq<nat>)
    requires Heard(s, d, from, to) && Unreduced(s, d)
    ensures Placed(Says(s, d), Replies(s, d), at)
    decreases d
  {
    hide Asked, TellsBoth, Placed;
    match d {
      case Whole(_, _) =>
        at := [0];
        PlacedOne(Says(s, d));
      case Halves(left, right, text, k) =>
        var a := UnreducedTellsAll(s, left, from, k);
        var b := UnreducedTellsAll(s, right, from, k);
        at := PlacedBoth(text, Says(s, left), Says(s, right), Replies(s, left), Replies(s, right), a, b);
    }
  }

  /** A model that takes one message at a time, no prompt of a user among them, and tells it again. */
  const ONE_AT_A_TIME := Summarizer(
    (k, part: seq<Message>) => if |part| == 1 && part[0].role != User then Ok(part[0].content) else Err(""), e => true)

  function Contents(ms: seq<Message>): (r: seq<string>)
    ensures |r| == |ms|
  {
    seq(|ms|, i requires 0 <= i < |ms| => Trim(ms[i].content))
  }

  lemma AskedOne(k: nat, m: Message)
    requires m.role != User && Trim(m.content) != ""
    ensures Asked(ONE_AT_A_TIME, k, [m]) == Ok(Trim(m.content))
  {
    hide Trim;
  }

  lemma AskedMore(k: nat, part: seq<Message>)
    requires |part| > 1 || (|part| == 1 && part[0].role == User)
    ensures Asked(ONE_AT_A_TIME, k, part).Err? && ONE_AT_A_TIME.tooLong(Asked(ONE_AT_A_TIME, k, part).error)
  {
  }

  /** Halves that were told, and a text that does not fit. */
  lemma TextComesBack(s: Summarizer, ms: seq<Message>, n: nat, left: (Result<string>, nat), right: (Result<string>, nat))
    requires |ms| >= 2 && Asked(s, n, ms).Err? && s.tooLong(Asked(s, n, ms).error)
    requires left == SummarizeWithFallback(s, ms[..|ms| / 2], n + 1) && left.0.Ok? && Solid(left.0.value)
    requires right == SummarizeWithFallback(s, ms[|ms| / 2..], left.1) && right.0.Ok? && Solid(right.0.value)
    requires var text := left.0.value + "\n\n" + right.0.value;
      var reduced := Asked(s, right.1, [UserMessage(text)]); reduced.Err? && s.tooLong(reduced.error)
    ensures SummarizeWithFallback(s, ms, n) == (Ok(left.0.value + "\n\n" + right.0.value), right.1 + 1)
  {
    hide Trim, Asked, Surfaced, Solid, TellsBoth;
    JoinedText(left.0.value, right.0.value);
  }

  /** With such a model the bound on the calls is met exactly, and the summary holds what every message
      says, in order. */
  lemma {:induction false} CallBoundIsTight(ms: seq<Message>, n: nat) returns (at: seq<nat>)
    requires ms != [] && forall i :: 0 <= i < |ms| ==> ms[i].role != User && Trim(ms[i].content) != ""
    ensures var r := SummarizeWithFallback(ONE_AT_A_TIME, ms, n);
      r.0.Ok? && r.1 == n + 3 * |ms| - 2 && Solid(r.0.value) && Placed(r.0.value, Contents(ms), at)
    decreases |ms|
  {
    hide Trim, Asked, Surfaced, Solid, TellsBoth, Placed, ONE_AT_A_TIME, SummarizeWithFallback, Contents;
    if |ms| == 1 {
      OneTold(ms[0], n);
      assert ms == [ms[0]];
      at := [0];
    } else {
      var mid := |ms| / 2;
      AskedMore(n, ms);
      var a := CallBoundIsTight(ms[..mid], n + 1);
      var left := SummarizeWithFallback(ONE_AT_A_TIME, ms[..mid], n + 1);
      var b := CallBoundIsTight(ms[mid..], left.1);
      var right := SummarizeWithFallback(ONE_AT_A_TIME, ms[mid..], left.1);
      JoinedText(left.0.value, right.0.value);
      var text := left.0.value + "\n\n" + right.0.value;
      AskedMore(right.1, [UserMessage(text)]);
      at := PlacedBoth(text, left.0.value, right.0.value, Contents(ms[..mid]), Contents(ms[mid..]), a, b);
      TextComesBack(ONE_AT_A_TIME, ms, n, left, right);
      ContentsInHalves(ms, mid);
    }
  }

  lemma OneTold(m: Message, n: nat)
    requires m.role != User && Trim(m.content) != ""
    ensures var r := SummarizeWithFallback(ONE_AT_A_TIME, [m], n);
      r.0.Ok? && r.1 == n + 1 && Solid(r.0.value) && Placed(r.0.value, Contents([m]), [0])
  {
    hide Trim, Surfaced, Solid, TellsBoth, Placed, ONE_AT_A_TIME;
    assert Contents([m]) == [Trim(m.content)];
    AskedOne(n, m);
    PlacedOne(Trim(m.content));
  }

  lemma ContentsInHalves(ms: seq<Message>, mid: nat)
    requires mid <= |ms|
    ensures Contents(ms) == Contents(ms[..mid]) + Contents(ms[mid..])
  {
    hide Trim;
  }

  function SummarizeClosure(s: Summarizer): seq<Message> -> Result<string> {
    (ms: seq<Message>) => SummarizeWithFallback(s, ms, 0).0
  }

  // ---- the calibrated estimate ----

  const TRIGGER_RATIO := 0.7
  const ALPHA := 0.3
  const MIN_SAMPLE := 0.5
  const MAX_SAMPLE := 2.0

  function Threshold(contextWindow: int): nat {
    if contextWindow <= 0 then 0 else (contextWindow as real * TRIGGER_RATIO).Floor
  }

  /** Seven tenths of the window, rounded down. */
  lemma ThresholdIsSevenTenths(contextWindow: nat)
    ensures 10 * Threshold(contextWindow) <= 7 * contextWindow < 10 * Threshold(contextWindow) + 10
  {
    var t := contextWindow as real * TRIGGER_RATIO;
    assert t.Floor as real <= t < t.Floor as real + 1.0;
  }

  function Clamp(sample: real): real {
    if sample < MIN_SAMPLE then MIN_SAMPLE else if sample > MAX_SAMPLE then MAX_SAMPLE else sample
  }

  /** The nearest number of the band. */
  lemma ClampIsNearest(sample: real, other: real)
    requires 0.5 <= other <= 2.0
    ensures 0.5 <= Clamp(sample) <= 2.0
    ensures Distance(sample, Clamp(sample)) <= Distance(sample, other)
  {
  }

  function Distance(a: real, b: real): real {
    if a < b then b - a else a - b
  }

  function Blend(ratio: real, sample: real): real {
    ratio * (1.0 - ALPHA) + sample * ALPHA
  }

  function Blends(ratio: real, sample: real, k: nat): real {
    if k == 0 then ratio else Blend(Blends(ratio, sample, k - 1), sample)
  }

  function Pow(b: real, k: nat): real {
    if k == 0 then 1.0 else b * Pow(b, k - 1)
  }

  /** Fed the same sample again and again, the ratio closes in on it geometrically. */
  lemma {:induction false} CalibrationConverges(ratio: real, sample: real, k: nat)
    ensures Blends(ratio, sample, k) - sample == Pow(1.0 - ALPHA, k) * (ratio - sample)
  {
    if k > 0 {
      CalibrationConverges(ratio, sample, k - 1);
      var gap := Blends(ratio, sample, k - 1) - sample;
      assert Blend(sample + gap, sample) - sample == (1.0 - ALPHA) * gap;
      assert (1.0 - ALPHA) * (Pow(1.0 - ALPHA, k - 1) * (ratio - sample))
          == ((1.0 - ALPHA) * Pow(1.0 - ALPHA, k - 1)) * (ratio - sample);
    }
  }

  /** An unset ratio leaves the raw estimate alone. */
  function Calibrated(ratio: real, raw: nat): int {
    if ratio <= 0.0 then raw else (raw as real * ratio).Floor
  }

  /** The raw estimate times the ratio, rounded down; an unset ratio counts as one. */
  lemma CalibratedIsScaled(ratio: real, raw: nat)
    ensures var scaled := raw as real * if ratio <= 0.0 then 1.0 else ratio;
      Calibrated(ratio, raw) as real <= scaled < Calibrated(ratio, raw) as real + 1.0
  {
  }

  lemma CalibratedMonotone(ratio: real, a: nat, b: nat)
    requires a <= b
    ensures 0 <= Calibrated(ratio, a) <= Calibrated(ratio, b)
  {
    if ratio > 0.0 {
      assert 0.0 <= a as real * ratio <= b as real * ratio;
    }
  }

  // ---- what the two operations keep ----

  lemma {:induction false} SystemEndOfPrefix(a: seq<Message>, b: seq<Message>)
    requires b != [] && b[0].role != System
    requires forall i :: 0 <= i < |a| ==> a[i].role == System
    ensures SystemEnd(a + b) == |a|
    decreases |a|
  {
    if a == [] {
      assert a + b == b;
    } else {
      assert (a + b)[1..] == a[1..] + b;
      SystemEndOfPrefix(a[1..], b);
    }
  }

  /** The system prompt stands where it stood, word for word. */
  predicate SameSystem(a: seq<Message>, b: seq<Message>) {
    && SystemEnd(a) == SystemEnd(b) && a[..SystemEnd(a)] == b[..SystemEnd(b)]
    && (|a| > SystemEnd(a) ==> |b| > SystemEnd(b))
  }

  lemma SpliceKeepsSystem(p: Parsers, ms: seq<Message>, preserveLast: int, summary: string)
    ensures SameSystem(ms, Spliced(p, ms, preserveLast, summary))
  {
    hide AppendBlock, StateOf, Trim, Boundary;
    var m := SummaryMessage(p, summary, Middle(ms, preserveLast));
    var head, tail := ms[..SystemEnd(ms)], [m] + ms[Boundary(ms, preserveLast)..];
    SystemEndOfPrefix(head, tail);
    assert Spliced(p, ms, preserveLast, summary) == head + tail;
  }

  lemma {:induction false} SystemEndByShape(a: seq<Message>, b: seq<Message>)
    requires SameShape(a, b)
    ensures SystemEnd(a) == SystemEnd(b)
    decreases |a|
  {
    if a != [] {
      SystemEndByShape(a[1..], b[1..]);
    }
  }

  lemma PruneKeepsSystem(ms: seq<Message>, preserveLast: int)
    ensures SameSystem(ms, Pruned(ms, preserveLast))
  {
    hide Worthwhile, Recent, IsPlaceholder;
    var out := Pruned(ms, preserveLast);
    SystemEndByShape(ms, out);
    forall i | 0 <= i < SystemEnd(ms) ensures out[i] == ms[i] {
      assert ms[i].role == System;
    }
  }

  /** What the run loop relies on: replayable stays replayable, and the system prompt stays. */
  predicate Kept(ms: seq<Message>, out: seq<Message>) {
    (WellFormed(ms) ==> WellFormed(out)) && SameSystem(ms, out)
  }

  lemma PruneKeeps(ms: seq<Message>, preserveLast: int)
    ensures Kept(ms, Pruned(ms, preserveLast))
  {
    hide Pruned, WellFormed, SystemEnd;
    if WellFormed(ms) {
      PruneKeepsWellFormed(ms, preserveLast);
    }
    PruneKeepsSystem(ms, preserveLast);
  }

  lemma KeptSame(ms: seq<Message>)
    ensures Kept(ms, ms)
  {
  }

  lemma KeptTwice(a: seq<Message>, b: seq<Message>, c: seq<Message>)
    requires Kept(a, b) && Kept(b, c)
    ensures Kept(a, c)
  {
  }

  /** Compact: the history behind one round of summarizing, unchanged when nothing is old enough. */
  function AfterCompact(p: Parsers, s: Summarizer, ms: seq<Message>, preserveLast: int): Result<seq<Message>> {
    var middle := Middle(ms, preserveLast);
    if middle == [] then Ok(ms)
    else
      match SummarizeWithFallback(s, middle, 0).0
      case Ok(summary) => Ok(Spliced(p, ms, preserveLast, summary))
      case Err(e) => Err(e)
  }

  method Compact(p: Parsers, s: Summarizer, ms: seq<Message>, preserveLast: int) returns (r: Result<seq<Message>>)
    ensures r == AfterCompact(p, s, ms, preserveLast)
  {
    hide Spliced, Middle, SummarizeWithFallback;
    var c := CompactMessages(p, ms, preserveLast, Some(SummarizeClosure(s)));
    return match c case Ok(result) => Ok(result.messages) case Err(e) => Err(e);
  }

  lemma CompactKeeps(p: Parsers, s: Summarizer, ms: seq<Message>, preserveLast: int)
    ensures var r := AfterCompact(p, s, ms, preserveLast); r.Ok? ==> Kept(ms, r.value)
  {
    hide Spliced, Middle, SummarizeWithFallback, WellFormed, SystemEnd;
    var r := SummarizeWithFallback(s, Middle(ms, preserveLast), 0).0;
    if Middle(ms, preserveLast) != [] && r.Ok? {
      if WellFormed(ms) {
        CompactionKeepsWellFormed(p, ms, preserveLast, r.value);
      }
      SpliceKeepsSystem(p, ms, preserveLast, r.value);
    }
  }

  /** What the summarizer is handed: the history with its stale tool output emptied. */
  function Base(ms: seq<Message>, preserveLast: int): seq<Message> {
    if Reclaimed(ms, preserveLast) > 0 then Pruned(ms, preserveLast) else ms
  }

  /** What a request costs: the messages and the tool definitions that ride along. */
  function Size(ratio: real, ms: seq<Message>, toolTokens: nat): int {
    Calibrated(ratio, Estimate(ms) + toolTokens)
  }

  /** Over the threshold, and grown since the last compaction. */
  predicate IsDue(enabled: bool, threshold: nat, lowWaterMark: int, size: int) {
    enabled && size > threshold && !(lowWaterMark > 0 && size <= lowWaterMark)
  }

  // ---- the per-run state ----

  /** The compactor at one moment. */
  datatype Gauge = Gauge(enabled: bool, threshold: nat, mark: int, attempted: bool, ratio: real)

  /** maybeCompact: the history it leaves, and the low-water mark. */
  function Proactive(g: Gauge, p: Parsers, s: Summarizer, keep: int, ms: seq<Message>, toolTokens: nat): (seq<Message>, int) {
    var base := Base(ms, keep);
    var size := Size(g.ratio, base, toolTokens);
    if !IsDue(g.enabled, g.threshold, g.mark, Size(g.ratio, ms, toolTokens)) then (ms, g.mark)
    else if Reclaimed(ms, keep) > 0 && size <= g.threshold then (base, size)
    else
      match AfterCompact(p, s, base, keep)
      case Err(_) => (base, g.mark)
      case Ok(compacted) =>
        if Size(g.ratio, compacted, toolTokens) < size then (compacted, Size(g.ratio, compacted, toolTokens))
        else (base, size)
  }

  /** The compactor behind one more sample. */
  function Sampled(g: Gauge, estimate: int, promptTokens: int): Gauge {
    if !g.enabled || estimate <= 0 || promptTokens <= 0 then g
    else g.(ratio := Blend(if g.ratio == 0.0 then 1.0 else g.ratio, Clamp(promptTokens as real / estimate as real)))
  }

  class CompactionState {
    var enabled: bool
    var threshold: nat
    var preserveLast: int
    var lowWaterMark: int
    var reactiveAttempted: bool
    var calibrationRatio: real

    /** Unset until the first sample, and in the band of a single sample from then on. */
    ghost predicate Valid()
      reads this
    {
      calibrationRatio == 0.0 || MIN_SAMPLE <= calibrationRatio <= MAX_SAMPLE
    }

    ghost function Reading(): Gauge
      reads this
    {
      Gauge(enabled, threshold, lowWaterMark, reactiveAttempted, calibrationRatio)
    }

    constructor (contextWindow: int, preserveLast: int)
      ensures Valid() && calibrationRatio == 0.0 && lowWaterMark == 0 && !reactiveAttempted
      ensures enabled == (contextWindow > 0) && threshold == Threshold(contextWindow)
      ensures this.preserveLast == preserveLast
    {
      enabled := contextWindow > 0;
      threshold := Threshold(contextWindow);
      this.preserveLast := preserveLast;
      lowWaterMark := 0;
      reactiveAttempted := false;
      calibrationRatio := 0.0;
    }

    method Calibrate(rawEstimate: int, actualPromptTokens: int)
      requires Valid()
      modifies this`calibrationRatio
      ensures Valid()
      ensures Reading() == Sampled(old(Reading()), rawEstimate, actualPromptTokens)
      ensures calibrationRatio ==
        if !enabled || rawEstimate <= 0 || actualPromptTokens <= 0 then old(calibrationRatio)
        else Blend(if old(calibrationRatio) == 0.0 then 1.0 else old(calibrationRatio),
                   Clamp(actualPromptTokens as real / rawEstimate as real))
    {
      if !enabled || rawEstimate <= 0 || actualPromptTokens <= 0 {
        return;
      }
      var sample := actualPromptTokens as real / rawEstimate as real;
      if sample < 0.5 {
        sample := 0.5;
      } else if sample > 2.0 {
        sample := 2.0;
      }
      if calibrationRatio <= 0.0 {
        calibrationRatio := 1.0;
      }
      calibrationRatio := calibrationRatio * (1.0 - ALPHA) + sample * ALPHA;
    }

    predicate Due(size: int)
      reads this
    {
      IsDue(enabled, threshold, lowWaterMark, size)
    }

    /** maybeCompact. Whatever changes gets strictly smaller, and unless the summarizer failed a
        second call right behind the first does nothing. */
    method MaybeCompact(p: Parsers, s: Summarizer, ms: seq<Message>, toolTokens: nat) returns (out: seq<Message>)
      modifies this`lowWaterMark
      ensures out == ms || Estimate(out) < Estimate(ms)
      ensures Kept(ms, out)
      ensures !old(Due(Size(calibrationRatio, ms, toolTokens))) ==> out == ms && lowWaterMark == old(lowWaterMark)
      ensures old(Due(Size(calibrationRatio, ms, toolTokens))) ==>
        var base := Base(ms, preserveLast);
        var size := Size(calibrationRatio, base, toolTokens);
        if Reclaimed(ms, preserveLast) > 0 && size <= threshold then out == base && lowWaterMark == size
        else
          match AfterCompact(p, s, base, preserveLast)
          case Err(_) => out == base && lowWaterMark == old(lowWaterMark)
          case Ok(compacted) =>
            if Size(calibrationRatio, compacted, toolTokens) < size
            then out == compacted && lowWaterMark == Size(calibrationRatio, compacted, toolTokens)
            else out == base && lowWaterMark == size
      ensures (out, lowWaterMark) == Proactive(old(Reading()), p, s, preserveLast, ms, toolTokens)
      ensures lowWaterMark == old(lowWaterMark) || lowWaterMark == Size(calibrationRatio, out, toolTokens)
      ensures Due(Size(calibrationRatio, out, toolTokens)) ==> AfterCompact(p, s, Base(ms, preserveLast), preserveLast).Err? && out == Base(ms, preserveLast)
    {
      hide Estimate, Reclaimed, Pruned, AfterCompact, Kept, Calibrated, Stale, Worthwhile, SameShape;
      KeptSame(ms);
      ghost var base := Base(ms, preserveLast);
      out := ms;
      if !enabled {
        return;
      }
      var tokens := EstimateTokens(out);
      var size := Calibrated(calibrationRatio, tokens + toolTokens);
      if size <= threshold {
        return;
      }
      if lowWaterMark > 0 && size <= lowWaterMark {
        return;
      }
      var pruned, reclaimed := PruneStaleToolOutput(ms, preserveLast);
      if reclaimed > 0 {
        PruneKeeps(ms, preserveLast);
        out := pruned;
        tokens := EstimateTokens(out);
        size := Calibrated(calibrationRatio, tokens + toolTokens);
        if size <= threshold {
          lowWaterMark := size;
          return;
        }
      }
      assert out == base;
      var before := out;
      out := SummarizeIfSmaller(p, s, before, size, toolTokens);
      KeptTwice(ms, before, out);
    }

    /** The paid second stage: the summary is taken only if it makes the history smaller. */
    method SummarizeIfSmaller(p: Parsers, s: Summarizer, ms: seq<Message>, size: int, toolTokens: nat)
      returns (out: seq<Message>)
      requires size == Size(calibrationRatio, ms, toolTokens)
      modifies this`lowWaterMark
      ensures out == ms || Estimate(out) < Estimate(ms)
      ensures Kept(ms, out)
      ensures match AfterCompact(p, s, ms, preserveLast)
        case Err(_) => out == ms && lowWaterMark == old(lowWaterMark)
        case Ok(compacted) =>
          var newSize := Size(calibrationRatio, compacted, toolTokens);
          if newSize < size then out == compacted && lowWaterMark == newSize else out == ms && lowWaterMark == size
    {
      hide Estimate, AfterCompact, Kept, Calibrated;
      KeptSame(ms);
      var r := Compact(p, s, ms, preserveLast);
      if r.Err? {
        return ms;
      }
      var tokens := EstimateTokens(r.value);
      var newSize := Calibrated(calibrationRatio, tokens + toolTokens);
      if newSize >= size {
        lowWaterMark := size;
        return ms;
      }
      Smaller(calibrationRatio, Estimate(ms) + toolTokens, Estimate(r.value) + toolTokens);
      CompactKeeps(p, s, ms, preserveLast);
      lowWaterMark := newSize;
      return r.value;
    }

    /** recover. `retried` without a failure asks the caller to send again, at most once per run. */
    method Recover(p: Parsers, s: Summarizer, ms: seq<Message>, toolTokens: nat, error: string)
      returns (out: seq<Message>, retried: bool, failure: Option<string>)
      modifies this`lowWaterMark, this`reactiveAttempted
      ensures Kept(ms, out)
      ensures failure.Some? ==> retried && AfterCompact(p, s, ms, preserveLast) == Err(failure.value)
      ensures var r := AfterCompact(p, s, ms, preserveLast);
        retried <==> (enabled && !old(reactiveAttempted) && s.tooLong(error)
                      && (r.Err? || Estimate(r.value) < Estimate(ms)))
      ensures retried && AfterCompact(p, s, ms, preserveLast).Err? ==> failure.Some?
      ensures reactiveAttempted == (old(reactiveAttempted) || retried)
      ensures if retried && failure.None?
              then Ok(out) == AfterCompact(p, s, ms, preserveLast) && Estimate(out) < Estimate(ms)
                   && lowWaterMark == Size(calibrationRatio, out, toolTokens)
              else out == ms && lowWaterMark == old(lowWaterMark)
    {
      hide Estimate, AfterCompact, Kept, Calibrated;
      KeptSame(ms);
      if !enabled || reactiveAttempted || !s.tooLong(error) {
        return ms, false, None;
      }
      var r := Compact(p, s, ms, preserveLast);
      if r.Err? {
        reactiveAttempted := true;
        return ms, true, Some(r.error);
      }
      var before := EstimateTokens(ms);
      var after := EstimateTokens(r.value);
      if after >= before {
        return ms, false, None;
      }
      CompactKeeps(p, s, ms, preserveLast);
      reactiveAttempted := true;
      lowWaterMark := Calibrated(calibrationRatio, after + toolTokens);
      return r.value, true, None;
    }
  }

  /** A smaller calibrated size comes from a smaller raw estimate. */
  lemma Smaller(ratio: real, before: nat, after: nat)
    requires Calibrated(ratio, after) < Calibrated(ratio, before)
    ensures after < before
  {
    if after >= before {
      CalibratedMonotone(ratio, before, after);
    }
  }
}
