/** Reclaiming context from old tool output before any paid summary (prune.go). */
module Prune {
  import opened Basics
  import opened Transcript
  import opened Tokens

  const PROTECT_RECENT_TOKENS := 40000
  const MIN_RECLAIM_TOKENS := 20000
  const MIN_BODY_TOKENS := 200

  const PRUNED_HEAD: string := "[pruned "
  // U+2014 in bytes.
  const DASH: string := "\U{E2}\U{80}\U{94}"
  const PRUNED_REST: string :=
    " tokens) to reclaim context " + DASH + " re-run the tool if you need it again]"

  function Decimal(n: nat): string {
    if n < 10 then ['0' + n as char] else Decimal(n / 10) + ['0' + (n % 10) as char]
  }

  /** prunedPlaceholder. */
  function Placeholder(toolName: string, originalTokens: nat): string {
    PRUNED_HEAD + ((if toolName == "" then "tool" else toolName) + (" output (~" + (Decimal(originalTokens) + PRUNED_REST)))
  }

  /** isPrunedPlaceholder. */
  predicate IsPlaceholder(content: string) {
    HasPrefix(Trim(content), PRUNED_HEAD)
  }

  lemma PlaceholderIsRecognised(toolName: string, n: nat)
    ensures IsPlaceholder(Placeholder(toolName, n))
  {
    hide Trim, Decimal;
    var p := Placeholder(toolName, n);
    assert p[0] == PRUNED_HEAD[0] == '[';
    var tail := PRUNED_REST;
    assert tail[|tail| - 1] == ']';
    assert p[|p| - 1] == tail[|tail| - 1];
    TrimUntouched(p);
  }

  /** toolNameForResult: the nearest earlier call with that id. */
  function NameIn(calls: seq<ToolCall>, id: string): Option<ToolName> {
    if calls == [] then None else if calls[0].id == id then Some(calls[0].name) else NameIn(calls[1..], id)
  }

  function NameBefore(ms: seq<Message>, id: string, j: nat): string
    requires j <= |ms|
  {
    if j == 0 then ""
    else
      match NameIn(ms[j - 1].toolCalls, id)
      case Some(name) => NameText(name)
      case None => NameBefore(ms, id, j - 1)
  }

  method ToolNameForResult(ms: seq<Message>, index: nat) returns (name: string)
    requires index < |ms|
    ensures name == if ms[index].toolCallId == "" then "" else NameBefore(ms, ms[index].toolCallId, index)
  {
    var id := ms[index].toolCallId;
    if id == "" {
      return "";
    }
    var j := index;
    while j > 0
      invariant 0 <= j <= index
      invariant NameBefore(ms, id, index) == NameBefore(ms, id, j)
    {
      j := j - 1;
      var calls := ms[j].toolCalls;
      for k := 0 to |calls|
        invariant NameIn(calls, id) == NameIn(calls[k..], id)
      {
        if calls[k].id == id {
          return NameText(calls[k].name);
        }
      }
    }
    return "";
  }

  // ---- which bodies may go ----

  /** Indices from here on are kept for their place. */
  function ProtectUntil(ms: seq<Message>, preserveLast: int): int {
    |ms| - if preserveLast < 0 then 0 else preserveLast
  }

  /** The tool output seen, newest first, down to `i`, as far as it counts as recent. */
  function Recent(ms: seq<Message>, p: int, i: nat): nat
    requires i <= |ms|
    decreases |ms| - i
  {
    if i == |ms| then 0
    else
      var newer := Recent(ms, p, i + 1);
      if ms[i].role == Tool && (i >= ProtectUntil(ms, p) || newer < PROTECT_RECENT_TOKENS)
      then newer + TextTokens(ms[i].content) else newer
  }

  /** An old, large tool body that is not a placeholder yet. */
  predicate Stale(ms: seq<Message>, p: int, i: nat)
    requires i < |ms|
  {
    && ms[i].role == Tool
    && i < ProtectUntil(ms, p)
    && Recent(ms, p, i + 1) >= PROTECT_RECENT_TOKENS
    && TextTokens(ms[i].content) >= MIN_BODY_TOKENS
    && !IsPlaceholder(ms[i].content)
  }

  function StaleFrom(ms: seq<Message>, p: int, i: nat): (r: seq<nat>)
    requires i <= |ms|
    ensures forall k :: 0 <= k < |r| ==> i <= r[k] < |ms|
    decreases |ms| - i
  {
    if i == |ms| then [] else StaleFrom(ms, p, i + 1) + if Stale(ms, p, i) then [i] else []
  }

  function Reclaimable(ms: seq<Message>, p: int, i: nat): nat
    requires i <= |ms|
    decreases |ms| - i
  {
    if i == |ms| then 0
    else Reclaimable(ms, p, i + 1) + if Stale(ms, p, i) then TextTokens(ms[i].content) else 0
  }

  function Emptied(ms: seq<Message>, i: nat): Message
    requires i < |ms|
  {
    var name := if ms[i].toolCallId == "" then "" else NameBefore(ms, ms[i].toolCallId, i);
    ms[i].(content := Placeholder(name, TextTokens(ms[i].content)))
  }

  /** Whether the pass runs at all: enough must be there to reclaim. */
  predicate Worthwhile(ms: seq<Message>, p: int) {
    Reclaimable(ms, p, 0) >= MIN_RECLAIM_TOKENS
  }

  /** The history after the pass: every stale body replaced, everything else as it was. */
  function Pruned(ms: seq<Message>, p: int): (r: seq<Message>)
    ensures SameShape(ms, r)
    ensures forall i :: 0 <= i < |ms| && !(Worthwhile(ms, p) && Stale(ms, p, i)) ==> r[i] == ms[i]
  {
    if Worthwhile(ms, p) then seq(|ms|, i requires 0 <= i < |ms| => if Stale(ms, p, i) then Emptied(ms, i) else ms[i])
    else ms
  }

  function Savings(ms: seq<Message>, at: seq<nat>): int
    requires forall k :: 0 <= k < |at| ==> at[k] < |ms|
  {
    if at == [] then 0
    else
      var i := at[|at| - 1];
      Savings(ms, at[..|at| - 1]) + (TextTokens(ms[i].content) - TextTokens(Emptied(ms, i).content))
  }

  function Reclaimed(ms: seq<Message>, p: int): int {
    if Worthwhile(ms, p) then Savings(ms, StaleFrom(ms, p, 0)) else 0
  }

  /** The first loop of pruneStaleToolOutput: newest first, with its running counters. */
  method FindStale(ms: seq<Message>, preserveLast: int) returns (candidates: seq<nat>, reclaimable: nat)
    ensures candidates == StaleFrom(ms, preserveLast, 0)
    ensures reclaimable == Reclaimable(ms, preserveLast, 0)
  {
    hide NonSpace, IsPlaceholder;
    var protectUntil := |ms| - if preserveLast < 0 then 0 else preserveLast;
    candidates, reclaimable := [], 0;
    var recentToolTokens := 0;
    var i := |ms|;
    while i > 0
      invariant 0 <= i <= |ms|
      invariant candidates == StaleFrom(ms, preserveLast, i)
      invariant reclaimable == Reclaimable(ms, preserveLast, i)
      invariant recentToolTokens == Recent(ms, preserveLast, i)
    {
      i := i - 1;
      var m := ms[i];
      if m.role != Tool {
        continue;
      }
      var bodyTokens := ApproxTextTokens(m.content);
      if i >= protectUntil {
        recentToolTokens := recentToolTokens + bodyTokens;
        continue;
      }
      if recentToolTokens < PROTECT_RECENT_TOKENS {
        recentToolTokens := recentToolTokens + bodyTokens;
        continue;
      }
      if bodyTokens < MIN_BODY_TOKENS || IsPlaceholder(m.content) {
        continue;
      }
      candidates := candidates + [i];
      reclaimable := reclaimable + bodyTokens;
    }
  }

  predicate Descending(at: seq<nat>) {
    forall i, j :: 0 <= i < j < |at| ==> at[j] < at[i]
  }

  lemma {:induction false} StaleList(ms: seq<Message>, p: int, i: nat)
    requires i <= |ms|
    ensures Descending(StaleFrom(ms, p, i))
    ensures forall x: nat :: x in StaleFrom(ms, p, i) <==> i <= x < |ms| && Stale(ms, p, x)
    decreases |ms| - i
  {
    hide Stale;
    if i < |ms| {
      StaleList(ms, p, i + 1);
    }
  }

  lemma NameBeforeKept(a: seq<Message>, b: seq<Message>, id: string, j: nat)
    requires SameShape(a, b) && j <= |a|
    ensures NameBefore(a, id, j) == NameBefore(b, id, j)
  {
  }

  /** The second loop, on a copy: the stale bodies give way to placeholders. */
  method ReplaceStale(ms: seq<Message>, candidates: seq<nat>) returns (out: seq<Message>, reclaimed: int)
    requires Descending(candidates) && forall k :: 0 <= k < |candidates| ==> candidates[k] < |ms|
    ensures |out| == |ms|
    ensures forall i :: 0 <= i < |ms| ==> out[i] == if i in candidates then Emptied(ms, i) else ms[i]
    ensures reclaimed == Savings(ms, candidates)
    ensures Estimate(out) + reclaimed == Estimate(ms)
  {
    hide Placeholder, TextTokens, NameBefore, NameText, Estimate, CallsCost, Pruned, StaleFrom;
    out, reclaimed := ms, 0;
    for k := 0 to |candidates|
      invariant |out| == |ms|
      invariant forall i :: 0 <= i < |ms| ==> out[i] == if i in candidates[..k] then Emptied(ms, i) else ms[i]
      invariant reclaimed == Savings(ms, candidates[..k])
      invariant Estimate(out) + reclaimed == Estimate(ms)
    {
      var at := candidates[k];
      assert candidates[..k + 1][..k] == candidates[..k];
      assert at !in candidates[..k];
      var toolName := ToolNameForResult(out, at);
      NameBeforeKept(ms, out, ms[at].toolCallId, at);
      var tokens := ApproxTextTokens(ms[at].content);
      var newBody := Placeholder(toolName, tokens);
      var newTokens := ApproxTextTokens(newBody);
      reclaimed := reclaimed + tokens - newTokens;
      EstimateUpdate(out, at, out[at].(content := newBody));
      out := out[at := out[at].(content := newBody)];
    }
    assert candidates[..|candidates|] == candidates;
  }

  /** pruneStaleToolOutput. */
  method PruneStaleToolOutput(ms: seq<Message>, preserveLast: int) returns (out: seq<Message>, reclaimed: int)
    ensures out == Pruned(ms, preserveLast)
    ensures reclaimed == Reclaimed(ms, preserveLast)
    ensures Estimate(out) + reclaimed == Estimate(ms)
  {
    hide Stale, Estimate, Savings;
    if |ms| == 0 {
      return ms, 0;
    }
    var candidates, reclaimable := FindStale(ms, preserveLast);
    if reclaimable < MIN_RECLAIM_TOKENS || |candidates| == 0 {
      NoneStale(ms, preserveLast, 0);
      return ms, 0;
    }
    StaleList(ms, preserveLast, 0);
    out, reclaimed := ReplaceStale(ms, candidates);
  }

  lemma {:induction false} NoneStale(ms: seq<Message>, p: int, i: nat)
    requires i <= |ms|
    ensures StaleFrom(ms, p, i) == [] ==> Reclaimable(ms, p, i) == 0
    decreases |ms| - i
  {
    if i < |ms| {
      NoneStale(ms, p, i + 1);
    }
  }

  // ---- what the pass keeps ----

  /** Only bodies of tool messages in front of the protected suffix change, and only to
      placeholders. */
  lemma PruneTouchesOnlyOldToolBodies(ms: seq<Message>, p: int, i: nat)
    requires i < |ms| && Pruned(ms, p)[i] != ms[i]
    ensures ms[i].role == Tool && i < ProtectUntil(ms, p) && Recent(ms, p, i + 1) >= PROTECT_RECENT_TOKENS
    ensures Pruned(ms, p)[i] == ms[i].(content := Pruned(ms, p)[i].content)
    ensures IsPlaceholder(Pruned(ms, p)[i].content) && !IsPlaceholder(ms[i].content)
  {
    hide Recent, IsPlaceholder, Placeholder, TextTokens, NameBefore;
    var name := if ms[i].toolCallId == "" then "" else NameBefore(ms, ms[i].toolCallId, i);
    PlaceholderIsRecognised(name, TextTokens(ms[i].content));
  }

  lemma PruneKeepsWellFormed(ms: seq<Message>, p: int)
    requires WellFormed(ms)
    ensures WellFormed(Pruned(ms, p))
  {
    SameShapeWellFormed(ms, Pruned(ms, p));
  }

  /** Emptying stale bodies does not move the window of recent output. */
  lemma {:induction false} RecentUnmoved(ms: seq<Message>, p: int, i: nat)
    requires i <= |ms|
    ensures Recent(Pruned(ms, p), p, i) == Recent(ms, p, i)
    decreases |ms| - i
  {
    hide TextTokens, IsPlaceholder, Placeholder, Worthwhile, NameBefore;
    if i < |ms| {
      assert !Stale(ms, p, i) ==> Pruned(ms, p)[i] == ms[i];
      RecentUnmoved(ms, p, i + 1);
    }
  }

  lemma NothingStaleTwice(ms: seq<Message>, p: int, i: nat)
    requires i < |ms| && Worthwhile(ms, p)
    ensures !Stale(Pruned(ms, p), p, i)
  {
    hide TextTokens, IsPlaceholder, Placeholder, Recent, NameBefore;
    RecentUnmoved(ms, p, i + 1);
    if Stale(ms, p, i) {
      var name := if ms[i].toolCallId == "" then "" else NameBefore(ms, ms[i].toolCallId, i);
      PlaceholderIsRecognised(name, TextTokens(ms[i].content));
    }
  }

  lemma {:induction false} NothingReclaimableTwice(ms: seq<Message>, p: int, i: nat)
    requires i <= |ms| && Worthwhile(ms, p)
    ensures Reclaimable(Pruned(ms, p), p, i) == 0
    decreases |ms| - i
  {
    hide Stale, Pruned;
    if i < |ms| {
      NothingReclaimableTwice(ms, p, i + 1);
      NothingStaleTwice(ms, p, i);
    }
  }

  /** A second pass finds nothing to do. */
  lemma PruneIsIdempotent(ms: seq<Message>, p: int)
    ensures Pruned(Pruned(ms, p), p) == Pruned(ms, p)
    ensures Reclaimed(Pruned(ms, p), p) == 0
  {
    hide Stale, Savings;
    if Worthwhile(ms, p) {
      NothingReclaimableTwice(ms, p, 0);
    }
  }

  // ---- what is stale, counted forward ----

  /** All tool output from message `i` on. */
  function ToolTokens(ms: seq<Message>, i: nat): nat
    requires i <= |ms|
    decreases |ms| - i
  {
    if i == |ms| then 0
    else (if ms[i].role == Tool then NonSpace(ms[i].content) / 4 else 0) + ToolTokens(ms, i + 1)
  }

  lemma {:induction false} RecentReaches(ms: seq<Message>, keep: int, i: nat)
    requires i <= |ms|
    ensures Recent(ms, keep, i) <= ToolTokens(ms, i)
    ensures Recent(ms, keep, i) < 40000 ==> Recent(ms, keep, i) == ToolTokens(ms, i)
    decreases |ms| - i
  {
    if i < |ms| {
      RecentReaches(ms, keep, i + 1);
    }
  }

  /** Stale is a tool message in front of the `keep` last messages, with 40000 tokens of tool output
      behind it, 200 of its own, and no placeholder in its body. */
  lemma StaleIff(ms: seq<Message>, keep: int, i: nat)
    requires i < |ms|
    ensures Stale(ms, keep, i) <==>
      && ms[i].role == Tool && i < |ms| - (if keep < 0 then 0 else keep)
      && ToolTokens(ms, i + 1) >= 40000 && NonSpace(ms[i].content) / 4 >= 200
      && !HasPrefix(Trim(ms[i].content), "[pruned ")
  {
    hide Trim;
    RecentReaches(ms, keep, i + 1);
  }

  /** A pass is worth it when 20000 tokens can be reclaimed. */
  lemma {:induction false} ReclaimableIsStale(ms: seq<Message>, keep: int, i: nat)
    requires i < |ms|
    ensures Reclaimable(ms, keep, i) - Reclaimable(ms, keep, i + 1)
         == if Stale(ms, keep, i) then NonSpace(ms[i].content) / 4 else 0
    ensures Reclaimable(ms, keep, |ms|) == 0 && (Worthwhile(ms, keep) <==> Reclaimable(ms, keep, 0) >= 20000)
  {
    hide Stale;
  }

  predicate FirstCall(calls: seq<ToolCall>, id: string, k: int) {
    0 <= k < |calls| && calls[k].id == id && forall l :: 0 <= l < k ==> calls[l].id != id
  }

  predicate NoCall(calls: seq<ToolCall>, id: string) {
    forall k :: 0 <= k < |calls| ==> calls[k].id != id
  }

  lemma {:induction false} FirstNamed(calls: seq<ToolCall>, id: string) returns (k: int)
    ensures match NameIn(calls, id)
      case None => NoCall(calls, id)
      case Some(name) => FirstCall(calls, id, k) && calls[k].name == name
    decreases |calls|
  {
    k := 0;
    if calls != [] && calls[0].id != id {
      k := FirstNamed(calls[1..], id);
      assert forall i :: 0 < i < |calls| ==> calls[i] == calls[1..][i - 1];
      k := k + 1;
    }
  }

  /** The name is that of the first call with the id in the nearest message that has one, "" when no
      message has. */
  lemma {:induction false} NameIsNearest(ms: seq<Message>, id: string, j: nat) returns (i: int, k: int)
    requires j <= |ms|
    ensures if i < 0 then NameBefore(ms, id, j) == "" && forall h :: 0 <= h < j ==> NoCall(ms[h].toolCalls, id)
            else i < j && FirstCall(ms[i].toolCalls, id, k) && NameBefore(ms, id, j) == NameText(ms[i].toolCalls[k].name)
                 && forall h :: i < h < j ==> NoCall(ms[h].toolCalls, id)
    decreases j
  {
    hide NameText, FirstCall, NoCall, NameIn;
    i, k := -1, 0;
    if j > 0 {
      k := FirstNamed(ms[j - 1].toolCalls, id);
      if NameIn(ms[j - 1].toolCalls, id).Some? {
        i := j - 1;
      } else {
        i, k := NameIsNearest(ms, id, j - 1);
      }
    }
  }

  // ---- the count in the placeholder ----

  /** What a decimal number says. */
  function Number(digits: string): int {
    if digits == "" then 0 else 10 * Number(digits[..|digits| - 1]) + (digits[|digits| - 1] as int - '0' as int)
  }

  lemma {:induction false} DecimalReads(n: nat)
    ensures Number(Decimal(n)) == n && Decimal(n) != ""
    ensures forall i :: 0 <= i < |Decimal(n)| ==> '0' <= Decimal(n)[i] <= '9'
    ensures n >= 10 ==> Decimal(n)[0] != '0'
    decreases n
  {
    if n >= 10 {
      var head, last := Decimal(n / 10), ['0' + (n % 10) as char];
      DecimalReads(n / 10);
      assert (head + last)[..|head|] == head;
      if n / 10 < 10 {
        assert head[0] == '0' + (n / 10) as char;
      }
    } else {
      assert ['0' + n as char][..0] == "";
    }
  }
}
