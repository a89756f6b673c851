/** The tokenizer-free size estimate that drives pruning and compaction. */
module Tokens {
  import opened Basics
  import opened Transcript

  const IMAGE_TOKENS := 1000

  function NonSpace(s: string): (n: nat)
    ensures n <= |s|
  {
    if s == "" then 0 else NonSpace(s[..|s| - 1]) + if IsSpace(s[|s| - 1]) then 0 else 1
  }

  /** ApproxTextTokens. */
  function TextTokens(s: string): nat {
    NonSpace(s) / 4
  }

  method ApproxTextTokens(value: string) returns (n: nat)
    ensures n == TextTokens(value)
  {
    var nonSpace := 0;
    for i := 0 to |value|
      invariant nonSpace == NonSpace(value[..i])
    {
      assert value[..i + 1][..i] == value[..i];
      if !IsSpace(value[i]) {
        nonSpace := nonSpace + 1;
      }
    }
    assert value[..|value|] == value;
    return nonSpace / 4;
  }

  function NameText(name: ToolName): string {
    match name
    case WriteFile => "write_file"
    case EditFile => "edit_file"
    case UpdatePlan => "update_plan"
    case ToolSearch => "tool_search"
    case Skill => "skill"
    case Named(text) => text
  }

  function CallCost(c: ToolCall): nat {
    TextTokens(NameText(c.name)) + TextTokens(c.arguments) + 4
  }

  function CallsCost(calls: seq<ToolCall>): nat {
    if calls == [] then 0 else CallsCost(calls[..|calls| - 1]) + CallCost(calls[|calls| - 1])
  }

  function Cost(m: Message): nat {
    TextTokens(m.content) + CallsCost(m.toolCalls) + m.images * IMAGE_TOKENS + 4
  }

  /** estimateTokens. */
  function Estimate(ms: seq<Message>): nat {
    if ms == [] then 0 else Estimate(ms[..|ms| - 1]) + Cost(ms[|ms| - 1])
  }

  method EstimateTokens(messages: seq<Message>) returns (total: nat)
    ensures total == Estimate(messages)
  {
    total := 0;
    for i := 0 to |messages|
      invariant total == Estimate(messages[..i])
    {
      assert messages[..i + 1][..i] == messages[..i];
      var m := messages[i];
      var text := ApproxTextTokens(m.content);
      var calls := 0;
      for j := 0 to |m.toolCalls|
        invariant calls == CallsCost(m.toolCalls[..j])
      {
        assert m.toolCalls[..j + 1][..j] == m.toolCalls[..j];
        var name := ApproxTextTokens(NameText(m.toolCalls[j].name));
        var arguments := ApproxTextTokens(m.toolCalls[j].arguments);
        calls := calls + name + arguments + 4;
      }
      assert m.toolCalls[..|m.toolCalls|] == m.toolCalls;
      total := total + text + calls + m.images * IMAGE_TOKENS + 4;
    }
    assert messages[..|messages|] == messages;
  }

  /** Rewriting one message moves the estimate by the difference of the two costs. */
  lemma {:induction false} EstimateUpdate(ms: seq<Message>, at: nat, m: Message)
    requires at < |ms|
    ensures Estimate(ms[at := m]) == Estimate(ms) - Cost(ms[at]) + Cost(m)
    decreases |ms|
  {
    hide Cost;
    var n := |ms| - 1;
    if at == n {
      assert ms[at := m][..n] == ms[..n];
    } else {
      EstimateUpdate(ms[..n], at, m);
      assert ms[at := m][..n] == ms[..n][at := m];
    }
  }

  // ---- what the estimate counts ----

  /** The bytes that are no white space are counted, wherever they stand. */
  lemma {:induction false} NonSpaceCounts(a: string, b: string)
    ensures NonSpace(a + b) == NonSpace(a) + NonSpace(b)
    ensures forall c: char :: NonSpace([c]) == if IsSpace(c) then 0 else 1
    decreases |b|
  {
    forall c: char ensures NonSpace([c]) == if IsSpace(c) then 0 else 1 {
      assert [c][..0] == [];
    }
    if b == "" {
      assert a + b == a;
    } else {
      assert (a + b)[..|a + b| - 1] == a + b[..|b| - 1];
      NonSpaceCounts(a, b[..|b| - 1]);
    }
  }

  lemma {:induction false} EstimateConcat(a: seq<Message>, b: seq<Message>)
    ensures Estimate(a + b) == Estimate(a) + Estimate(b)
    decreases |b|
  {
    hide Cost;
    if b == [] {
      assert a + b == a;
    } else {
      assert (a + b)[..|a + b| - 1] == a + b[..|b| - 1];
      EstimateConcat(a, b[..|b| - 1]);
    }
  }

  /** A quarter of the bytes that are no white space, a thousand for every image, and four. */
  lemma EstimateOfText(m: Message)
    requires m.toolCalls == []
    ensures Estimate([m]) == NonSpace(m.content) / 4 + 1000 * m.images + 4
  {
    assert [m][..0] == [];
  }

  /** For every call the name, the arguments, and four more. */
  lemma EstimateOfCall(m: Message, c: ToolCall)
    ensures Estimate([m.(toolCalls := m.toolCalls + [c])])
         == Estimate([m]) + NonSpace(NameText(c.name)) / 4 + NonSpace(c.arguments) / 4 + 4
  {
    var more := m.(toolCalls := m.toolCalls + [c]);
    assert [m][..0] == [] && [more][..0] == [];
    assert more.toolCalls[..|m.toolCalls|] == m.toolCalls;
  }
}
