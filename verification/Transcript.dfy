/** The message history a run keeps, and what it means for it to be replayable. */
module Transcript {
  import opened Basics

  datatype Role = System | User | Assistant | Tool

  /** Tool names: the ones the agent itself looks for, and all others. */
  datatype ToolName = WriteFile | EditFile | UpdatePlan | ToolSearch | Skill | Named(text: string)

  datatype ToolCall = ToolCall(id: string, name: ToolName, arguments: string)

  /** `images` counts attachments; reasoning blocks are not part of this model. */
  datatype Message = Message(
    role: Role, content: string, toolCalls: seq<ToolCall>, toolCallId: string, images: nat)

  type History = seq<Message>

  function SystemMessage(content: string): Message {
    Message(System, content, [], "", 0)
  }

  function UserMessage(content: string): Message {
    Message(User, content, [], "", 0)
  }

  function AssistantMessage(content: string, calls: seq<ToolCall>): Message {
    Message(Assistant, content, calls, "", 0)
  }

  function ToolMessage(content: string, id: string): Message {
    Message(Tool, content, [], id, 0)
  }

  /** `results` answers `calls` one by one, in order. */
  predicate Answers(results: seq<Message>, calls: seq<ToolCall>) {
    && |results| == |calls|
    && forall k :: 0 <= k < |calls| ==>
         results[k].role == Tool && results[k].toolCallId == calls[k].id && results[k].toolCalls == []
  }

  /** How many messages the block opened by `m` takes: itself and the answers to its calls. */
  function Width(m: Message): nat {
    if m.role == Assistant then 1 + |m.toolCalls| else 1
  }

  /** `ms` opens with a complete block. */
  predicate OpensWithBlock(ms: seq<Message>) {
    && ms != [] && Width(ms[0]) <= |ms|
    && ms[0].role != Tool
    && if ms[0].role == Assistant then Answers(ms[1..Width(ms[0])], ms[0].toolCalls) else ms[0].toolCalls == []
  }

  /** A history a strict provider replays: every advertised call is answered, at once and
      in order, and no tool message stands anywhere else. */
  predicate WellFormed(ms: seq<Message>)
    decreases |ms|
  {
    ms == [] || (OpensWithBlock(ms) && WellFormed(ms[Width(ms[0])..]))
  }

  /** The assistant message at `at` has had the first `done` of its calls answered so far. */
  predicate OpenTurn(ms: seq<Message>, at: nat, done: nat) {
    && at < |ms| && ms[at].role == Assistant
    && done <= |ms[at].toolCalls|
    && WellFormed(ms[..at])
    && Answers(ms[at + 1..], ms[at].toolCalls[..done])
  }

  lemma AnswerExtendsTurn(ms: seq<Message>, at: nat, done: nat, m: Message)
    requires OpenTurn(ms, at, done) && done < |ms[at].toolCalls|
    requires m.role == Tool && m.toolCallId == ms[at].toolCalls[done].id && m.toolCalls == []
    ensures OpenTurn(ms + [m], at, done + 1)
  {
    assert (ms + [m])[..at] == ms[..at];
    assert (ms + [m])[at + 1..] == ms[at + 1..] + [m];
  }

  lemma FullTurnWellFormed(ms: seq<Message>, at: nat)
    requires at < |ms| && OpenTurn(ms, at, |ms[at].toolCalls|)
    ensures WellFormed(ms)
  {
    var n := |ms[at].toolCalls|;
    assert ms[at].toolCalls[..n] == ms[at].toolCalls;
    var block := ms[at..];
    assert block[1..1 + n] == ms[at + 1..];
    assert block[1 + n..] == [];
    assert WellFormed(block);
    ConcatWellFormed(ms[..at], block);
    assert ms == ms[..at] + block;
  }

  lemma BlockStands(a: seq<Message>, b: seq<Message>)
    requires OpensWithBlock(a)
    ensures OpensWithBlock(a + b)
    ensures (a + b)[Width(a[0])..] == a[Width(a[0])..] + b
  {
    assert (a + b)[1..Width(a[0])] == a[1..Width(a[0])];
  }

  lemma {:induction false} ConcatWellFormed(a: seq<Message>, b: seq<Message>)
    requires WellFormed(a) && WellFormed(b)
    ensures WellFormed(a + b)
    decreases |a|
  {
    if a == [] {
      assert a + b == b;
    } else {
      ConcatWellFormed(a[Width(a[0])..], b);
      BlockStands(a, b);
    }
  }

  lemma InsideBlock(ms: seq<Message>, i: nat)
    requires OpensWithBlock(ms) && 0 < i < Width(ms[0])
    ensures ms[0].role == Assistant && ms[i].role == Tool
    ensures ms[i].toolCallId == ms[0].toolCalls[i - 1].id
  {
    assert ms[1..Width(ms[0])][i - 1] == ms[i];
  }

  lemma BlockKept(ms: seq<Message>, at: nat)
    requires OpensWithBlock(ms) && Width(ms[0]) <= at <= |ms|
    ensures OpensWithBlock(ms[..at])
    ensures ms[..at][Width(ms[0])..] == ms[Width(ms[0])..][..at - Width(ms[0])]
    ensures ms[at..] == ms[Width(ms[0])..][at - Width(ms[0])..]
  {
    assert ms[..at][1..Width(ms[0])] == ms[1..Width(ms[0])];
  }

  /** A cut in front of any message that is not a tool result splits no call from its answer. */
  lemma {:induction false} SplitWellFormed(ms: seq<Message>, at: nat)
    requires WellFormed(ms) && at <= |ms|
    requires at < |ms| ==> ms[at].role != Tool
    ensures WellFormed(ms[..at]) && WellFormed(ms[at..])
    decreases |ms|
  {
    if at == 0 {
      assert ms[0..] == ms;
    } else if at < Width(ms[0]) {
      InsideBlock(ms, at);
    } else {
      SplitWellFormed(ms[Width(ms[0])..], at - Width(ms[0]));
      BlockKept(ms, at);
    }
  }

  /** The same reading by position, without recursion: what each message may look at. */
  ghost predicate PairedAt(ms: seq<Message>, i: nat)
    requires i < |ms|
  {
    match ms[i].role
    case Assistant =>
      && i + |ms[i].toolCalls| < |ms|
      && Answers(ms[i + 1..i + 1 + |ms[i].toolCalls|], ms[i].toolCalls)
    case Tool =>
      exists a: nat :: a < i && ms[a].role == Assistant && i - a <= |ms[a].toolCalls|
    case _ => ms[i].toolCalls == []
  }

  ghost predicate AllPaired(ms: seq<Message>) {
    forall i: nat :: i < |ms| ==> PairedAt(ms, i)
  }

  /** Block by block and position by position say the same. */
  lemma WellFormedIffPaired(ms: seq<Message>)
    ensures WellFormed(ms) <==> AllPaired(ms)
  {
    if WellFormed(ms) {
      WellFormedPairs(ms);
    }
    if AllPaired(ms) {
      PairsWellFormed(ms);
    }
  }

  lemma PairedAfterBlock(ms: seq<Message>, skip: nat, i: nat)
    requires skip <= i < |ms| && PairedAt(ms[skip..], i - skip)
    ensures PairedAt(ms, i)
  {
    var rest := ms[skip..];
    if ms[i].role == Assistant {
      var m := |ms[i].toolCalls|;
      assert rest[i - skip + 1..i - skip + 1 + m] == ms[i + 1..i + 1 + m];
    } else if ms[i].role == Tool {
      var a: nat :| a < i - skip && rest[a].role == Assistant && i - skip - a <= |rest[a].toolCalls|;
      assert ms[a + skip] == rest[a];
    }
  }

  lemma {:induction false} WellFormedPairs(ms: seq<Message>)
    requires WellFormed(ms)
    ensures AllPaired(ms)
    decreases |ms|
  {
    if ms != [] {
      var w := Width(ms[0]);
      WellFormedPairs(ms[w..]);
      forall i: nat | i < |ms| ensures PairedAt(ms, i) {
        if w <= i {
          PairedAfterBlock(ms, w, i);
        } else if 0 < i {
          InsideBlock(ms, i);
        }
      }
    }
  }

  lemma ToolBehindBlock(ms: seq<Message>, i: nat, a: nat)
    requires OpensWithBlock(ms) && Width(ms[0]) <= i < |ms|
    requires a < i && ms[a].role == Assistant && i - a <= |ms[a].toolCalls|
    ensures Width(ms[0]) <= a
  {
    hide Answers;
    if 0 < a < Width(ms[0]) {
      InsideBlock(ms, a);
    }
  }

  lemma PairedBehindBlock(ms: seq<Message>, i: nat)
    requires OpensWithBlock(ms) && Width(ms[0]) <= i < |ms|
    requires AllPaired(ms)
    ensures PairedAt(ms[Width(ms[0])..], i - Width(ms[0]))
  {
    hide Answers, OpensWithBlock;
    var w := Width(ms[0]);
    var rest := ms[w..];
    assert PairedAt(ms, i) && rest[i - w] == ms[i];
    if ms[i].role == Assistant {
      var m := |ms[i].toolCalls|;
      assert rest[i - w + 1..i - w + 1 + m] == ms[i + 1..i + 1 + m];
    } else if ms[i].role == Tool {
      var a: nat :| a < i && ms[a].role == Assistant && i - a <= |ms[a].toolCalls|;
      ToolBehindBlock(ms, i, a);
      assert ms[a] == rest[a - w];
    }
  }

  lemma {:induction false} PairsWellFormed(ms: seq<Message>)
    requires AllPaired(ms)
    ensures WellFormed(ms)
    decreases |ms|
  {
    if ms != [] {
      assert PairedAt(ms, 0);
      var w := Width(ms[0]);
      forall i: nat | i < |ms| - w ensures PairedAt(ms[w..], i) {
        PairedBehindBlock(ms, i + w);
      }
      PairsWellFormed(ms[w..]);
    }
  }

  /** Only roles, calls and answer ids matter: bodies may be rewritten freely. */
  predicate SameShape(a: seq<Message>, b: seq<Message>) {
    && |a| == |b|
    && forall i :: 0 <= i < |a| ==>
         a[i].role == b[i].role && a[i].toolCalls == b[i].toolCalls && a[i].toolCallId == b[i].toolCallId
  }

  lemma {:induction false} SameShapeWellFormed(a: seq<Message>, b: seq<Message>)
    requires SameShape(a, b) && WellFormed(a)
    ensures WellFormed(b)
    decreases |a|
  {
    if a != [] {
      var w := Width(a[0]);
      assert SameShape(a[1..w], b[1..w]);
      SameShapeWellFormed(a[w..], b[w..]);
    }
  }

  // ---- the calls of a history and their answers, side by side ----

  function Calls(ms: seq<Message>): seq<ToolCall> {
    if ms == [] then [] else ms[0].toolCalls + Calls(ms[1..])
  }

  function ToolResults(ms: seq<Message>): seq<Message> {
    if ms == [] then []
    else (if ms[0].role == Tool then [ms[0]] else []) + ToolResults(ms[1..])
  }

  lemma {:induction false} CallsConcat(a: seq<Message>, b: seq<Message>)
    ensures Calls(a + b) == Calls(a) + Calls(b)
    decreases |a|
  {
    if a == [] {
      assert a + b == b;
    } else {
      assert (a + b)[1..] == a[1..] + b;
      CallsConcat(a[1..], b);
      assert Calls(a + b) == a[0].toolCalls + (Calls(a[1..]) + Calls(b));
    }
  }

  lemma {:induction false} ToolResultsConcat(a: seq<Message>, b: seq<Message>)
    ensures ToolResults(a + b) == ToolResults(a) + ToolResults(b)
    decreases |a|
  {
    if a == [] {
      assert a + b == b;
    } else {
      assert (a + b)[1..] == a[1..] + b;
      ToolResultsConcat(a[1..], b);
      var own := if a[0].role == Tool then [a[0]] else [];
      assert ToolResults(a + b) == own + (ToolResults(a[1..]) + ToolResults(b));
    }
  }

  lemma {:induction false} AllToolResults(results: seq<Message>, calls: seq<ToolCall>)
    requires Answers(results, calls)
    ensures ToolResults(results) == results && Calls(results) == []
    decreases |results|
  {
    if results != [] {
      assert Answers(results[1..], calls[1..]);
      AllToolResults(results[1..], calls[1..]);
      assert results == [results[0]] + results[1..];
    }
  }

  lemma OwnThenRest(own: seq<Message>, calls: seq<ToolCall>, rest: seq<Message>)
    requires Answers(own, calls) && Answers(ToolResults(rest), Calls(rest))
    ensures Answers(ToolResults(own + rest), calls + Calls(own + rest))
  {
    AllToolResults(own, calls);
    CallsConcat(own, rest);
    ToolResultsConcat(own, rest);
    AnswersConcat(own, calls, ToolResults(rest), Calls(rest));
    hide Answers, ToolResults, Calls;
    assert [] + Calls(rest) == Calls(rest);
  }

  lemma BlockAnswers(ms: seq<Message>)
    requires OpensWithBlock(ms)
    requires var rest := ms[Width(ms[0])..]; Answers(ToolResults(rest), Calls(rest))
    ensures Answers(ToolResults(ms), Calls(ms))
  {
    BlockIsThere(ms);
    OwnAnswers(ms);
    HeadAside(ms);
    hide Answers, OpensWithBlock, ToolResults, Calls;
    var w := Width(ms[0]);
    OwnThenRest(ms[1..w], ms[0].toolCalls, ms[w..]);
    assert ms[1..] == ms[1..w] + ms[w..];
  }

  lemma OwnAnswers(ms: seq<Message>)
    requires OpensWithBlock(ms)
    ensures Answers(ms[1..Width(ms[0])], ms[0].toolCalls)
    ensures ms[0].role != Tool
  {
    hide Answers;
    if ms[0].role != Assistant {
      NothingAnswered();
      assert ms[1..1] == [];
    }
  }

  lemma HeadAside(ms: seq<Message>)
    requires ms != [] && ms[0].role != Tool
    ensures ToolResults(ms) == ToolResults(ms[1..])
    ensures Calls(ms) == ms[0].toolCalls + Calls(ms[1..])
  {
    assert ToolResults(ms) == [] + ToolResults(ms[1..]);
  }

  lemma NothingAnswered()
    ensures Answers([], [])
  {
  }

  /** In a well-formed history the k-th tool message answers the k-th call. */
  lemma {:induction false} ResultsAnswerCalls(ms: seq<Message>)
    requires WellFormed(ms)
    ensures Answers(ToolResults(ms), Calls(ms))
    decreases |ms|
  {
    hide Answers, OpensWithBlock, ToolResults, Calls;
    if ms == [] {
      NoResults();
    } else {
      BlockIsThere(ms);
      ResultsAnswerCalls(ms[Width(ms[0])..]);
      BlockAnswers(ms);
    }
  }

  lemma BlockIsThere(ms: seq<Message>)
    requires OpensWithBlock(ms)
    ensures 1 <= Width(ms[0]) <= |ms|
  {
  }

  lemma NoResults()
    ensures Answers(ToolResults([]), Calls([]))
  {
  }

  lemma AnswersConcat(r1: seq<Message>, c1: seq<ToolCall>, r2: seq<Message>, c2: seq<ToolCall>)
    requires Answers(r1, c1) && Answers(r2, c2)
    ensures Answers(r1 + r2, c1 + c2)
  {
  }
}
