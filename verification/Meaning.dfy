/** What the carried state says, read off the messages themselves. */
module Meaning {
  import opened Basics
  import opened Transcript
  import opened LastSeen
  import opened Preserve
  import opened OnePass
  import opened Merge
  import Utf8

  // ---- where the calls and their answers stand ----

  /** The calls advertised in front of message `i`. */
  function Before(ms: seq<Message>, i: nat): nat
    requires i <= |ms|
  {
    if i == 0 then 0 else Before(ms, i - 1) + |ms[i - 1].toolCalls|
  }

  lemma {:induction false} BeforeAll(ms: seq<Message>, i: nat)
    requires i <= |ms|
    ensures Calls(ms[..i]) <= Calls(ms) && |Calls(ms[..i])| == Before(ms, i)
    decreases i
  {
    hide Calls;
    NoCalls();
    assert ms[..i] + ms[i..] == ms;
    CallsConcat(ms[..i], ms[i..]);
    if i == 0 {
      assert ms[..0] == [];
    } else {
      BeforeAll(ms, i - 1);
      CallsSnoc(ms, i - 1);
    }
  }

  /** The calls of a history are those of its messages, in their order. */
  lemma CallStands(ms: seq<Message>, i: nat, j: nat)
    requires i < |ms| && j < |ms[i].toolCalls|
    ensures Before(ms, i) + j < |Calls(ms)| && Calls(ms)[Before(ms, i) + j] == ms[i].toolCalls[j]
  {
    hide Calls;
    BeforeAll(ms, i);
    BeforeAll(ms, i + 1);
    CallsSnoc(ms, i);
    assert Calls(ms[..i + 1])[Before(ms, i) + j] == ms[i].toolCalls[j];
  }

  /** And there are no others. */
  lemma {:induction false} CallFrom(ms: seq<Message>, n: nat, k: nat) returns (i: nat, j: nat)
    requires n <= |ms| && k < Before(ms, n)
    ensures i < n && j < |ms[i].toolCalls| && k == Before(ms, i) + j
    decreases n
  {
    if k >= Before(ms, n - 1) {
      i, j := n - 1, k - Before(ms, n - 1);
    } else {
      i, j := CallFrom(ms, n - 1, k);
    }
  }

  lemma {:induction false} BeforeAscends(ms: seq<Message>, i: nat, n: nat)
    requires i <= n <= |ms|
    ensures Before(ms, i) <= Before(ms, n)
    decreases n
  {
    if i < n {
      BeforeAscends(ms, i, n - 1);
    }
  }

  lemma {:induction false} BeforeSplit(ms: seq<Message>, w: nat, i: nat)
    requires w <= i <= |ms|
    ensures Before(ms, i) == Before(ms, w) + Before(ms[w..], i - w)
    decreases i
  {
    if i > w {
      BeforeSplit(ms, w, i - 1);
    }
  }

  lemma {:induction false} SilentBlock(ms: seq<Message>, n: nat)
    requires OpensWithBlock(ms) && 1 <= n <= Width(ms[0])
    ensures Before(ms, n) == |ms[0].toolCalls|
    decreases n
  {
    if n == 1 {
      assert Before(ms, 0) == 0;
    } else {
      SilentBlock(ms, n - 1);
      SilentAnswer(ms, n - 1);
    }
  }

  lemma SilentAnswer(ms: seq<Message>, i: nat)
    requires OpensWithBlock(ms) && 1 <= i < Width(ms[0])
    ensures ms[i].toolCalls == []
  {
    assert ms[1..Width(ms[0])][i - 1] == ms[i];
  }

  lemma FirstBlock(ms: seq<Message>)
    requires WellFormed(ms) && ms != []
    ensures OpensWithBlock(ms) && 1 <= Width(ms[0]) <= |ms| && WellFormed(ms[Width(ms[0])..])
    ensures ms[0].toolCalls != [] ==> Width(ms[0]) == 1 + |ms[0].toolCalls|
  {
    hide Answers;
  }

  /** The answers are the tool messages, and the answer to a call stands in its place in the block. */
  lemma {:induction false} AnswerStands(ms: seq<Message>, i: nat, j: nat)
    requires WellFormed(ms) && i < |ms| && j < |ms[i].toolCalls|
    ensures i + 1 + j < |ms| && Before(ms, i) + j < |ToolResults(ms)|
    ensures ToolResults(ms)[Before(ms, i) + j] == ms[i + 1 + j]
    decreases |ms|
  {
    hide WellFormed, OpensWithBlock, ToolResults, Width, Before;
    FirstBlock(ms);
    ResultsOfBlock(ms);
    NotInside(ms, i);
    var w := Width(ms[0]);
    if i == 0 {
      NothingBefore(ms);
    } else {
      AnswerStands(ms[w..], i - w, j);
      BeforeSplit(ms, w, i);
      SilentBlock(ms, w);
    }
  }

  lemma NotInside(ms: seq<Message>, i: nat)
    requires OpensWithBlock(ms) && i < |ms| && ms[i].toolCalls != []
    ensures i == 0 || i >= Width(ms[0])
  {
    if 0 < i < Width(ms[0]) {
      SilentAnswer(ms, i);
    }
  }

  lemma NothingBefore(ms: seq<Message>)
    ensures Before(ms, 0) == 0
  {
  }

  lemma ResultsOfBlock(ms: seq<Message>)
    requires OpensWithBlock(ms)
    ensures |ms[1..Width(ms[0])]| == |ms[0].toolCalls|
    ensures ToolResults(ms) == ms[1..Width(ms[0])] + ToolResults(ms[Width(ms[0])..])
  {
    var w := Width(ms[0]);
    OwnAnswers(ms);
    HeadAside(ms);
    AllToolResults(ms[1..w], ms[0].toolCalls);
    hide Answers, ToolResults;
    assert ms[1..] == ms[1..w] + ms[w..];
    ToolResultsConcat(ms[1..w], ms[w..]);
    if ms[0].role == Assistant {
      assert |ms[1..w]| == |ms[0].toolCalls|;
    }
  }

  // ---- the plan ----

  predicate IsPlan(p: Parsers, c: ToolCall) {
    c.name == UpdatePlan && p.plan(c.arguments) != ""
  }

  predicate PlanAt(p: Parsers, ms: seq<Message>, i: int, j: int) {
    0 <= i < |ms| && 0 <= j < |ms[i].toolCalls| && IsPlan(p, ms[i].toolCalls[j])
  }

  /** The plan is that of the last readable update_plan call, and none only if there is no such call. */
  ghost predicate PlanIs(p: Parsers, ms: seq<Message>, plan: string) {
    if plan == "" then forall i, j :: !PlanAt(p, ms, i, j)
    else exists i, j :: PlanAt(p, ms, i, j) && plan == p.plan(ms[i].toolCalls[j].arguments)
                        && forall k, l :: PlanAt(p, ms, k, l) ==> k < i || (k == i && l <= j)
  }

  lemma {:induction false} LatestOf(p: Parsers, calls: seq<ToolCall>)
    ensures LatestPlan(p, calls) == "" ==> forall k :: 0 <= k < |calls| ==> !IsPlan(p, calls[k])
    ensures LatestPlan(p, calls) != "" ==>
      exists k :: 0 <= k < |calls| && IsPlan(p, calls[k]) && LatestPlan(p, calls) == p.plan(calls[k].arguments)
                  && forall l :: k < l < |calls| ==> !IsPlan(p, calls[l])
    decreases |calls|
  {
    if calls != [] {
      var n := |calls| - 1;
      LatestOf(p, calls[..n]);
      if !IsPlan(p, calls[n]) && LatestPlan(p, calls) != "" {
        var k :| 0 <= k < n && IsPlan(p, calls[..n][k]) && LatestPlan(p, calls) == p.plan(calls[..n][k].arguments)
                 && forall l :: k < l < n ==> !IsPlan(p, calls[..n][l]);
        assert calls[k] == calls[..n][k];
        forall l | k < l < |calls| ensures !IsPlan(p, calls[l]) {
          assert l < n ==> calls[..n][l] == calls[l];
        }
      } else if !IsPlan(p, calls[n]) {
        forall k | 0 <= k < |calls| ensures !IsPlan(p, calls[k]) {
          assert k < n ==> calls[..n][k] == calls[k];
        }
      }
    }
  }

  lemma LatestPlanIs(p: Parsers, ms: seq<Message>)
    ensures PlanIs(p, ms, LatestPlan(p, Calls(ms)))
  {
    hide LatestPlan, Calls, Before, IsPlan;
    var calls := Calls(ms);
    LatestOf(p, calls);
    assert ms[..|ms|] == ms;
    BeforeAll(ms, |ms|);
    if LatestPlan(p, calls) == "" {
      forall i, j ensures !PlanAt(p, ms, i, j) {
        if 0 <= i < |ms| && 0 <= j < |ms[i].toolCalls| {
          CallStands(ms, i, j);
        }
      }
    } else {
      var k :| 0 <= k < |calls| && IsPlan(p, calls[k]) && LatestPlan(p, calls) == p.plan(calls[k].arguments)
               && forall l :: k < l < |calls| ==> !IsPlan(p, calls[l]);
      var i, j := CallFrom(ms, |ms|, k);
      CallStands(ms, i, j);
      forall i', j' | PlanAt(p, ms, i', j') ensures i' < i || (i' == i && j' <= j) {
        CallStands(ms, i', j');
        assert Before(ms, i') + j' <= k;
        if i < i' {
          BeforeStep(ms, i);
          BeforeAscends(ms, i + 1, i');
        }
      }
      assert PlanAt(p, ms, i, j);
    }
  }

  lemma BeforeStep(ms: seq<Message>, i: nat)
    requires i < |ms|
    ensures Before(ms, i + 1) == Before(ms, i) + |ms[i].toolCalls|
  {
  }

  // ---- digests ----

  /** One entry a name: with the body written last under it, in the order of the first writings, and
      none left out. */
  ghost predicate Digests(entries: seq<Entry>, log: seq<Entry>) {
    && (forall a, b :: 0 <= a < b < |entries| ==> entries[a].name != entries[b].name)
    && (forall i :: 0 <= i < |log| ==> exists a :: 0 <= a < |entries| && entries[a].name == log[i].name)
    && (forall a :: 0 <= a < |entries| ==> Latest(log, entries[a]))
    && (forall a, b :: 0 <= a < b < |entries| ==> Precedes(log, entries[a].name, entries[b].name))
  }

  predicate LastIs(log: seq<Entry>, i: int, e: Entry) {
    0 <= i < |log| && log[i] == e && forall j :: i < j < |log| ==> log[j].name != e.name
  }

  predicate FirstAhead(log: seq<Entry>, i: int, name: string, other: string) {
    0 <= i < |log| && log[i].name == name && forall j :: 0 <= j <= i ==> log[j].name != other
  }

  /** The entry was the last to be written under its name. */
  ghost predicate Latest(log: seq<Entry>, e: Entry) {
    exists i :: LastIs(log, i, e)
  }

  /** One name was first written ahead of any other writing under the other. */
  ghost predicate Precedes(log: seq<Entry>, name: string, other: string) {
    exists i :: FirstAhead(log, i, name, other)
  }

  lemma LastOneMore(log: seq<Entry>, i: int, e: Entry, more: Entry)
    requires LastIs(log, i, e) && e.name != more.name
    ensures LastIs(log + [more], i, e)
  {
  }

  lemma FirstOneMore(log: seq<Entry>, i: int, name: string, other: string, more: Entry)
    requires FirstAhead(log, i, name, other)
    ensures FirstAhead(log + [more], i, name, other)
  {
  }

  lemma {:induction false} FirstPlaceDigests(log: seq<Entry>)
    ensures Digests(FirstPlace(log), log)
    decreases |log|
  {
    if log != [] {
      var n := |log| - 1;
      var before, e := log[..n], log[n];
      assert log == before + [e];
      FirstPlaceDigests(before);
      FirstPlaceStep(before, e);
      DigestsOneMore(FirstPlace(before), before, e);
    }
  }

  lemma DigestsOneMore(entries: seq<Entry>, log: seq<Entry>, e: Entry)
    requires Digests(entries, log)
    ensures Digests(Upsert(entries, e), log + [e])
  {
    hide LastIs, FirstAhead;
    var out, all := Upsert(entries, e), log + [e];
    NamedOrNew(entries, e);
    forall a | 0 <= a < |out| ensures Latest(all, out[a]) {
      if out[a].name == e.name {
        LastOfAll(log, e);
      } else {
        assert Latest(log, entries[a]);
        var i :| LastIs(log, i, entries[a]);
        LastOneMore(log, i, entries[a], e);
      }
    }
    forall a, b | 0 <= a < b < |out| ensures Precedes(all, out[a].name, out[b].name) {
      if b < |entries| {
        assert Precedes(log, entries[a].name, entries[b].name);
        var i :| FirstAhead(log, i, entries[a].name, entries[b].name);
        FirstOneMore(log, i, entries[a].name, entries[b].name, e);
      } else {
        NotYet(entries, log, e, a);
      }
    }
    forall i | 0 <= i < |all| ensures exists a :: 0 <= a < |out| && out[a].name == all[i].name {
      if i < |log| {
        assert all[i] == log[i];
        var a :| 0 <= a < |entries| && entries[a].name == log[i].name;
        assert out[a].name == log[i].name;
      } else {
        var a :| 0 <= a < |out| && out[a] == e;
        assert out[a].name == all[i].name;
      }
    }
    forall a, b | 0 <= a < b < |out| ensures out[a].name != out[b].name {
      assert b < |entries| ==> entries[a].name != entries[b].name;
    }
  }

  lemma NamedOrNew(entries: seq<Entry>, e: Entry)
    ensures var out := Upsert(entries, e);
      && |entries| <= |out| <= |entries| + 1
      && (forall a :: 0 <= a < |entries| ==> out[a] == if entries[a].name == e.name then e else entries[a])
      && (|out| > |entries| ==> out[|entries|] == e && forall a :: 0 <= a < |entries| ==> entries[a].name != e.name)
      && exists a :: 0 <= a < |out| && out[a] == e
  {
    if e.name in Names(entries) {
      var a :| 0 <= a < |entries| && Names(entries)[a] == e.name;
      assert Upsert(entries, e)[a] == e;
    } else {
      assert forall a :: 0 <= a < |entries| ==> Names(entries)[a] == entries[a].name;
      assert Upsert(entries, e)[|entries|] == e;
    }
  }

  lemma LastOfAll(log: seq<Entry>, e: Entry)
    ensures LastIs(log + [e], |log|, e)
  {
  }

  /** A name that is new is first seen behind all others. */
  lemma NotYet(entries: seq<Entry>, log: seq<Entry>, e: Entry, a: int)
    requires Digests(entries, log) && 0 <= a < |entries|
    requires forall b :: 0 <= b < |entries| ==> entries[b].name != e.name
    ensures Precedes(log + [e], entries[a].name, e.name)
  {
    assert Latest(log, entries[a]);
    var i :| LastIs(log, i, entries[a]);
    forall j | 0 <= j <= i ensures (log + [e])[j].name != e.name {
      assert exists b :: 0 <= b < |entries| && entries[b].name == log[j].name;
    }
    assert FirstAhead(log + [e], i, entries[a].name, e.name);
  }

  /** The entries last written under each name, in the order of those writings, the last `k` of them. */
  ghost predicate Recents(entries: seq<Entry>, log: seq<Entry>, k: nat) {
    && |entries| <= k
    && InOrder(entries, log)
    && (forall i :: 0 <= i < |log| && !Named(entries, log[i].name) ==>
          |entries| == k && forall a :: 0 <= a < |entries| ==> WrittenBehind(log, i, entries[a]))
  }

  ghost predicate InOrder(entries: seq<Entry>, log: seq<Entry>) {
    && (forall a, b :: 0 <= a < b < |entries| ==> entries[a].name != entries[b].name)
    && (forall a :: 0 <= a < |entries| ==> Latest(log, entries[a]))
    && (forall a, b :: 0 <= a < b < |entries| ==> Behind(log, entries[b], entries[a].name))
  }

  predicate Named(entries: seq<Entry>, name: string) {
    exists a :: 0 <= a < |entries| && entries[a].name == name
  }

  predicate WrittenBehind(log: seq<Entry>, i: int, e: Entry) {
    exists j :: 0 <= i < j < |log| && log[j] == e
  }

  /** The last writing of `e` stands behind every writing under `name`. */
  ghost predicate Behind(log: seq<Entry>, e: Entry, name: string) {
    exists i :: LastIs(log, i, e) && NoneFrom(log, i, name)
  }

  predicate NoneFrom(log: seq<Entry>, i: int, name: string) {
    0 <= i < |log| && forall j :: i <= j < |log| ==> log[j].name != name
  }

  lemma LastOneAhead(first: Entry, log: seq<Entry>, i: int, e: Entry)
    requires LastIs(log, i, e)
    ensures LastIs([first] + log, i + 1, e)
  {
    forall j | i + 1 < j < |log| + 1 ensures ([first] + log)[j].name != e.name {
      assert ([first] + log)[j] == log[j - 1];
    }
  }

  lemma NoneOneAhead(first: Entry, log: seq<Entry>, i: int, name: string)
    requires NoneFrom(log, i, name)
    ensures NoneFrom([first] + log, i + 1, name)
  {
    forall j | i + 1 <= j < |log| + 1 ensures ([first] + log)[j].name != name {
      assert ([first] + log)[j] == log[j - 1];
    }
  }

  lemma InOrderAhead(first: Entry, entries: seq<Entry>, log: seq<Entry>)
    requires InOrder(entries, log)
    ensures InOrder(entries, [first] + log)
  {
    hide LastIs, NoneFrom;
    forall a | 0 <= a < |entries| ensures Latest([first] + log, entries[a]) {
      assert Latest(log, entries[a]);
      var i :| LastIs(log, i, entries[a]);
      LastOneAhead(first, log, i, entries[a]);
    }
    forall a, b | 0 <= a < b < |entries| ensures Behind([first] + log, entries[b], entries[a].name) {
      assert Behind(log, entries[b], entries[a].name);
      var i :| LastIs(log, i, entries[b]) && NoneFrom(log, i, entries[a].name);
      LastOneAhead(first, log, i, entries[b]);
      NoneOneAhead(first, log, i, entries[a].name);
    }
  }

  lemma NewInOrder(first: Entry, entries: seq<Entry>, log: seq<Entry>)
    requires InOrder(entries, log) && forall j :: 0 <= j < |log| ==> log[j].name != first.name
    ensures InOrder([first] + entries, [first] + log)
  {
    InOrderAhead(first, entries, log);
    var out, all := [first] + entries, [first] + log;
    assert LastIs(all, 0, first);
    assert Latest(all, first);
    forall a | 0 <= a < |entries| ensures entries[a].name != first.name && Behind(all, entries[a], first.name) {
      assert Latest(log, entries[a]);
      var i :| LastIs(log, i, entries[a]);
      LastOneAhead(first, log, i, entries[a]);
      assert NoneFrom(all, i + 1, first.name);
    }
    hide LastIs, NoneFrom;
    forall a, b | 0 <= a < b < |out|
      ensures out[a].name != out[b].name && Behind(all, out[b], out[a].name)
    {
      if a > 0 {
        assert out[a] == entries[a - 1] && out[b] == entries[b - 1];
      } else {
        assert out[b] == entries[b - 1];
      }
    }
    forall a | 0 <= a < |out| ensures Latest(all, out[a]) {
      assert a > 0 ==> out[a] == entries[a - 1];
    }
  }

  lemma {:induction false} LastTouchInOrder(log: seq<Entry>)
    ensures InOrder(LastTouch(log), log)
    ensures forall i :: 0 <= i < |log| ==> Named(LastTouch(log), log[i].name)
    decreases |log|
  {
    if log != [] {
      var e, rest := log[0], log[1..];
      assert log == [e] + rest;
      LastTouchInOrder(rest);
      LastTouchStep(e, rest);
      assert forall j :: 0 <= j < |rest| ==> Names(rest)[j] == rest[j].name;
      if e.name in Names(rest) {
        InOrderAhead(e, LastTouch(rest), rest);
      } else {
        NewInOrder(e, LastTouch(rest), rest);
      }
      AllNamed(e, rest, LastTouch(rest), LastTouch(log));
    }
  }

  lemma AllNamed(e: Entry, rest: seq<Entry>, before: seq<Entry>, after: seq<Entry>)
    requires forall i :: 0 <= i < |rest| ==> Named(before, rest[i].name)
    requires if e.name in Names(rest) then after == before else after == [e] + before
    ensures forall i :: 0 <= i < |[e] + rest| ==> Named(after, ([e] + rest)[i].name)
  {
    forall i | 0 <= i < |[e] + rest| ensures Named(after, ([e] + rest)[i].name) {
      if i > 0 {
        assert Named(before, rest[i - 1].name);
        var a :| 0 <= a < |before| && before[a].name == rest[i - 1].name;
        assert after[a + |after| - |before|] == before[a];
      } else if e.name in Names(rest) {
        var j :| 0 <= j < |rest| && Names(rest)[j] == e.name;
        assert Named(before, rest[j].name);
      } else {
        assert after[0] == e;
      }
    }
  }

  lemma TailInOrder(all: seq<Entry>, log: seq<Entry>, cut: nat)
    requires InOrder(all, log) && cut <= |all|
    ensures InOrder(all[cut..], log)
  {
    hide Latest, Behind;
    var out := all[cut..];
    forall a, b | 0 <= a < b < |out| ensures Behind(log, out[b], out[a].name) && out[a].name != out[b].name {
      assert Behind(log, all[cut + b], all[cut + a].name);
    }
    forall a | 0 <= a < |out| ensures Latest(log, out[a]) {
      assert Latest(log, all[cut + a]);
    }
  }

  /** What was cut off was written ahead of all that is left. */
  lemma CutOffEarlier(all: seq<Entry>, log: seq<Entry>, cut: nat, i: int)
    requires InOrder(all, log) && cut <= |all| && 0 <= i < |log|
    requires Named(all, log[i].name) && !Named(all[cut..], log[i].name)
    ensures cut > 0 && forall a :: 0 <= a < |all[cut..]| ==> WrittenBehind(log, i, all[cut..][a])
  {
    hide Latest, Behind, WrittenBehind;
    forall c | cut <= c < |all| ensures all[c].name != log[i].name {
      assert all[cut..][c - cut] == all[c];
    }
    var c :| 0 <= c < |all| && all[c].name == log[i].name;
    forall a | 0 <= a < |all[cut..]| ensures WrittenBehind(log, i, all[cut..][a]) {
      assert Behind(log, all[cut + a], all[c].name);
      BehindIsLater(log, i, all[cut + a]);
    }
  }

  lemma LastTouchRecents(log: seq<Entry>, k: nat)
    ensures Recents(Tail(LastTouch(log), k), log, k)
  {
    hide LastTouch, InOrder, Named, WrittenBehind;
    LastTouchInOrder(log);
    var all := LastTouch(log);
    var cut := if |all| <= k then 0 else |all| - k;
    assert Tail(all, k) == all[cut..];
    TailInOrder(all, log, cut);
    forall i | 0 <= i < |log| && !Named(all[cut..], log[i].name)
      ensures |all[cut..]| == k && forall a :: 0 <= a < |all[cut..]| ==> WrittenBehind(log, i, all[cut..][a])
    {
      CutOffEarlier(all, log, cut, i);
    }
  }

  lemma BehindIsLater(log: seq<Entry>, i: int, e: Entry)
    requires 0 <= i < |log| && Behind(log, e, log[i].name)
    ensures WrittenBehind(log, i, e)
  {
    var j :| LastIs(log, j, e) && NoneFrom(log, j, log[i].name);
    assert i < j;
  }

  // ---- the note of an edit ----

  /** The line as it stands, or cut in front of the last character that starts within 160 bytes. */
  ghost predicate Shortened(note: string, line: string) {
    if |line| <= 160 then note == line
    else exists m :: CutAt(note, line, m)
  }

  predicate CutAt(note: string, line: string, m: int) {
    && 0 <= m <= 160 < |line| && note == line[..m] + Utf8.ELLIPSIS
    && (m == 0 || Utf8.RuneStart(line[m])) && forall j :: m < j <= 160 ==> !Utf8.RuneStart(line[j])
  }

  /** `line` is the first line of the text that is not blank, with its white space. */
  predicate FirstTelling(content: string, ahead: string, line: string, rest: string) {
    && content == ahead + line + rest
    && Trim(ahead) == "" && (ahead == "" || ahead[|ahead| - 1] == '\n')
    && '\n' !in line && Trim(line) != "" && (rest == "" || rest[0] == '\n')
  }

  /** The note is the first line that tells something, trimmed and shortened; none if the text is blank. */
  lemma {:induction false} EditNoteMeans(content: string) returns (ahead: string, line: string, rest: string)
    ensures if Trim(content) == "" then EditNote(content) == ""
            else FirstTelling(content, ahead, line, rest) && Shortened(EditNote(content), Trim(line))
    decreases |content|
  {
    hide Trim, FirstLine, Utf8.RuneBack, Utf8.RuneStart, Shortened;
    var first := FirstLine(content);
    ahead, line, rest := "", first, content[|first|..];
    FirstLineEnds(content);
    assert content == "" + first + rest && content == first + rest;
    NothingTrimmed();
    if Trim(first) != "" {
      NoteIsShortened(content);
      FirstLineTells(first, rest);
    } else if rest == "" {
      assert content == first;
    } else {
      var tail := content[|first| + 1..];
      assert content == (first + "\n") + tail;
      BlankLine(first);
      BlankAhead(first + "\n", tail);
      assert Trim(tail) == Trim(content) && EditNote(content) == EditNote(tail);
      ahead, line, rest := EditNoteMeans(tail);
      if Trim(content) != "" {
        BlankAhead(first + "\n", ahead);
        ahead := first + "\n" + ahead;
        assert content == ahead + line + rest;
      }
    }
  }

  lemma NothingTrimmed()
    ensures Trim("") == ""
  {
  }

  lemma BlankLine(line: string)
    requires Trim(line) == ""
    ensures TrimLeft(line + "\n") == "" && Trim(line + "\n") == ""
  {
    hide TrimLeft, TrimRight;
    LeftOfBlank(line);
    TrimLeftAhead(line, "\n");
    NewlineIsBlank();
  }

  lemma NewlineIsBlank()
    ensures TrimLeft("\n") == "" && TrimRight("") == ""
  {
  }

  lemma LeftOfBlank(s: string)
    requires Trim(s) == ""
    ensures TrimLeft(s) == ""
  {
    if TrimLeft(s) != "" {
      SolidStays(TrimLeft(s));
    }
  }

  lemma {:induction false} SolidStays(s: string)
    requires s != "" && !IsSpace(s[0])
    ensures TrimRight(s) != ""
    decreases |s|
  {
    if IsSpace(s[|s| - 1]) {
      SolidStays(s[..|s| - 1]);
    }
  }

  /** Blank text in front changes nothing. */
  lemma BlankAhead(a: string, b: string)
    ensures TrimLeft(a) == "" ==> Trim(a + b) == Trim(b)
  {
    hide TrimRight;
    TrimLeftAhead(a, b);
  }

  lemma FirstLineTells(line: string, rest: string)
    requires Trim(line) != ""
    ensures Trim(line + rest) != ""
  {
    hide TrimRight;
    TrimLeftAhead(line, rest);
    if TrimLeft(line) == "" {
      NewlineIsBlank();
    } else {
      SolidStays(TrimLeft(line) + rest);
    }
  }

  lemma NoteIsShortened(content: string)
    requires Trim(FirstLine(content)) != ""
    ensures Shortened(EditNote(content), Trim(FirstLine(content)))
  {
    hide Trim, FirstLine, Utf8.RuneStart;
    var t := Trim(FirstLine(content));
    if |t| > 160 {
      assert CutAt(EditNote(content), t, Utf8.RuneBack(t, 160));
    }
  }

  // ---- what each call and message says ----

  /** An edit of a file, with the note of the answer. */
  function EditSaid(p: Parsers, c: ToolCall, answer: Message): seq<Entry> {
    if (c.name == WriteFile || c.name == EditFile) && p.editPath(c.arguments) != ""
    then [Entry(p.editPath(c.arguments), EditNote(answer.content))] else []
  }

  /** A skill that was loaded, with its capped body; a blank answer loads nothing. */
  function SkillSaid(p: Parsers, c: ToolCall, answer: Message): seq<Entry> {
    if c.name == Skill && Trim(answer.content) != "" then
      var name := p.skillName(c.arguments);
      [Entry(if name == "" then "(unnamed)" else name, Utf8.CapBody(Trim(answer.content)))]
    else []
  }

  /** The tools whose schemas were loaded. */
  function ToolsSaid(p: Parsers, c: ToolCall, answer: Message): seq<Entry> {
    if c.name == ToolSearch then p.toolSchemas(answer.content) else []
  }

  /** A block of project instructions in a user message. */
  function InstructionSaid(p: Parsers, m: Message): seq<Entry> {
    var block := p.instructions(m.content);
    if m.role == User && block.body != "" then [block] else []
  }

  function Flat(said: seq<seq<Entry>>): seq<Entry> {
    if said == [] then [] else Flat(said[..|said| - 1]) + said[|said| - 1]
  }

  function AllSaid(say: (ToolCall, Message) -> seq<Entry>, calls: seq<ToolCall>, answers: seq<Message>): seq<Entry>
    requires |calls| == |answers|
  {
    Flat(seq(|calls|, k requires 0 <= k < |calls| => say(calls[k], answers[k])))
  }

  lemma AllSaidStep(say: (ToolCall, Message) -> seq<Entry>, calls: seq<ToolCall>, answers: seq<Message>)
    requires |calls| == |answers| > 0
    ensures var n := |calls| - 1;
      AllSaid(say, calls, answers) == AllSaid(say, calls[..n], answers[..n]) + say(calls[n], answers[n])
  {
    var n := |calls| - 1;
    var said := seq(|calls|, k requires 0 <= k < |calls| => say(calls[k], answers[k]));
    assert said[..n] == seq(n, k requires 0 <= k < n => say(calls[..n][k], answers[..n][k]));
  }

  lemma {:induction false} TouchesSay(p: Parsers, calls: seq<ToolCall>, answers: seq<Message>)
    requires |calls| == |answers|
    ensures Touches(p, calls, answers) == AllSaid((c, m) => EditSaid(p, c, m), calls, answers)
    decreases |calls|
  {
    hide EditNote, AllSaid;
    if calls == [] {
      NothingSaid((c, m) => EditSaid(p, c, m));
    } else {
      var n := |calls| - 1;
      TouchesSay(p, calls[..n], answers[..n]);
      AllSaidStep((c, m) => EditSaid(p, c, m), calls, answers);
    }
  }

  lemma NothingSaid(say: (ToolCall, Message) -> seq<Entry>)
    ensures AllSaid(say, [], []) == []
  {
  }

  lemma {:induction false} LoadsSay(l: Loader, say: (ToolCall, Message) -> seq<Entry>, calls: seq<ToolCall>,
                                    answers: seq<Message>)
    requires |calls| == |answers|
    requires forall c, m {:trigger say(c, m)} ::
      say(c, m) == if l.keyOf(c).Some? then l.emit(l.keyOf(c).value, m.content) else []
    ensures LogBy(l, OwnKeys(l, calls), answers) == AllSaid(say, calls, answers)
    decreases |calls|
  {
    hide AllSaid;
    if calls == [] {
      NothingSaid(say);
    } else {
      var n := |calls| - 1;
      LoadsSay(l, say, calls[..n], answers[..n]);
      AllSaidStep(say, calls, answers);
      assert OwnKeys(l, calls)[..n] == OwnKeys(l, calls[..n]);
    }
  }

  function Instructed(p: Parsers, ms: seq<Message>): seq<Entry> {
    Flat(seq(|ms|, i requires 0 <= i < |ms| => InstructionSaid(p, ms[i])))
  }

  lemma {:induction false} InstructionsSay(p: Parsers, ms: seq<Message>)
    ensures InstructionLog(p, ms) == Instructed(p, ms)
    decreases |ms|
  {
    hide InstructionLog;
    if ms == [] {
      NothingInstructed(p);
    } else {
      var n := |ms| - 1;
      InstructionsSay(p, ms[..n]);
      InstructionSnoc(p, ms, n);
      assert ms[..n + 1] == ms;
      var said := seq(|ms|, i requires 0 <= i < |ms| => InstructionSaid(p, ms[i]));
      assert said[..n] == seq(n, i requires 0 <= i < n => InstructionSaid(p, ms[..n][i]));
    }
  }

  lemma NothingInstructed(p: Parsers)
    ensures InstructionLog(p, []) == [] == Instructed(p, [])
  {
  }

  // ---- the state ----

  /** The carried state, in terms of what the messages say: the last readable plan; the twenty files
      edited last, by their last edits; tools, skills and instructions by first mention, with what was
      said of them last. */
  ghost predicate Conveys(p: Parsers, ms: seq<Message>, s: Carried)
    requires |Calls(ms)| == |ToolResults(ms)|
  {
    var calls, answers := Calls(ms), ToolResults(ms);
    && PlanIs(p, ms, s.plan)
    && Recents(s.edits, AllSaid((c, m) => EditSaid(p, c, m), calls, answers), 20)
    && Digests(s.tools, AllSaid((c, m) => ToolsSaid(p, c, m), calls, answers))
    && Digests(s.skills, AllSaid((c, m) => SkillSaid(p, c, m), calls, answers))
    && Digests(s.instructions, Instructed(p, ms))
  }

  lemma OnePassMeans(p: Parsers, ms: seq<Message>)
    requires WellFormed(ms)
    ensures |Calls(ms)| == |ToolResults(ms)| && Conveys(p, ms, OnePassState(p, ms))
  {
    hide Digests, Recents, PlanIs, LatestPlan, WellFormed, LastTouch, FirstPlace, AllSaid, Instructed, EditNote;
    ResultsAnswerCalls(ms);
    var calls, answers := Calls(ms), ToolResults(ms);
    LatestPlanIs(p, ms);
    TouchesSay(p, calls, answers);
    LastTouchRecents(Touches(p, calls, answers), 20);
    LoadsSay(ToolLoader(p), (c, m) => ToolsSaid(p, c, m), calls, answers);
    LoadsSay(SkillLoader(p), (c, m) => SkillSaid(p, c, m), calls, answers);
    InstructionsSay(p, ms);
    FirstPlaceDigests(LogBy(ToolLoader(p), OwnKeys(ToolLoader(p), calls), answers));
    FirstPlaceDigests(LogBy(SkillLoader(p), OwnKeys(SkillLoader(p), calls), answers));
    FirstPlaceDigests(InstructionLog(p, ms));
  }

  /** What is carried behind any number of compactions says this of everything elided. */
  lemma CarriedMeans(p: Parsers, chunks: seq<seq<Message>>)
    requires forall i :: 0 <= i < |chunks| ==> WellFormed(chunks[i]) && CleanIds(p, chunks[i])
    ensures WellFormed(Flatten(chunks)) && |Calls(Flatten(chunks))| == |ToolResults(Flatten(chunks))|
    ensures Conveys(p, Flatten(chunks), CarryAll(p, chunks))
  {
    hide Conveys, CarryAll, WellFormed, CleanIds;
    CarriedStateIsOnePass(p, chunks);
    OnePassMeans(p, Flatten(chunks));
  }
}
