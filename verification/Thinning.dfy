/** What pruning costs the state that is carried: bodies that gave way to a placeholder, and
    exactly when the state is the one that was there before. */
module Thinning {
  import opened Basics
  import opened Transcript
  import opened LastSeen
  import opened Preserve
  import opened OnePass
  import opened Merge
  import opened Tokens
  import opened Prune
  import Utf8

  // ---- the mark of a placeholder ----

  /** The mark is visible in the note and in the body taken from a placeholder. */
  predicate ShowsMark(content: string) {
    HasPrefix(EditNote(content), PRUNED_HEAD) && HasPrefix(Utf8.CapBody(Trim(content)), PRUNED_HEAD)
  }

  predicate PlainText(s: string) {
    forall i :: 0 <= i < |s| ==> ' ' <= s[i] <= '~'
  }

  /** All tool names called are printable ASCII. */
  predicate PlainNames(ms: seq<Message>) {
    forall i, j :: 0 <= i < |ms| && 0 <= j < |ms[i].toolCalls| ==> PlainText(NameText(ms[i].toolCalls[j].name))
  }

  lemma {:induction false} FirstLineWhole(s: string)
    requires '\n' !in s
    ensures FirstLine(s) == s
    decreases |s|
  {
    if s != "" {
      FirstLineWhole(s[1..]);
    }
  }

  lemma {:induction false} DecimalOneLine(n: nat)
    ensures '\n' !in Decimal(n)
    decreases n
  {
    if n >= 10 {
      DecimalOneLine(n / 10);
    }
  }

  /** Cutting text on a character boundary spares the mark, if a character starts right behind it. */
  lemma CutKeepsMark(s: string, n: nat)
    requires HasPrefix(s, PRUNED_HEAD) && |PRUNED_HEAD| <= n < |s| && Utf8.RuneStart(s[|PRUNED_HEAD|])
    ensures HasPrefix(s[..Utf8.RuneBack(s, n)], PRUNED_HEAD)
  {
  }

  lemma CutShowsNoMark(s: string, n: nat, note: string)
    requires !HasPrefix(s, PRUNED_HEAD) && n < |s|
    requires note != "" && note[0] !in PRUNED_HEAD
    ensures !HasPrefix(s[..Utf8.RuneBack(s, n)] + note, PRUNED_HEAD)
  {
    var m := Utf8.RuneBack(s, n);
    var t := s[..m] + note;
    assert t[m] == note[0];
    assert m >= |PRUNED_HEAD| ==> t[..|PRUNED_HEAD|] == s[..|PRUNED_HEAD|];
  }

  lemma PlaceholderShape(name: string, n: nat)
    requires PlainText(name)
    ensures
      var t := Placeholder(name, n);
      && '\n' !in t && Trim(t) == t
      && HasPrefix(t, PRUNED_HEAD) && |t| > |PRUNED_HEAD| && Utf8.RuneStart(t[|PRUNED_HEAD|])
  {
    hide Decimal, Trim;
    var t, tail := Placeholder(name, n), PRUNED_REST;
    var shown := if name == "" then "tool" else name;
    DecimalOneLine(n);
    assert '\n' !in PRUNED_REST && '\n' !in PRUNED_HEAD && '\n' !in shown && '\n' !in " output (~";
    assert t[|PRUNED_HEAD|] == shown[0];
    assert t[|t| - 1] == tail[|tail| - 1] == ']';
    assert t[0] == PRUNED_HEAD[0] == '[';
    TrimUntouched(t);
  }

  lemma PlaceholderShowsMark(name: string, n: nat)
    requires PlainText(name)
    ensures ShowsMark(Placeholder(name, n))
  {
    hide Placeholder, Trim, Utf8.RuneBack, Utf8.RuneStart;
    var t := Placeholder(name, n);
    PlaceholderShape(name, n);
    FirstLineWhole(t);
    MarkInNote(t);
    MarkInBody(t);
  }

  lemma MarkInNote(t: string)
    requires FirstLine(t) == t && Trim(t) == t && |t| > |PRUNED_HEAD|
    requires HasPrefix(t, PRUNED_HEAD) && Utf8.RuneStart(t[|PRUNED_HEAD|])
    ensures HasPrefix(EditNote(t), PRUNED_HEAD)
  {
    hide FirstLine, Trim, Utf8.RuneBack, Utf8.RuneStart;
    if |t| > MAX_EDIT_NOTE_BYTES {
      CutKeepsMark(t, MAX_EDIT_NOTE_BYTES);
    }
  }

  lemma MarkInBody(t: string)
    requires |t| > |PRUNED_HEAD| && HasPrefix(t, PRUNED_HEAD) && Utf8.RuneStart(t[|PRUNED_HEAD|])
    ensures HasPrefix(Utf8.CapBody(t), PRUNED_HEAD)
  {
    hide Utf8.RuneBack, Utf8.RuneStart;
    if |t| > Utf8.MAX_PRESERVED_SKILL_BYTES {
      CutKeepsMark(t, Utf8.MAX_PRESERVED_SKILL_BYTES - |Utf8.TRUNCATION_NOTE|);
    }
  }

  /** No other text shows the mark, neither in its note nor in its body. */
  lemma OthersShowNoMark(content: string)
    requires !IsPlaceholder(content)
    ensures !HasPrefix(EditNote(content), PRUNED_HEAD)
    ensures !HasPrefix(Utf8.CapBody(Trim(content)), PRUNED_HEAD)
  {
    hide Trim, EditNote, Utf8.RuneBack;
    NoteShowsNoMark(content);
    var t := Trim(content);
    if |t| > Utf8.MAX_PRESERVED_SKILL_BYTES {
      CutShowsNoMark(t, Utf8.MAX_PRESERVED_SKILL_BYTES - |Utf8.TRUNCATION_NOTE|, Utf8.TRUNCATION_NOTE);
    }
  }

  lemma {:induction false} NoteShowsNoMark(content: string)
    requires !IsPlaceholder(content)
    ensures !HasPrefix(EditNote(content), PRUNED_HEAD)
    decreases |content|
  {
    hide Trim, FirstLine, Utf8.RuneBack;
    var line := FirstLine(content);
    var s := Trim(line);
    if s != "" {
      LineOpensText(content);
      if HasPrefix(s, PRUNED_HEAD) {
        assert false;
      }
      if |s| > MAX_EDIT_NOTE_BYTES {
        CutShowsNoMark(s, MAX_EDIT_NOTE_BYTES, Utf8.ELLIPSIS);
      }
    } else if |line| < |content| {
      BlankLineTrimmed(content);
      NoteShowsNoMark(content[|line| + 1..]);
    }
  }

  lemma RightKeepsHead(left: string, rest: string)
    requires TrimRight(left) != ""
    ensures HasPrefix(TrimRight(left + rest), TrimRight(left))
  {
    hide TrimRight;
    var s := TrimRight(left);
    assert left + rest == s + (left[|s|..] + rest);
    TrimRightKeepsHead(s, left[|s|..] + rest);
  }

  /** A text starts with its first line, white space aside. */
  lemma LineOpensText(content: string)
    requires Trim(FirstLine(content)) != ""
    ensures HasPrefix(Trim(content), Trim(FirstLine(content)))
  {
    hide FirstLine, TrimLeft, TrimRight;
    var line := FirstLine(content);
    var rest := content[|line|..];
    BlankTrimmed();
    assert content == line + rest;
    TrimLeftAhead(line, rest);
    RightKeepsHead(TrimLeft(line), rest);
  }

  lemma BlankTrimmed()
    ensures TrimRight("") == ""
  {
  }

  lemma NewlineTrimmed(rest: string)
    requires rest != "" && rest[0] == '\n'
    ensures TrimLeft(rest) == TrimLeft(rest[1..])
  {
  }

  lemma BlankLineTrimmed(content: string)
    requires Trim(FirstLine(content)) == "" && |FirstLine(content)| < |content|
    ensures Trim(content[|FirstLine(content)| + 1..]) == Trim(content)
  {
    hide FirstLine, TrimLeft, TrimRight;
    var line := FirstLine(content);
    var rest := content[|line|..];
    FirstLineEnds(content);
    assert content == line + rest && rest[1..] == content[|line| + 1..];
    if TrimLeft(line) != "" {
      TrimmedAway(TrimLeft(line));
    }
    TrimLeftAhead(line, rest);
    NewlineTrimmed(rest);
  }

  // ---- bodies that gave way ----

  /** An old, large body became a placeholder; with plain names the placeholder shows it. */
  predicate GaveWay(was: Message, now: Message, plain: bool) {
    && was.role == Tool && now == was.(content := now.content)
    && !IsPlaceholder(was.content) && IsPlaceholder(now.content)
    && Trim(was.content) != ""
    && (plain ==> ShowsMark(now.content))
  }

  /** Message by message the same, but for bodies that gave way. */
  predicate Thinned(was: seq<Message>, now: seq<Message>, plain: bool) {
    && |was| == |now|
    && forall i :: 0 <= i < |was| ==> now[i] == was[i] || GaveWay(was[i], now[i], plain)
  }

  lemma ThinnedShape(was: seq<Message>, now: seq<Message>, plain: bool)
    requires Thinned(was, now, plain)
    ensures SameShape(was, now)
  {
  }

  /** A body gives way once. */
  lemma ThinnedTwice(a: seq<Message>, b: seq<Message>, c: seq<Message>, plain: bool)
    requires Thinned(a, b, plain) && Thinned(b, c, plain)
    ensures Thinned(a, c, plain)
  {
    hide IsPlaceholder, ShowsMark, Trim;
  }

  lemma {:induction false} BlankIsFree(s: string)
    requires TrimRight(TrimLeft(s)) == ""
    ensures NonSpace(s) == 0
    decreases |s|
  {
    if s != "" {
      if TrimLeft(s) != "" {
        TrimmedAway(TrimLeft(s));
      }
      LeftBlank(s);
    }
  }

  lemma {:induction false} LeftBlank(s: string)
    requires TrimLeft(s) == ""
    ensures NonSpace(s) == 0
    decreases |s|
  {
    if s != "" {
      var front := s[..|s| - 1];
      assert s == front + [s[|s| - 1]];
      TrimLeftAhead(front, [s[|s| - 1]]);
      LeftBlank(front);
    }
  }

  lemma {:induction false} PlainNameIn(calls: seq<ToolCall>, id: string)
    requires forall j :: 0 <= j < |calls| ==> PlainText(NameText(calls[j].name))
    ensures NameIn(calls, id).Some? ==> PlainText(NameText(NameIn(calls, id).value))
    decreases |calls|
  {
    if calls != [] {
      PlainNameIn(calls[1..], id);
    }
  }

  lemma {:induction false} PlainNameBefore(ms: seq<Message>, id: string, j: nat)
    requires PlainNames(ms) && j <= |ms|
    ensures PlainText(NameBefore(ms, id, j))
    decreases j
  {
    hide PlainText, NameText;
    if j > 0 {
      PlainNameIn(ms[j - 1].toolCalls, id);
      PlainNameBefore(ms, id, j - 1);
    } else {
      NoTextIsPlain();
    }
  }

  lemma NoTextIsPlain()
    ensures PlainText("")
  {
  }

  /** What one pass of pruning replaces, it replaces where a stale body stood, and nowhere else. */
  lemma PruneThins(ms: seq<Message>, keep: int)
    ensures Thinned(ms, Pruned(ms, keep), PlainNames(ms))
    ensures forall i :: 0 <= i < |ms| ==> (Pruned(ms, keep)[i] != ms[i] <==> Worthwhile(ms, keep) && Stale(ms, keep, i))
  {
    hide Recent, IsPlaceholder, Placeholder, NameBefore, Worthwhile, PlainNames, ShowsMark, Trim, NonSpace, PlainText;
    forall i | 0 <= i < |ms| && Worthwhile(ms, keep) && Stale(ms, keep, i)
      ensures Pruned(ms, keep)[i] != ms[i] && GaveWay(ms[i], Pruned(ms, keep)[i], PlainNames(ms))
    {
      var name := if ms[i].toolCallId == "" then "" else NameBefore(ms, ms[i].toolCallId, i);
      var n := TextTokens(ms[i].content);
      PlaceholderIsRecognised(name, n);
      LargeIsNotBlank(ms[i].content);
      if PlainNames(ms) {
        NoTextIsPlain();
        PlainNameBefore(ms, ms[i].toolCallId, i);
        PlaceholderShowsMark(name, n);
      }
    }
  }

  lemma LargeIsNotBlank(s: string)
    requires TextTokens(s) >= MIN_BODY_TOKENS
    ensures Trim(s) != ""
  {
    if Trim(s) == "" {
      BlankIsFree(s);
    }
  }

  // ---- calls, answers and instructions of a thinned history ----

  lemma {:induction false} ThinnedParts(p: Parsers, was: seq<Message>, now: seq<Message>, plain: bool)
    requires Thinned(was, now, plain)
    ensures Calls(now) == Calls(was)
    ensures Thinned(ToolResults(was), ToolResults(now), plain)
    ensures InstructionLog(p, now) == InstructionLog(p, was)
    decreases |was|
  {
    hide GaveWay;
    if was != [] {
      ThinnedParts(p, was[1..], now[1..], plain);
      GaveWayIsTool(was[0], now[0], plain);
      ThinnedConcat(if was[0].role == Tool then [was[0]] else [], if now[0].role == Tool then [now[0]] else [],
                    ToolResults(was[1..]), ToolResults(now[1..]), plain);
    }
  }

  lemma GaveWayIsTool(was: Message, now: Message, plain: bool)
    requires now == was || GaveWay(was, now, plain)
    ensures now.role == was.role && now.toolCalls == was.toolCalls && (now != was ==> was.role == Tool)
  {
  }

  lemma ThinnedConcat(a: seq<Message>, a': seq<Message>, b: seq<Message>, b': seq<Message>, plain: bool)
    requires Thinned(a, a', plain) && Thinned(b, b', plain)
    ensures Thinned(a + b, a' + b', plain)
  {
    hide GaveWay;
  }

  lemma ThinnedSlice(was: seq<Message>, now: seq<Message>, from: nat, upTo: nat, plain: bool)
    requires Thinned(was, now, plain) && from <= upTo <= |was|
    ensures Thinned(was[from..upTo], now[from..upTo], plain)
  {
    hide GaveWay;
  }

  // ---- the edits ----

  /** The notes of the kept paths are the ones that were there. */
  predicate NotesStand(p: Parsers, calls: seq<ToolCall>, was: seq<Message>, now: seq<Message>)
    requires |calls| == |was| == |now|
  {
    var kept := Tail(DedupeLast(EditPaths(p, calls)), MAX_RECENT_EDITS);
    forall i :: 0 <= i < |kept| ==>
      var k := LastEdit(p, calls, kept[i]);
      k >= 0 ==> EditNote(now[k].content) == EditNote(was[k].content)
  }

  lemma EditsStandIff(p: Parsers, calls: seq<ToolCall>, was: seq<Message>, now: seq<Message>)
    requires Answers(was, calls) && Answers(now, calls)
    ensures EditsOnePass(p, calls, now) == EditsOnePass(p, calls, was) <==> NotesStand(p, calls, was, now)
  {
    hide EditNote, DedupeLast, EditPaths, LastEdit, Tail;
    var a, b := EditsOnePass(p, calls, was), EditsOnePass(p, calls, now);
    var kept := Tail(DedupeLast(EditPaths(p, calls)), MAX_RECENT_EDITS);
    EditOrderOnePass(p, calls, was);
    EditOrderOnePass(p, calls, now);
    assert Names(RecentEdits(p, calls, was)) == kept == Names(RecentEdits(p, calls, now));
    assert Names(a) == kept == Names(b);
    forall i | 0 <= i < |kept|
      ensures
        var k := LastEdit(p, calls, kept[i]);
        k >= 0 && a[i] == Entry(kept[i], EditNote(was[k].content)) && b[i] == Entry(kept[i], EditNote(now[k].content))
    {
      assert Names(a)[i] == kept[i] && Names(b)[i] == kept[i];
      OnePassNote(p, calls, was, i);
      OnePassNote(p, calls, now, i);
    }
    if NotesStand(p, calls, was, now) {
      assert a == b;
    } else {
      var i :| 0 <= i < |kept|
        && LastEdit(p, calls, kept[i]) >= 0
        && EditNote(now[LastEdit(p, calls, kept[i])].content) != EditNote(was[LastEdit(p, calls, kept[i])].content);
      assert a[i] != b[i];
    }
  }

  // ---- the skills ----

  function SkillLog(p: Parsers, calls: seq<ToolCall>, results: seq<Message>): seq<Entry>
    requires |calls| == |results|
  {
    LogBy(SkillLoader(p), OwnKeys(SkillLoader(p), calls), results)
  }

  function SkillBody(m: Message): string {
    Utf8.CapBody(Trim(m.content))
  }

  /** The last call that loaded `skill` with something in the answer, -1 when none did. */
  function LastLoad(p: Parsers, calls: seq<ToolCall>, results: seq<Message>, skill: string): (k: int)
    requires |calls| == |results|
    ensures -1 <= k < |calls|
  {
    if calls == [] then -1
    else
      var n := |calls| - 1;
      if SkillLoader(p).keyOf(calls[n]) == Some(skill) && Trim(results[n].content) != "" then n
      else LastLoad(p, calls[..n], results[..n], skill)
  }

  lemma SkillLogStep(p: Parsers, calls: seq<ToolCall>, results: seq<Message>)
    requires |calls| == |results| > 0
    ensures
      var n := |calls| - 1;
      var key := SkillLoader(p).keyOf(calls[n]);
      SkillLog(p, calls, results) == SkillLog(p, calls[..n], results[..n])
        + if key.Some? && Trim(results[n].content) != "" then [Entry(key.value, SkillBody(results[n]))] else []
  {
    hide Trim, Utf8.CapBody;
    var n := |calls| - 1;
    assert OwnKeys(SkillLoader(p), calls)[..n] == OwnKeys(SkillLoader(p), calls[..n]);
  }

  /** The newest body of a skill is the answer of its last load. */
  lemma {:induction false} NewestLoad(p: Parsers, calls: seq<ToolCall>, results: seq<Message>, skill: string)
    requires |calls| == |results|
    ensures skill in Names(SkillLog(p, calls, results)) <==> LastLoad(p, calls, results, skill) >= 0
    ensures skill in Names(SkillLog(p, calls, results)) ==>
      Newest(SkillLog(p, calls, results), skill) == SkillBody(results[LastLoad(p, calls, results, skill)])
    decreases |calls|
  {
    hide Newest, SkillLog, Trim, SkillBody, SkillLoader;
    if calls == [] {
      NothingLogged(p);
    } else {
      var n := |calls| - 1;
      var before := SkillLog(p, calls[..n], results[..n]);
      NewestLoad(p, calls[..n], results[..n], skill);
      SkillLogStep(p, calls, results);
      var key := SkillLoader(p).keyOf(calls[n]);
      if key.Some? && Trim(results[n].content) != "" {
        var e := Entry(key.value, SkillBody(results[n]));
        NamesConcat(before, [e]);
        assert Names([e]) == [e.name];
        if skill in Names(before + [e]) {
          NewestSnoc(before, e, skill);
        }
      } else {
        assert before + [] == before;
      }
    }
  }

  lemma NothingLogged(p: Parsers)
    ensures SkillLog(p, [], []) == []
  {
  }

  lemma {:induction false} ThinnedLoads(p: Parsers, calls: seq<ToolCall>, was: seq<Message>, now: seq<Message>,
                                        plain: bool)
    requires |calls| == |was| && Thinned(was, now, plain)
    ensures Names(SkillLog(p, calls, now)) == Names(SkillLog(p, calls, was))
    ensures forall q :: LastLoad(p, calls, now, q) == LastLoad(p, calls, was, q)
    decreases |calls|
  {
    hide SkillLog, Trim, SkillBody, SkillLoader, IsPlaceholder, ShowsMark;
    if calls == [] {
      assert was == now;
    } else {
      var n := |calls| - 1;
      ThinnedLoads(p, calls[..n], was[..n], now[..n], plain);
      SkillLogStep(p, calls, was);
      SkillLogStep(p, calls, now);
      if now[n] != was[n] {
        PlaceholderNotBlank(now[n].content);
      }
      var key := SkillLoader(p).keyOf(calls[n]);
      if key.Some? && Trim(was[n].content) != "" {
        NamesConcat(SkillLog(p, calls[..n], was[..n]), [Entry(key.value, SkillBody(was[n]))]);
        NamesConcat(SkillLog(p, calls[..n], now[..n]), [Entry(key.value, SkillBody(now[n]))]);
      } else {
        assert forall log: seq<Entry> :: log + [] == log;
      }
    }
  }

  lemma PlaceholderNotBlank(content: string)
    requires IsPlaceholder(content)
    ensures Trim(content) != ""
  {
    hide Trim;
  }

  /** The last load of every skill still gives the body it gave. */
  predicate BodiesStand(p: Parsers, calls: seq<ToolCall>, was: seq<Message>, now: seq<Message>)
    requires |calls| == |was| == |now|
  {
    forall i :: 0 <= i < |SkillLog(p, calls, was)| ==>
      var k := LastLoad(p, calls, was, SkillLog(p, calls, was)[i].name);
      k >= 0 ==> SkillBody(now[k]) == SkillBody(was[k])
  }

  lemma SkillsStandIff(p: Parsers, calls: seq<ToolCall>, was: seq<Message>, now: seq<Message>, plain: bool)
    requires |calls| == |was| && Thinned(was, now, plain)
    ensures LoadsOnePass(SkillLoader(p), calls, now) == LoadsOnePass(SkillLoader(p), calls, was)
      <==> BodiesStand(p, calls, was, now)
  {
    hide Newest, SkillLog, SkillBody, FirstSeen, LastLoad, Thinned;
    ThinnedLength(was, now, plain);
    var a, b := SkillLog(p, calls, was), SkillLog(p, calls, now);
    ThinnedLoads(p, calls, was, now, plain);
    SameDigestIff(b, a);
    LoadsAreLogged(p, calls, was);
    LoadsAreLogged(p, calls, now);
    forall n | n in Names(a)
      ensures
        var k := LastLoad(p, calls, was, n);
        0 <= k < |was| && Newest(a, n) == SkillBody(was[k]) && Newest(b, n) == SkillBody(now[k])
    {
      NewestLoad(p, calls, was, n);
      NewestLoad(p, calls, now, n);
    }
    forall i | 0 <= i < |a| ensures a[i].name in Names(a) {
      assert Names(a)[i] == a[i].name;
    }
    assert forall n :: n in Names(a) ==> exists i :: 0 <= i < |a| && a[i].name == n;
  }

  lemma LoadsAreLogged(p: Parsers, calls: seq<ToolCall>, results: seq<Message>)
    requires |calls| == |results|
    ensures LoadsOnePass(SkillLoader(p), calls, results) == FirstPlace(SkillLog(p, calls, results))
  {
  }

  lemma ThinnedLength(was: seq<Message>, now: seq<Message>, plain: bool)
    requires Thinned(was, now, plain)
    ensures |now| == |was|
  {
  }

  // ---- the tool schemas ----

  /** Schemas are read only off an answer that says what it loaded. */
  ghost predicate LoadsSaySo(p: Parsers) {
    forall c :: p.toolSchemas(c) != [] ==> HasPrefix(Trim(c), "Loaded ")
  }

  /** Which answers gave way. */
  function Gone(was: seq<Message>, now: seq<Message>): (r: seq<bool>)
    requires |was| == |now|
    ensures |r| == |was|
  {
    seq(|was|, i requires 0 <= i < |was| => was[i] != now[i])
  }

  function SparedKeys(p: Parsers, calls: seq<ToolCall>, gone: seq<bool>): (r: seq<Option<string>>)
    requires |calls| == |gone|
    ensures |r| == |calls|
  {
    seq(|calls|, i requires 0 <= i < |calls| => if gone[i] then None else ToolLoader(p).keyOf(calls[i]))
  }

  /** The schemas loaded by the answers that are not gone. */
  function SparedLog(p: Parsers, calls: seq<ToolCall>, results: seq<Message>, gone: seq<bool>): seq<Entry>
    requires |calls| == |results| == |gone|
  {
    LogBy(ToolLoader(p), SparedKeys(p, calls, gone), results)
  }

  function ToolLog(p: Parsers, calls: seq<ToolCall>, results: seq<Message>): seq<Entry>
    requires |calls| == |results|
  {
    LogBy(ToolLoader(p), OwnKeys(ToolLoader(p), calls), results)
  }

  lemma {:induction false} ThinnedSchemas(p: Parsers, calls: seq<ToolCall>, was: seq<Message>, now: seq<Message>,
                                          plain: bool)
    requires LoadsSaySo(p) && |calls| == |was| && Thinned(was, now, plain)
    ensures ToolLog(p, calls, now) == SparedLog(p, calls, was, Gone(was, now))
    decreases |calls|
  {
    hide Trim, ShowsMark;
    if calls != [] {
      var n := |calls| - 1;
      ThinnedSchemas(p, calls[..n], was[..n], now[..n], plain);
      assert OwnKeys(ToolLoader(p), calls)[..n] == OwnKeys(ToolLoader(p), calls[..n]);
      assert Gone(was, now)[..n] == Gone(was[..n], now[..n]);
      assert SparedKeys(p, calls, Gone(was, now))[..n] == SparedKeys(p, calls[..n], Gone(was, now)[..n]);
      if was[n] != now[n] {
        PlaceholderLoadsNothing(p, now[n].content);
      }
    }
  }

  lemma PlaceholderLoadsNothing(p: Parsers, content: string)
    requires LoadsSaySo(p) && IsPlaceholder(content)
    ensures p.toolSchemas(content) == []
  {
    hide Trim;
    var loaded := "Loaded ";
    assert Trim(content)[0] == PRUNED_HEAD[0] != loaded[0];
  }

  /** Without the answers that are gone, every schema is still loaded: in the same order, its
      newest text the same. */
  predicate SchemasStand(p: Parsers, calls: seq<ToolCall>, results: seq<Message>, gone: seq<bool>)
    requires |calls| == |results| == |gone|
  {
    var all, left := ToolLog(p, calls, results), SparedLog(p, calls, results, gone);
    && FirstSeen(Names(left)) == FirstSeen(Names(all))
    && forall i :: 0 <= i < |all| ==>
         all[i].name in Names(left) && Newest(left, all[i].name) == Newest(all, all[i].name)
  }

  lemma SchemasStandIff(p: Parsers, calls: seq<ToolCall>, was: seq<Message>, now: seq<Message>, plain: bool)
    requires LoadsSaySo(p) && |calls| == |was| && Thinned(was, now, plain)
    ensures LoadsOnePass(ToolLoader(p), calls, now) == LoadsOnePass(ToolLoader(p), calls, was)
      <==> SchemasStand(p, calls, was, Gone(was, now))
  {
    hide Newest, ToolLog, SparedLog, Thinned, FirstSeen, FirstPlace;
    ThinnedLength(was, now, plain);
    ThinnedSchemas(p, calls, was, now, plain);
    var a, b := ToolLog(p, calls, was), ToolLog(p, calls, now);
    SchemasAreLogged(p, calls, was);
    SchemasAreLogged(p, calls, now);
    SameDigestIff(a, b);
    FirstSeenMembers(Names(a));
    FirstSeenMembers(Names(b));
    forall i | 0 <= i < |a| ensures a[i].name in Names(a) {
      assert Names(a)[i] == a[i].name;
    }
    assert forall n :: n in Names(a) ==> exists i :: 0 <= i < |a| && a[i].name == n;
  }

  lemma SchemasAreLogged(p: Parsers, calls: seq<ToolCall>, results: seq<Message>)
    requires |calls| == |results|
    ensures LoadsOnePass(ToolLoader(p), calls, results) == FirstPlace(ToolLog(p, calls, results))
  {
  }

  // ---- the state ----

  /** What the state keeps reads the same in the thinned answers. */
  predicate StateStands(p: Parsers, calls: seq<ToolCall>, was: seq<Message>, now: seq<Message>)
    requires |calls| == |was| == |now|
  {
    && NotesStand(p, calls, was, now)
    && BodiesStand(p, calls, was, now)
    && SchemasStand(p, calls, was, Gone(was, now))
  }

  /** One pass over a thinned history gives the state of the history itself exactly if what that
      state keeps reads the same. */
  lemma OnePassStandsIff(p: Parsers, was: seq<Message>, now: seq<Message>, plain: bool)
    requires LoadsSaySo(p) && WellFormed(was) && Thinned(was, now, plain)
    ensures WellFormed(now)
    ensures |Calls(was)| == |ToolResults(was)| == |ToolResults(now)|
    ensures OnePassState(p, now) == OnePassState(p, was)
      <==> StateStands(p, Calls(was), ToolResults(was), ToolResults(now))
  {
    hide Thinned, EditsOnePass, LoadsOnePass, NotesStand, BodiesStand, SchemasStand, WellFormed;
    ThinnedShape(was, now, plain);
    SameShapeWellFormed(was, now);
    ThinnedParts(p, was, now, plain);
    ResultsAnswerCalls(was);
    ResultsAnswerCalls(now);
    var calls, a, b := Calls(was), ToolResults(was), ToolResults(now);
    EditsStandIff(p, calls, a, b);
    SkillsStandIff(p, calls, a, b, plain);
    SchemasStandIff(p, calls, a, b, plain);
  }

  /** No answer that is gone is the last edit of a kept path or the last load of a skill, and the
      schemas stand without them. */
  predicate Dispensable(p: Parsers, calls: seq<ToolCall>, results: seq<Message>, gone: seq<bool>)
    requires |calls| == |results| == |gone|
  {
    var kept := Tail(DedupeLast(EditPaths(p, calls)), MAX_RECENT_EDITS);
    && (forall i :: 0 <= i < |kept| ==> LastEdit(p, calls, kept[i]) >= 0 ==> !gone[LastEdit(p, calls, kept[i])])
    && (forall i :: 0 <= i < |SkillLog(p, calls, results)| ==>
          var k := LastLoad(p, calls, results, SkillLog(p, calls, results)[i].name);
          k >= 0 ==> !gone[k])
    && SchemasStand(p, calls, results, gone)
  }

  lemma GoneShows(was: Message, now: Message)
    requires now == was || GaveWay(was, now, true)
    ensures EditNote(now.content) == EditNote(was.content) <==> now == was
    ensures SkillBody(now) == SkillBody(was) <==> now == was
  {
    hide EditNote, Utf8.CapBody, Trim, IsPlaceholder;
    if now != was {
      OthersShowNoMark(was.content);
    }
  }

  /** With plain tool names a lost note or body always shows. */
  lemma DispensableIff(p: Parsers, calls: seq<ToolCall>, was: seq<Message>, now: seq<Message>)
    requires |calls| == |was| && Thinned(was, now, true)
    ensures StateStands(p, calls, was, now) <==> Dispensable(p, calls, was, Gone(was, now))
  {
    hide EditNote, SkillBody, GaveWay, SchemasStand, LastEdit, LastLoad, SkillLog, DedupeLast;
    forall k | 0 <= k < |was|
      ensures Gone(was, now)[k] <==> EditNote(now[k].content) != EditNote(was[k].content)
      ensures Gone(was, now)[k] <==> SkillBody(now[k]) != SkillBody(was[k])
    {
      GoneShows(was[k], now[k]);
    }
  }

  // ---- one pass of pruning ----

  /** Where the k-th tool message stands. */
  function Place(ms: seq<Message>, k: nat): (i: nat)
    requires k < |ToolResults(ms)|
    ensures i < |ms| && ToolResults(ms)[k] == ms[i]
  {
    if ms[0].role == Tool && k == 0 then 0
    else 1 + Place(ms[1..], if ms[0].role == Tool then k - 1 else k)
  }

  /** Which answers a pass of pruning empties. */
  function Emptying(ms: seq<Message>, keep: int): (r: seq<bool>)
    ensures |r| == |ToolResults(ms)|
  {
    seq(|ToolResults(ms)|, k requires 0 <= k < |ToolResults(ms)| => Worthwhile(ms, keep) && Stale(ms, keep, Place(ms, k)))
  }

  lemma {:induction false} SamePlace(was: seq<Message>, now: seq<Message>, k: nat)
    requires SameShape(was, now) && |ToolResults(was)| == |ToolResults(now)| && k < |ToolResults(was)|
    ensures Place(now, k) == Place(was, k)
    decreases |was|
  {
    if !(was[0].role == Tool && k == 0) {
      SamePlace(was[1..], now[1..], if was[0].role == Tool then k - 1 else k);
    }
  }

  lemma EmptyingIsGone(p: Parsers, ms: seq<Message>, keep: int)
    ensures |ToolResults(Pruned(ms, keep))| == |ToolResults(ms)|
    ensures Emptying(ms, keep) == Gone(ToolResults(ms), ToolResults(Pruned(ms, keep)))
  {
    hide Pruned, Stale, Worthwhile, GaveWay;
    PruneThins(ms, keep);
    ThinnedParts(p, ms, Pruned(ms, keep), PlainNames(ms));
    forall k | 0 <= k < |ToolResults(ms)|
      ensures Emptying(ms, keep)[k] == (ToolResults(ms)[k] != ToolResults(Pruned(ms, keep))[k])
    {
      SamePlace(ms, Pruned(ms, keep), k);
    }
  }

  /** Pruning leaves the state to be carried as it was exactly if no stale answer is the last edit
      of a kept path or the last load of a skill, and the schemas stand without the stale ones. */
  lemma PruneKeepsStateIff(p: Parsers, ms: seq<Message>, keep: int)
    requires LoadsSaySo(p) && WellFormed(ms) && PlainNames(ms)
    ensures WellFormed(Pruned(ms, keep))
    ensures |Calls(ms)| == |ToolResults(ms)|
    ensures OnePassState(p, Pruned(ms, keep)) == OnePassState(p, ms)
      <==> Dispensable(p, Calls(ms), ToolResults(ms), Emptying(ms, keep))
  {
    hide Thinned, WellFormed, Dispensable, StateStands, OnePassState, Pruned, Gone, Emptying, PlainNames;
    var now := Pruned(ms, keep);
    PruneThins(ms, keep);
    EmptyingIsGone(p, ms, keep);
    OnePassStandsIff(p, ms, now, true);
    ThinnedParts(p, ms, now, true);
    DispensableIff(p, Calls(ms), ToolResults(ms), ToolResults(now));
  }

  // ---- a history that loses its state ----

  /** A call answered with `body`, and another one behind it answered at length. */
  function LongAgo(call: ToolCall, body: string, later: ToolCall, output: string): seq<Message> {
    [AssistantMessage("", [call]), ToolMessage(body, call.id), AssistantMessage("", [later]), ToolMessage(output, later.id)]
  }

  lemma LongAgoParts(call: ToolCall, body: string, later: ToolCall, output: string)
    ensures
      var ms := LongAgo(call, body, later, output);
      && WellFormed(ms) && Calls(ms) == [call, later]
      && ToolResults(ms) == [ms[1], ms[3]] && Place(ms, 0) == 1 && Place(ms, 1) == 3
  {
    var ms := LongAgo(call, body, later, output);
    var m0, m1, m2, m3 := ms[0], ms[1], ms[2], ms[3];
    assert ms[1..] == [m1, m2, m3] && ms[1..][1..] == [m2, m3] && [m2, m3][1..] == [m3] && [m3][1..] == [];
    assert ms[2..] == [m2, m3] && [m2, m3][2..] == [];
    assert ms[1..2] == [m1] && [m2, m3][1..2] == [m3];
    assert ToolResults([m3]) == [m3];
    assert ToolResults([m2, m3]) == [m3];
    assert ToolResults([m1, m2, m3]) == [m1, m3];
    assert ToolResults(ms) == [m1, m3];
    assert Calls([m3]) == [];
    assert Calls([m2, m3]) == [later];
    assert Calls([m1, m2, m3]) == [later];
    assert Place([m3], 0) == 0;
    assert Place([m2, m3], 0) == 1;
    assert Place([m1, m2, m3], 0) == 0;
    assert Place([m1, m2, m3], 1) == 2;
  }

  /** The old answer is emptied, the recent one is not. */
  lemma LongAgoEmptied(call: ToolCall, body: string, later: ToolCall, output: string)
    requires !IsPlaceholder(body)
    requires TextTokens(body) >= MIN_RECLAIM_TOKENS && TextTokens(output) >= PROTECT_RECENT_TOKENS
    ensures Emptying(LongAgo(call, body, later, output), 0) == [true, false]
  {
    hide IsPlaceholder, TextTokens;
    var ms := LongAgo(call, body, later, output);
    LongAgoParts(call, body, later, output);
    assert Recent(ms, 0, 4) == 0;
    assert Recent(ms, 0, 3) == TextTokens(output);
    assert Recent(ms, 0, 2) == TextTokens(output);
    assert Stale(ms, 0, 1) && !Stale(ms, 0, 2) && !Stale(ms, 0, 3) && !Stale(ms, 0, 0);
    assert Reclaimable(ms, 0, 4) == 0;
    assert Reclaimable(ms, 0, 3) == 0;
    assert Reclaimable(ms, 0, 2) == 0;
    assert Reclaimable(ms, 0, 1) == TextTokens(body);
    assert Reclaimable(ms, 0, 0) == TextTokens(body);
  }

  lemma EditsOfTwo(p: Parsers, call: ToolCall, later: ToolCall)
    requires later.name.Named?
    ensures
      var kept := Tail(DedupeLast(EditPaths(p, [call, later])), MAX_RECENT_EDITS);
      if EditPath(p, call) == "" then kept == []
      else kept == [EditPath(p, call)] && LastEdit(p, [call, later], EditPath(p, call)) == 0
  {
    assert EditPath(p, later) == "";
    hide EditPath;
    EditCallSnoc(p, [], call);
    EditCallSnoc(p, [call], later);
    assert [] + [call] == [call] && [call] + [later] == [call, later];
    hide EditPaths, PathById;
    var path := EditPath(p, call);
    assert EditPaths(p, [call, later]) == if path == "" then [] else [path];
    assert [path][1..] == [];
    assert DedupeLast([path]) == [path];
    if path != "" {
      assert [call, later][..1] == [call];
      assert LastEdit(p, [call], path) == 0;
    }
  }

  lemma SkillsOfTwo(p: Parsers, call: ToolCall, later: ToolCall, results: seq<Message>)
    requires later.name.Named? && |results| == 2 && Trim(results[0].content) != ""
    ensures
      var log := SkillLog(p, [call, later], results);
      if call.name != Skill then log == []
      else |log| == 1 && LastLoad(p, [call, later], results, log[0].name) == 0
  {
    hide Trim, SkillLog, SkillBody;
    assert [call, later][..1] == [call] && [call][..0] == [] && results[..1][..0] == [];
    SkillLogStep(p, [call, later], results);
    SkillLogStep(p, [call], results[..1]);
    NothingLogged(p);
  }

  lemma SchemasOfTwo(p: Parsers, call: ToolCall, later: ToolCall, results: seq<Message>)
    requires later.name.Named? && |results| == 2
    ensures ToolLog(p, [call, later], results) == if call.name == ToolSearch then p.toolSchemas(results[0].content) else []
    ensures SparedLog(p, [call, later], results, [true, false]) == []
  {
    var l, calls := ToolLoader(p), [call, later];
    var own, spared := OwnKeys(l, calls), SparedKeys(p, calls, [true, false]);
    assert results[..1][..0] == [] && own[..1][..0] == [] && spared[..1][..0] == [];
    assert LogBy(l, own[..1], results[..1]) == if call.name == ToolSearch then p.toolSchemas(results[0].content) else [];
    assert LogBy(l, spared[..1], results[..1]) == [];
  }

  lemma NothingSeen(log: seq<Entry>)
    ensures FirstSeen(Names(log)) == [] <==> log == []
  {
    FirstSeenMembers(Names(log));
    if log != [] {
      assert Names(log)[0] in FirstSeen(Names(log));
    }
  }

  /** One old, large answer, and enough output behind it: pruning loses state exactly if the answer
      is an edit's, a skill's, or that of a tool_search that loaded something. */
  lemma OldAnswerIsLostIff(p: Parsers, call: ToolCall, body: string, later: ToolCall, output: string)
    requires LoadsSaySo(p) && later.name.Named? && PlainText(NameText(call.name)) && PlainText(NameText(later.name))
    requires !IsPlaceholder(body)
    requires TextTokens(body) >= MIN_RECLAIM_TOKENS && TextTokens(output) >= PROTECT_RECENT_TOKENS
    ensures
      var ms := LongAgo(call, body, later, output);
      && WellFormed(ms) && WellFormed(Pruned(ms, 0))
      && (OnePassState(p, Pruned(ms, 0)) != OnePassState(p, ms)
          <==> EditPath(p, call) != "" || call.name == Skill || (call.name == ToolSearch && p.toolSchemas(body) != []))
  {
    hide IsPlaceholder, TextTokens, WellFormed, OnePassState, Pruned, Emptying, EditPath, SkillLog, ToolLog, SparedLog,
         PlainText, NameText, Trim, Dispensable;
    var ms := LongAgo(call, body, later, output);
    LongAgoParts(call, body, later, output);
    LongAgoEmptied(call, body, later, output);
    PruneKeepsStateIff(p, ms, 0);
    LargeIsNotBlank(body);
    var results := ToolResults(ms);
    FirstIsNeededIff(p, call, later, results);
  }

  lemma FirstIsNeededIff(p: Parsers, call: ToolCall, later: ToolCall, results: seq<Message>)
    requires later.name.Named? && |results| == 2 && Trim(results[0].content) != ""
    ensures Dispensable(p, [call, later], results, [true, false]) <==>
      EditPath(p, call) == "" && call.name != Skill && (call.name == ToolSearch ==> p.toolSchemas(results[0].content) == [])
  {
    hide EditPath, SkillLog, ToolLog, SparedLog, LastEdit, DedupeLast, FirstSeen, Trim, Newest, LastLoad;
    EditsOfTwo(p, call, later);
    SkillsOfTwo(p, call, later, results);
    SchemasOfTwo(p, call, later, results);
    NothingSeen(ToolLog(p, [call, later], results));
    NothingSeen([]);
    var kept := Tail(DedupeLast(EditPaths(p, [call, later])), MAX_RECENT_EDITS);
    if EditPath(p, call) != "" {
      assert LastEdit(p, [call, later], kept[0]) == 0;
    }
    if call.name == Skill {
      assert LastLoad(p, [call, later], results, SkillLog(p, [call, later], results)[0].name) == 0;
    }
  }

  function Filler(n: nat): string {
    seq(n, _ => 'x')
  }

  lemma {:induction false} FillerCounts(head: string, n: nat)
    ensures NonSpace(head + Filler(n)) == NonSpace(head) + n
    decreases n
  {
    if n == 0 {
      assert head + Filler(0) == head;
    } else {
      assert (head + Filler(n))[..|head| + n - 1] == head + Filler(n - 1);
      FillerCounts(head, n - 1);
    }
  }

  /** The edits carried out of such a history, as long as nothing is pruned. */
  lemma LongAgoEdits(p: Parsers, call: ToolCall, body: string, later: ToolCall, output: string)
    requires later.name.Named? && EditPath(p, call) != ""
    ensures
      var ms := LongAgo(call, body, later, output);
      WellFormed(ms) && OnePassState(p, ms).edits == [Entry(EditPath(p, call), EditNote(body))]
  {
    hide WellFormed, EditNote, EditPath, EditsOnePass, LastEdit, DedupeLast;
    var ms := LongAgo(call, body, later, output);
    LongAgoParts(call, body, later, output);
    ResultsAnswerCalls(ms);
    EditsOfTwo(p, call, later);
    var results := ToolResults(ms);
    EditOrderOnePass(p, [call, later], results);
    var edits := EditsOnePass(p, [call, later], results);
    assert Names(edits) == Names(RecentEdits(p, [call, later], results)) == [EditPath(p, call)];
    assert edits[0].name == Names(edits)[0];
    OnePassNote(p, [call, later], results, 0);
  }

  /** A file was written, long output followed: the note kept for the file is a pruning mark. */
  lemma WrittenNoteIsLost(p: Parsers)
    requires LoadsSaySo(p) && p.editPath("a") == "a.go"
    ensures
      var ms := LongAgo(ToolCall("1", WriteFile, "a"), "wrote a.go\n" + Filler(80000),
                        ToolCall("2", Named("bash"), ""), Filler(160000));
      && WellFormed(ms) && WellFormed(Pruned(ms, 0))
      && OnePassState(p, ms).edits == [Entry("a.go", "wrote a.go")]
      && OnePassState(p, Pruned(ms, 0)) != OnePassState(p, ms)
  {
    hide Filler, WellFormed, Pruned, NonSpace, EditNote, OnePassState, IsPlaceholder, LongAgo;
    var head := "wrote a.go\n";
    var body, output := head + Filler(80000), Filler(160000);
    var call, later := ToolCall("1", WriteFile, "a"), ToolCall("2", Named("bash"), "");
    FillerCounts(head, 80000);
    FillerCounts("", 160000);
    assert "" + output == output;
    WrittenNote(Filler(80000));
    LongAgoEdits(p, call, body, later, output);
    OldAnswerIsLostIff(p, call, body, later, output);
  }

  lemma WrittenNote(rest: string)
    ensures !IsPlaceholder("wrote a.go\n" + rest) && EditNote("wrote a.go\n" + rest) == "wrote a.go"
  {
    hide EditNote, Trim;
    var line := "wrote a.go";
    assert "wrote a.go\n" + rest == line + ("\n" + rest);
    TrimmedLine(line);
    ShortNote(line, "\n" + rest);
  }

  lemma ShortNote(line: string, rest: string)
    requires line != "" && !IsSpace(line[0]) && !IsSpace(line[|line| - 1]) && line[0] != '['
    requires '\n' !in line && Trim(line) == line && |line| <= MAX_EDIT_NOTE_BYTES && rest != "" && rest[0] == '\n'
    ensures !IsPlaceholder(line + rest) && EditNote(line + rest) == line
  {
    hide FirstLine, Trim, Utf8.RuneBack;
    FirstLineStops(line, rest);
    TrimKeepsHead(line, rest);
    assert Trim(line + rest)[0] == line[0];
  }

  lemma TrimmedLine(line: string)
    requires line == "wrote a.go"
    ensures line != "" && !IsSpace(line[0]) && !IsSpace(line[|line| - 1]) && Trim(line) == line
  {
    TrimUntouched(line);
  }

  lemma {:induction false} FirstLineStops(line: string, rest: string)
    requires '\n' !in line && rest != "" && rest[0] == '\n'
    ensures FirstLine(line + rest) == line
    decreases |line|
  {
    if line == "" {
      assert line + rest == rest;
    } else {
      assert (line + rest)[1..] == line[1..] + rest;
      FirstLineStops(line[1..], rest);
    }
  }
}
