/** What carried state should be, read off the history by position, and the proof that
    digesting it compaction by compaction gives just that. */
module OnePass {
  import opened Basics
  import opened Transcript
  import opened LastSeen
  import opened Preserve
  import Utf8

  // ---- edits: the touch log ----

  /** Every edit call with the note of the very answer it got, oldest first. */
  function Touches(p: Parsers, calls: seq<ToolCall>, results: seq<Message>): seq<Entry>
    requires |calls| == |results|
  {
    if calls == [] then []
    else
      var n := |calls| - 1;
      Touches(p, calls[..n], results[..n])
      + if EditPath(p, calls[n]) != "" then [Entry(EditPath(p, calls[n]), EditNote(results[n].content))] else []
  }

  /** The last call that edits `path`, -1 when none does. */
  function LastEdit(p: Parsers, calls: seq<ToolCall>, path: string): (k: int)
    ensures -1 <= k < |calls|
    ensures k >= 0 ==> EditPath(p, calls[k]) == path
    ensures forall j :: k < j < |calls| ==> EditPath(p, calls[j]) != path
  {
    if calls == [] then -1
    else if EditPath(p, calls[|calls| - 1]) == path then |calls| - 1
    else LastEdit(p, calls[..|calls| - 1], path)
  }

  /** The last call whose id is filed under `path`, -1 when none is. */
  function LastFiled(ids: map<string, string>, calls: seq<ToolCall>, path: string): (k: int)
    ensures -1 <= k < |calls|
  {
    if calls == [] then -1
    else
      var id := calls[|calls| - 1].id;
      if id != "" && id in ids && ids[id] == path then |calls| - 1
      else LastFiled(ids, calls[..|calls| - 1], path)
  }

  /** Ids tell the calls apart well enough: under each path that is kept, the last answer
      filed by id is the answer of the last edit. A condition on the calls alone. */
  predicate KeepsNotes(p: Parsers, calls: seq<ToolCall>) {
    var kept := Tail(DedupeLast(EditPaths(p, calls)), MAX_RECENT_EDITS);
    forall i :: 0 <= i < |kept| ==>
      LastFiled(PathById(p, calls), calls, kept[i]) == LastEdit(p, calls, kept[i])
  }

  function EditsOnePass(p: Parsers, calls: seq<ToolCall>, results: seq<Message>): seq<Entry>
    requires |calls| == |results|
  {
    Tail(LastTouch(Touches(p, calls, results)), MAX_RECENT_EDITS)
  }

  lemma {:induction false} TouchNames(p: Parsers, calls: seq<ToolCall>, results: seq<Message>)
    requires |calls| == |results|
    ensures Names(Touches(p, calls, results)) == EditPaths(p, calls)
    decreases |calls|
  {
    hide EditNote, EditPath;
    if calls != [] {
      var n := |calls| - 1;
      TouchNames(p, calls[..n], results[..n]);
      var own := if EditPath(p, calls[n]) != "" then [Entry(EditPath(p, calls[n]), EditNote(results[n].content))] else [];
      NamesConcat(Touches(p, calls[..n], results[..n]), own);
    }
  }

  lemma {:induction false} DedupeNames(log: seq<Entry>)
    ensures Names(LastTouch(log)) == DedupeLast(Names(log))
    decreases |log|
  {
    if log != [] {
      DedupeNames(log[1..]);
      assert Names(log)[1..] == Names(log[1..]);
      NamesConcat([log[0]], LastTouch(log[1..]));
    }
  }

  lemma {:induction false} LastTouchHoldsNewest(log: seq<Entry>, i: nat)
    requires i < |LastTouch(log)|
    ensures LastTouch(log)[i].name in Names(log)
    ensures LastTouch(log)[i].body == Newest(log, LastTouch(log)[i].name)
    decreases |log|
  {
    hide Newest, LastTouch, Names;
    var e, rest := log[0], log[1..];
    assert log == [e] + rest;
    LastTouchStep(e, rest);
    NamesConcat([e], rest);
    if e.name in Names(rest) {
      LastTouchHoldsNewest(rest, i);
      NewestBehind(e, rest, LastTouch(log)[i].name);
    } else if i == 0 {
      NewestAlone(e, rest);
    } else {
      LastTouchHoldsNewest(rest, i - 1);
      NewestBehind(e, rest, LastTouch(log)[i].name);
    }
  }

  lemma {:induction false} NewestBehind(e: Entry, rest: seq<Entry>, name: string)
    requires name in Names(rest)
    ensures Names([e] + rest) == [e.name] + Names(rest)
    ensures Newest([e] + rest, name) == Newest(rest, name)
    decreases |rest|
  {
    NamesConcat([e], rest);
    var before := rest[..|rest| - 1];
    if rest[|rest| - 1].name != name {
      assert Names(rest) == Names(before) + [rest[|rest| - 1].name];
      NewestBehind(e, before, name);
      assert ([e] + rest)[..|rest|] == [e] + before;
    }
  }

  lemma {:induction false} NewestAlone(e: Entry, rest: seq<Entry>)
    requires e.name !in Names(rest)
    ensures Names([e] + rest) == [e.name] + Names(rest)
    ensures Newest([e] + rest, e.name) == e.body
    decreases |rest|
  {
    NamesConcat([e], rest);
    if rest != [] {
      var before := rest[..|rest| - 1];
      assert Names(before) == Names(rest)[..|before|];
      assert Names(rest)[|before|] == rest[|before|].name;
      NewestAlone(e, before);
      assert ([e] + rest)[..|rest|] == [e] + before;
    }
  }

  lemma NewestSnoc(log: seq<Entry>, e: Entry, name: string)
    requires name in Names(log + [e])
    ensures name == e.name ==> Newest(log + [e], name) == e.body
    ensures name != e.name ==> name in Names(log) && Newest(log + [e], name) == Newest(log, name)
  {
    NamesConcat(log, [e]);
    assert (log + [e])[..|log|] == log;
  }

  lemma {:induction false} NewestTouch(p: Parsers, calls: seq<ToolCall>, results: seq<Message>, path: string)
    requires |calls| == |results| && path != ""
    requires path in Names(Touches(p, calls, results))
    ensures LastEdit(p, calls, path) >= 0
    ensures Newest(Touches(p, calls, results), path) == EditNote(results[LastEdit(p, calls, path)].content)
    decreases |calls|
  {
    hide EditNote, Newest, EditPath;
    var n := |calls| - 1;
    var before, here := Touches(p, calls[..n], results[..n]), EditPath(p, calls[n]);
    if here != "" {
      NewestSnoc(before, Entry(here, EditNote(results[n].content)), path);
    } else {
      assert before + [] == before;
    }
    if here != path {
      NewestTouch(p, calls[..n], results[..n], path);
    }
  }

  lemma {:induction false} FiledAgrees(ids: map<string, string>, calls: seq<ToolCall>, results: seq<Message>, path: string)
    requires Answers(results, calls)
    ensures LastFiled(ids, calls, path) == NoteIndex(ids, results, path)
    decreases |calls|
  {
    if calls != [] {
      FiledAgrees(ids, calls[..|calls| - 1], results[..|calls| - 1], path);
    }
  }

  /** The order of the carried edits is right whatever the ids are. */
  lemma EditOrderOnePass(p: Parsers, calls: seq<ToolCall>, results: seq<Message>)
    requires Answers(results, calls)
    ensures Names(RecentEdits(p, calls, results)) == Names(EditsOnePass(p, calls, results))
  {
    var log := Touches(p, calls, results);
    TouchNames(p, calls, results);
    DedupeNames(log);
    assert Names(Tail(LastTouch(log), MAX_RECENT_EDITS)) == Tail(Names(LastTouch(log)), MAX_RECENT_EDITS);
  }

  /** What the one pass carries for the i-th kept path: the note of its last edit. */
  lemma OnePassNote(p: Parsers, calls: seq<ToolCall>, results: seq<Message>, i: nat)
    requires Answers(results, calls) && i < |EditsOnePass(p, calls, results)|
    ensures
      var e := EditsOnePass(p, calls, results)[i];
      LastEdit(p, calls, e.name) >= 0 && e.body == EditNote(results[LastEdit(p, calls, e.name)].content)
  {
    hide EditNote;
    var log := Touches(p, calls, results);
    var all := LastTouch(log);
    var skip := if |all| <= MAX_RECENT_EDITS then 0 else |all| - MAX_RECENT_EDITS;
    LastTouchHoldsNewest(log, skip + i);
    TouchNames(p, calls, results);
    EditPathsNotEmpty(p, calls);
    NewestTouch(p, calls, results, all[skip + i].name);
  }

  lemma {:induction false} EditPathsNotEmpty(p: Parsers, calls: seq<ToolCall>)
    ensures "" !in EditPaths(p, calls)
    decreases |calls|
  {
    if calls != [] {
      EditPathsNotEmpty(p, calls[..|calls| - 1]);
    }
  }

  /** Matching notes by id is matching them by position, if the ids keep the notes. */
  lemma EditsByIdAreOnePass(p: Parsers, calls: seq<ToolCall>, results: seq<Message>)
    requires Answers(results, calls) && KeepsNotes(p, calls)
    ensures RecentEdits(p, calls, results) == EditsOnePass(p, calls, results)
  {
    hide EditNote;
    var ids := PathById(p, calls);
    var code, ref := RecentEdits(p, calls, results), EditsOnePass(p, calls, results);
    EditOrderOnePass(p, calls, results);
    assert |Names(code)| == |Names(ref)|;
    forall i | 0 <= i < |code| ensures code[i] == ref[i] {
      assert Names(code)[i] == Names(ref)[i];
      OnePassNote(p, calls, results, i);
      FiledAgrees(ids, calls, results, code[i].name);
    }
  }

  /** Answers that are all blank but for the one to the call at `k`. */
  function Spike(calls: seq<ToolCall>, k: nat, content: string): (r: seq<Message>)
    ensures Answers(r, calls)
    ensures forall i :: 0 <= i < |calls| ==> r[i].content == if i == k then content else ""
  {
    seq(|calls|, i requires 0 <= i < |calls| => ToolMessage(if i == k then content else "", calls[i].id))
  }

  lemma EditNoteOfSpike()
    ensures EditNote("") == "" && EditNote("a") == "a"
  {
    assert FirstLine("a") == "a";
    assert Trim("a") == "a";
  }

  /** Exactly when the edits carried out of one chunk are right for whatever the tools answer. */
  lemma EditsExactness(p: Parsers, calls: seq<ToolCall>)
    ensures (forall results :: Answers(results, calls) ==>
               RecentEdits(p, calls, results) == EditsOnePass(p, calls, results))
       <==> KeepsNotes(p, calls)
  {
    if KeepsNotes(p, calls) {
      forall results | Answers(results, calls)
        ensures RecentEdits(p, calls, results) == EditsOnePass(p, calls, results)
      {
        EditsByIdAreOnePass(p, calls, results);
      }
    } else {
      var i := LostNote(p, calls);
      var kept := Tail(DedupeLast(EditPaths(p, calls)), MAX_RECENT_EDITS);
      var k := LastEdit(p, calls, kept[i]);
      KeptIsEdited(p, calls, i);
      SpikeShowsLoss(p, calls, i);
      assert Answers(Spike(calls, k, "a"), calls);
    }
  }

  lemma LostNote(p: Parsers, calls: seq<ToolCall>) returns (i: nat)
    requires !KeepsNotes(p, calls)
    ensures
      var kept := Tail(DedupeLast(EditPaths(p, calls)), MAX_RECENT_EDITS);
      i < |kept| && LastFiled(PathById(p, calls), calls, kept[i]) != LastEdit(p, calls, kept[i])
  {
    var kept := Tail(DedupeLast(EditPaths(p, calls)), MAX_RECENT_EDITS);
    var j :| 0 <= j < |kept| && LastFiled(PathById(p, calls), calls, kept[j]) != LastEdit(p, calls, kept[j]);
    i := j;
  }

  lemma KeptIsEdited(p: Parsers, calls: seq<ToolCall>, i: nat)
    requires i < |Tail(DedupeLast(EditPaths(p, calls)), MAX_RECENT_EDITS)|
    ensures
      var path := Tail(DedupeLast(EditPaths(p, calls)), MAX_RECENT_EDITS)[i];
      var results := Spike(calls, 0, "");
      && LastEdit(p, calls, path) >= 0
      && i < |EditsOnePass(p, calls, results)| && EditsOnePass(p, calls, results)[i].name == path
  {
    var results := Spike(calls, 0, "");
    EditOrderOnePass(p, calls, results);
    assert Names(RecentEdits(p, calls, results))[i] == Names(EditsOnePass(p, calls, results))[i];
    OnePassNote(p, calls, results, i);
  }

  lemma SpikeShowsLoss(p: Parsers, calls: seq<ToolCall>, i: nat)
    requires i < |Tail(DedupeLast(EditPaths(p, calls)), MAX_RECENT_EDITS)|
    requires
      var path := Tail(DedupeLast(EditPaths(p, calls)), MAX_RECENT_EDITS)[i];
      LastEdit(p, calls, path) >= 0 && LastFiled(PathById(p, calls), calls, path) != LastEdit(p, calls, path)
    ensures
      var path := Tail(DedupeLast(EditPaths(p, calls)), MAX_RECENT_EDITS)[i];
      var results := Spike(calls, LastEdit(p, calls, path), "a");
      RecentEdits(p, calls, results) != EditsOnePass(p, calls, results)
  {
    hide EditNote, EditPath, DedupeLast, EditPaths, PathById, LastFiled, LastEdit, Tail;
    var path := Tail(DedupeLast(EditPaths(p, calls)), MAX_RECENT_EDITS)[i];
    var results := Spike(calls, LastEdit(p, calls, path), "a");
    EditNoteOfSpike();
    EditOrderOnePass(p, calls, results);
    assert Names(RecentEdits(p, calls, results))[i] == Names(EditsOnePass(p, calls, results))[i];
    OnePassNote(p, calls, results, i);
    FiledAgrees(PathById(p, calls), calls, results, path);
  }

  // ---- when ids are good enough ----

  predicate DistinctIds(calls: seq<ToolCall>) {
    forall i, j :: 0 <= i <= j < |calls| ==> calls[i].id != "" && (i < j ==> calls[i].id != calls[j].id)
  }

  lemma {:induction false} UncalledIsUnfiled(p: Parsers, calls: seq<ToolCall>, id: string)
    requires forall j :: 0 <= j < |calls| ==> calls[j].id != id
    ensures id !in PathById(p, calls)
    decreases |calls|
  {
    hide EditPath;
    if calls != [] {
      UncalledIsUnfiled(p, calls[..|calls| - 1], id);
    }
  }

  /** With ids that are present and never reused, an id is filed under the path of its call. */
  lemma {:induction false} FiledUnderOwnPath(p: Parsers, calls: seq<ToolCall>)
    requires DistinctIds(calls)
    ensures forall j :: 0 <= j < |calls| ==>
      (if calls[j].id in PathById(p, calls) then PathById(p, calls)[calls[j].id] else "") == EditPath(p, calls[j])
    decreases |calls|
  {
    hide EditPath;
    if calls != [] {
      var n := |calls| - 1;
      FiledUnderOwnPath(p, calls[..n]);
      UncalledIsUnfiled(p, calls[..n], calls[n].id);
      forall j | 0 <= j < n ensures calls[j].id != calls[n].id && calls[j] == calls[..n][j] {
      }
    }
  }

  lemma {:induction false} LastFiledIsLastEdit(p: Parsers, ids: map<string, string>, calls: seq<ToolCall>, path: string)
    requires path != ""
    requires forall j :: 0 <= j < |calls| ==>
      calls[j].id != "" && (if calls[j].id in ids then ids[calls[j].id] else "") == EditPath(p, calls[j])
    ensures LastFiled(ids, calls, path) == LastEdit(p, calls, path)
    decreases |calls|
  {
    if calls != [] {
      LastFiledIsLastEdit(p, ids, calls[..|calls| - 1], path);
    }
  }

  lemma {:induction false} DedupeMembers(paths: seq<string>)
    ensures forall q :: q in DedupeLast(paths) <==> q in paths
    decreases |paths|
  {
    if paths != [] {
      DedupeMembers(paths[1..]);
    }
  }

  /** Present, unrepeated ids keep every note. */
  lemma DistinctIdsKeepNotes(p: Parsers, calls: seq<ToolCall>)
    requires DistinctIds(calls)
    ensures KeepsNotes(p, calls)
  {
    FiledUnderOwnPath(p, calls);
    EditPathsNotEmpty(p, calls);
    DedupeMembers(EditPaths(p, calls));
    var kept := Tail(DedupeLast(EditPaths(p, calls)), MAX_RECENT_EDITS);
    forall i | 0 <= i < |kept|
      ensures LastFiled(PathById(p, calls), calls, kept[i]) == LastEdit(p, calls, kept[i])
    {
      assert kept[i] in DedupeLast(EditPaths(p, calls));
      LastFiledIsLastEdit(p, PathById(p, calls), calls, kept[i]);
    }
  }

  /** A provider that numbers its calls afresh in every turn repeats ids. Two such edits in one
      chunk: the note of the first is lost, whatever its tool answered. */
  lemma RepeatedIdLosesNote(p: Parsers, results: seq<Message>)
    requires p.editPath("a") == "a.go" && p.editPath("b") == "b.go"
    requires Answers(results, TwoTurns())
    ensures RecentEdits(p, TwoTurns(), results) == [Entry("a.go", ""), Entry("b.go", EditNote(results[1].content))]
    ensures EditsOnePass(p, TwoTurns(), results)
         == [Entry("a.go", EditNote(results[0].content)), Entry("b.go", EditNote(results[1].content))]
  {
    hide EditNote;
    TwoTurnCalls(p);
    TwoTurnTouches(p, results);
    NotesOfTwo(PathById(p, TwoTurns()), results[0], results[1]);
    assert results == [results[0], results[1]];
  }

  function TwoTurns(): seq<ToolCall> {
    [ToolCall("gemini_tool_0", EditFile, "a"), ToolCall("gemini_tool_0", EditFile, "b")]
  }

  lemma TwoTurnCalls(p: Parsers)
    requires p.editPath("a") == "a.go" && p.editPath("b") == "b.go"
    ensures DedupeLast(EditPaths(p, TwoTurns())) == ["a.go", "b.go"]
    ensures PathById(p, TwoTurns()) == map["gemini_tool_0" := "b.go"]
  {
    var first := [TwoTurns()[0]];
    EditCallSnoc(p, [], first[0]);
    EditCallSnoc(p, first, TwoTurns()[1]);
    assert [] + first == first && first + [TwoTurns()[1]] == TwoTurns();
    assert EditPaths(p, TwoTurns()) == ["a.go", "b.go"];
    assert DedupeLast(["b.go"]) == ["b.go"];
  }

  lemma TwoTurnTouches(p: Parsers, results: seq<Message>)
    requires p.editPath("a") == "a.go" && p.editPath("b") == "b.go"
    requires |results| == 2
    ensures LastTouch(Touches(p, TwoTurns(), results))
         == [Entry("a.go", EditNote(results[0].content)), Entry("b.go", EditNote(results[1].content))]
  {
    hide EditNote;
    var calls := TwoTurns();
    var a, b := Entry("a.go", EditNote(results[0].content)), Entry("b.go", EditNote(results[1].content));
    assert calls[..1][..0] == [] && results[..1][..0] == [];
    assert Touches(p, calls[..1], results[..1]) == [a];
    assert Touches(p, calls, results) == [a, b];
    LastTouchStep(a, [b]);
    LastTouchStep(b, []);
    assert [a] + [b] == [a, b] && [b] + [] == [b];
  }

  lemma NotesOfTwo(ids: map<string, string>, r: Message, s: Message)
    requires ids == map["gemini_tool_0" := "b.go"]
    requires r.toolCallId == s.toolCallId == "gemini_tool_0"
    ensures NoteOf(ids, [r, s], "a.go") == ""
    ensures NoteOf(ids, [r, s], "b.go") == EditNote(s.content)
  {
    hide EditNote;
    assert [r, s][..1] == [r] && [r][..0] == [];
    assert NoteIndex(ids, [r, s], "a.go") == -1;
    assert NoteIndex(ids, [r, s], "b.go") == 1;
  }

  // ---- loads ----

  function OwnKeys(l: Loader, calls: seq<ToolCall>): (r: seq<Option<string>>)
    ensures |r| == |calls|
  {
    seq(|calls|, i requires 0 <= i < |calls| => l.keyOf(calls[i]))
  }

  function FiledKeys(l: Loader, calls: seq<ToolCall>): (r: seq<Option<string>>)
    ensures |r| == |calls|
  {
    seq(|calls|, i requires 0 <= i < |calls| => Filed(KeyById(l, calls), calls[i].id))
  }

  /** Every call is filed, by its id, under its own key or not at all. */
  predicate KeepsKeys(l: Loader, calls: seq<ToolCall>) {
    FiledKeys(l, calls) == OwnKeys(l, calls)
  }

  function LoadsOnePass(l: Loader, calls: seq<ToolCall>, results: seq<Message>): seq<Entry>
    requires |calls| == |results|
  {
    FirstPlace(LogBy(l, OwnKeys(l, calls), results))
  }

  lemma FiledByCallId(l: Loader, calls: seq<ToolCall>, results: seq<Message>)
    requires Answers(results, calls)
    ensures FiledById(KeyById(l, calls), results) == FiledKeys(l, calls)
  {
  }

  lemma LoadsByIdAreOnePass(l: Loader, calls: seq<ToolCall>, results: seq<Message>)
    requires Answers(results, calls) && KeepsKeys(l, calls)
    ensures Loaded(l, calls, results) == LoadsOnePass(l, calls, results)
  {
    FiledByCallId(l, calls, results);
  }

  function SpikeLog(l: Loader, filed: Option<string>, content: string): seq<Entry> {
    if filed.Some? then l.emit(filed.value, content) else []
  }

  lemma {:induction false} LogOfSpike(l: Loader, filed: seq<Option<string>>, calls: seq<ToolCall>, k: nat,
                                      content: string, n: nat)
    requires |filed| == |calls| && k < |calls| && n <= |calls|
    requires forall i :: 0 <= i < |filed| && filed[i].Some? ==> l.emit(filed[i].value, "") == []
    ensures LogBy(l, filed[..n], Spike(calls, k, content)[..n])
         == if k < n then SpikeLog(l, filed[k], content) else []
    decreases n
  {
    if n > 0 {
      LogOfSpike(l, filed, calls, k, content, n - 1);
      assert filed[..n][..n - 1] == filed[..n - 1];
      assert Spike(calls, k, content)[..n][..n - 1] == Spike(calls, k, content)[..n - 1];
    }
  }

  /** Exactly when the skills carried out of one chunk are right for whatever the tools answer. */
  lemma SkillsExactness(p: Parsers, calls: seq<ToolCall>)
    ensures (forall results :: Answers(results, calls) ==>
               Loaded(SkillLoader(p), calls, results) == LoadsOnePass(SkillLoader(p), calls, results))
       <==> KeepsKeys(SkillLoader(p), calls)
  {
    hide LogBy, FirstPlace;
    var l := SkillLoader(p);
    if KeepsKeys(l, calls) {
      forall results | Answers(results, calls) ensures Loaded(l, calls, results) == LoadsOnePass(l, calls, results) {
        LoadsByIdAreOnePass(l, calls, results);
      }
    } else {
      var k :| 0 <= k < |calls| && FiledKeys(l, calls)[k] != OwnKeys(l, calls)[k];
      var mark := "a";
      var results := Spike(calls, k, mark);
      FiledByCallId(l, calls, results);
      SkillSpike(p, calls, k, FiledKeys(l, calls), mark);
      SkillSpike(p, calls, k, OwnKeys(l, calls), mark);
      DigestOfOne(FiledKeys(l, calls)[k], mark);
      DigestOfOne(OwnKeys(l, calls)[k], mark);
      assert Answers(results, calls);
    }
  }

  lemma DigestOfOne(filed: Option<string>, mark: string)
    ensures
      var log := if filed.Some? then [Entry(filed.value, mark)] else [];
      FirstPlace(log) == log
  {
    if filed.Some? {
      FirstPlaceStep([], Entry(filed.value, mark));
      assert [] + [Entry(filed.value, mark)] == [Entry(filed.value, mark)];
    }
  }

  /** A chunk in which only one answer says anything logs just that answer, under its key. */
  lemma SkillSpike(p: Parsers, calls: seq<ToolCall>, k: nat, filed: seq<Option<string>>, mark: string)
    requires |filed| == |calls| && k < |calls| && mark == "a"
    ensures
      LogBy(SkillLoader(p), filed, Spike(calls, k, mark))
      == if filed[k].Some? then [Entry(filed[k].value, mark)] else []
  {
    hide SkillEntries;
    var l, blank := SkillLoader(p), "";
    var results := Spike(calls, k, mark);
    forall i | 0 <= i < |filed| && filed[i].Some? ensures l.emit(filed[i].value, blank) == [] {
      SkillTells(filed[i].value, blank);
    }
    LogOfSpike(l, filed, calls, k, mark, |calls|);
    assert filed[..|calls|] == filed && results[..|calls|] == results;
    if filed[k].Some? {
      SkillTells(filed[k].value, mark);
    }
  }

  lemma SkillTells(name: string, content: string)
    requires content == "" || content == "a"
    ensures SkillEntries(name, content) == if content == "" then [] else [Entry(name, content)]
  {
    TrimUntouched(content);
    hide Utf8.CapBody, Trim;
  }

  lemma {:induction false} FiledUnderOwnKey(l: Loader, calls: seq<ToolCall>)
    requires DistinctIds(calls)
    ensures forall j :: 0 <= j < |calls| ==> Filed(KeyById(l, calls), calls[j].id) == l.keyOf(calls[j])
    ensures forall id :: id in KeyById(l, calls) ==> exists j :: 0 <= j < |calls| && calls[j].id == id
    decreases |calls|
  {
    if calls != [] {
      FiledUnderOwnKey(l, calls[..|calls| - 1]);
    }
  }

  lemma DistinctIdsKeepKeys(l: Loader, calls: seq<ToolCall>)
    requires DistinctIds(calls)
    ensures KeepsKeys(l, calls)
  {
    FiledUnderOwnKey(l, calls);
  }
}
