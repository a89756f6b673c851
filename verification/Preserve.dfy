/** State carried across compactions: what the elided messages said about the plan, the
    edited files, the loaded tools and skills, and the project instructions. */
module Preserve {
  import opened Basics
  import opened Transcript
  import opened LastSeen
  import Utf8

  const MAX_RECENT_EDITS := 20
  const MAX_EDIT_NOTE_BYTES := 160

  /** Argument, result and state parsing, whatever it answers. */
  datatype Parsers = Parsers(
    state: string -> Option<Carried>,
    plan: string -> string,
    editPath: string -> string,
    skillName: string -> string,
    toolSchemas: string -> seq<Entry>,
    instructions: string -> Entry)

  datatype Carried = Carried(
    plan: string, edits: seq<Entry>, tools: seq<Entry>, skills: seq<Entry>, instructions: seq<Entry>)

  const NOTHING := Carried("", [], [], [], [])

  // ---- the latest plan ----

  function LatestPlan(p: Parsers, calls: seq<ToolCall>): string {
    if calls == [] then ""
    else
      var last := calls[|calls| - 1];
      if last.name == UpdatePlan && p.plan(last.arguments) != "" then p.plan(last.arguments)
      else LatestPlan(p, calls[..|calls| - 1])
  }

  lemma {:induction false} LatestPlanConcat(p: Parsers, a: seq<ToolCall>, b: seq<ToolCall>)
    ensures LatestPlan(p, a + b) == if LatestPlan(p, b) != "" then LatestPlan(p, b) else LatestPlan(p, a)
    decreases |b|
  {
    if b == [] {
      assert a + b == a;
    } else {
      assert (a + b)[..|a + b| - 1] == a + b[..|b| - 1];
      LatestPlanConcat(p, a, b[..|b| - 1]);
    }
  }

  /** extractLatestPlan: newest message first, newest call first. */
  method ExtractLatestPlan(p: Parsers, messages: seq<Message>) returns (plan: string)
    ensures plan == LatestPlan(p, Calls(messages))
  {
    hide Calls;
    NoCalls();
    var i := |messages|;
    assert messages[..i] == messages;
    while i > 0
      invariant 0 <= i <= |messages|
      invariant LatestPlan(p, Calls(messages)) == LatestPlan(p, Calls(messages[..i]))
    {
      i := i - 1;
      var calls := messages[i].toolCalls;
      CallsSnoc(messages, i);
      ghost var before := Calls(messages[..i]);
      var j := |calls|;
      assert calls[..j] == calls;
      while j > 0
        invariant 0 <= j <= |calls|
        invariant LatestPlan(p, Calls(messages)) == LatestPlan(p, before + calls[..j])
      {
        j := j - 1;
        assert (before + calls[..j + 1])[..|before| + j] == before + calls[..j];
        if calls[j].name == UpdatePlan && p.plan(calls[j].arguments) != "" {
          return p.plan(calls[j].arguments);
        }
      }
      assert before + calls[..0] == before;
    }
    assert messages[..0] == [];
    return "";
  }

  lemma NoCalls()
    ensures Calls([]) == []
  {
  }

  lemma CallsSnoc(ms: seq<Message>, i: nat)
    requires i < |ms|
    ensures Calls(ms[..i + 1]) == Calls(ms[..i]) + ms[i].toolCalls
  {
    assert ms[..i + 1] == ms[..i] + [ms[i]];
    CallsConcat(ms[..i], [ms[i]]);
    assert Calls([ms[i]]) == ms[i].toolCalls + Calls([]);
  }

  lemma ToolResultsSnoc(ms: seq<Message>, i: nat)
    requires i < |ms|
    ensures ToolResults(ms[..i + 1])
         == if ms[i].role == Tool then ToolResults(ms[..i]) + [ms[i]] else ToolResults(ms[..i])
  {
    assert ms[..i + 1] == ms[..i] + [ms[i]];
    ToolResultsConcat(ms[..i], [ms[i]]);
    assert ToolResults([ms[i]]) == (if ms[i].role == Tool then [ms[i]] else []) + ToolResults([]);
  }

  // ---- recent edits ----

  function FirstLine(content: string): (r: string)
    ensures '\n' !in r && r <= content
  {
    if content == "" || content[0] == '\n' then "" else [content[0]] + FirstLine(content[1..])
  }

  lemma FirstLineEnds(content: string)
    ensures |FirstLine(content)| < |content| ==> content[|FirstLine(content)|] == '\n'
  {
  }

  /** editNote: the first line that is not blank, capped on a character boundary. */
  function EditNote(content: string): (r: string)
    ensures |r| <= MAX_EDIT_NOTE_BYTES + |Utf8.ELLIPSIS|
    decreases |content|
  {
    var line := FirstLine(content);
    var s := Trim(line);
    if s != "" then
      if |s| > MAX_EDIT_NOTE_BYTES then s[..Utf8.RuneBack(s, MAX_EDIT_NOTE_BYTES)] + Utf8.ELLIPSIS else s
    else if |line| < |content| then EditNote(content[|line| + 1..])
    else ""
  }

  function EditPath(p: Parsers, call: ToolCall): string {
    if call.name == WriteFile || call.name == EditFile then p.editPath(call.arguments) else ""
  }

  function EditPaths(p: Parsers, calls: seq<ToolCall>): seq<string> {
    if calls == [] then []
    else
      var last := calls[|calls| - 1];
      EditPaths(p, calls[..|calls| - 1]) + if EditPath(p, last) != "" then [EditPath(p, last)] else []
  }

  function PathById(p: Parsers, calls: seq<ToolCall>): map<string, string> {
    if calls == [] then map[]
    else
      var last := calls[|calls| - 1];
      var m := PathById(p, calls[..|calls| - 1]);
      if EditPath(p, last) != "" && last.id != "" then m[last.id := EditPath(p, last)] else m
  }

  /** The tool message whose note a path carries: the last one whose id maps to that path. */
  function NoteIndex(ids: map<string, string>, results: seq<Message>, path: string): (k: int)
    ensures -1 <= k < |results|
  {
    if results == [] then -1
    else
      var n := |results| - 1;
      var id := results[n].toolCallId;
      if id != "" && id in ids && ids[id] == path then n else NoteIndex(ids, results[..n], path)
  }

  function NoteOf(ids: map<string, string>, results: seq<Message>, path: string): string {
    var k := NoteIndex(ids, results, path);
    if k < 0 then "" else EditNote(results[k].content)
  }

  function DedupeLast(paths: seq<string>): seq<string> {
    if paths == [] then []
    else if paths[0] in paths[1..] then DedupeLast(paths[1..])
    else [paths[0]] + DedupeLast(paths[1..])
  }

  /** What recentEdits computes from the calls and the tool messages of a chunk. */
  function RecentEdits(p: Parsers, calls: seq<ToolCall>, results: seq<Message>): seq<Entry> {
    var order := Tail(DedupeLast(EditPaths(p, calls)), MAX_RECENT_EDITS);
    var ids := PathById(p, calls);
    seq(|order|, i requires 0 <= i < |order| => Entry(order[i], NoteOf(ids, results, order[i])))
  }

  /** lastSeenOrder, with its map of last positions. */
  method LastSeenOrder(paths: seq<string>) returns (order: seq<string>)
    ensures order == DedupeLast(paths)
  {
    var lastIdx: map<string, nat> := map[];
    for i := 0 to |paths|
      invariant forall q :: q in lastIdx <==> q in paths[..i]
      invariant forall q :: q in lastIdx ==> lastIdx[q] < i && paths[lastIdx[q]] == q
      invariant forall q, j :: q in lastIdx && lastIdx[q] < j < i ==> paths[j] != q
    {
      lastIdx := lastIdx[paths[i] := i];
    }
    order := [];
    assert paths[0..] == paths;
    for i := 0 to |paths|
      invariant order + DedupeLast(paths[i..]) == DedupeLast(paths)
    {
      var q := paths[i];
      assert paths[i..][1..] == paths[i + 1..] && q in paths[..|paths|];
      if lastIdx[q] == i {
        assert q !in paths[i + 1..];
        assert order + DedupeLast(paths[i..]) == order + [q] + DedupeLast(paths[i + 1..]);
        order := order + [q];
      } else {
        assert paths[i + 1..][lastIdx[q] - i - 1] == q;
      }
    }
  }

  lemma EditCallSnoc(p: Parsers, calls: seq<ToolCall>, c: ToolCall)
    ensures
      var path := EditPath(p, c);
      && EditPaths(p, calls + [c]) == EditPaths(p, calls) + (if path != "" then [path] else [])
      && PathById(p, calls + [c])
         == if path != "" && c.id != "" then PathById(p, calls)[c.id := path] else PathById(p, calls)
  {
    assert (calls + [c])[..|calls|] == calls;
  }

  /** The calls of one message, added to what the messages before it gave. */
  method AddEditCalls(p: Parsers, ghost before: seq<ToolCall>, calls: seq<ToolCall>,
                      ids: map<string, string>, paths: seq<string>)
    returns (pathById: map<string, string>, sequence: seq<string>)
    requires ids == PathById(p, before) && paths == EditPaths(p, before)
    ensures pathById == PathById(p, before + calls)
    ensures sequence == EditPaths(p, before + calls)
  {
    pathById, sequence := ids, paths;
    assert before + calls[..0] == before;
    for j := 0 to |calls|
      invariant pathById == PathById(p, before + calls[..j])
      invariant sequence == EditPaths(p, before + calls[..j])
    {
      assert before + calls[..j + 1] == (before + calls[..j]) + [calls[j]];
      EditCallSnoc(p, before + calls[..j], calls[j]);
      var path := EditPath(p, calls[j]);
      if path != "" {
        if calls[j].id != "" {
          pathById := pathById[calls[j].id := path];
        }
        sequence := sequence + [path];
      }
    }
    assert calls[..|calls|] == calls;
  }

  /** The first pass of recentEdits: the touched paths in order, and the path behind each id. */
  method CollectEditCalls(p: Parsers, messages: seq<Message>)
    returns (pathById: map<string, string>, sequence: seq<string>)
    ensures pathById == PathById(p, Calls(messages))
    ensures sequence == EditPaths(p, Calls(messages))
  {
    pathById, sequence := map[], [];
    for i := 0 to |messages|
      invariant pathById == PathById(p, Calls(messages[..i]))
      invariant sequence == EditPaths(p, Calls(messages[..i]))
    {
      pathById, sequence := AddEditCalls(p, Calls(messages[..i]), messages[i].toolCalls, pathById, sequence);
      CallsSnoc(messages, i);
    }
    assert messages[..|messages|] == messages;
  }

  predicate NotesUpTo(notes: map<string, string>, ids: map<string, string>, results: seq<Message>, path: string) {
    (if path in notes then notes[path] else "") == NoteOf(ids, results, path)
  }

  lemma NoteSnoc(ids: map<string, string>, results: seq<Message>, m: Message, path: string)
    ensures NoteOf(ids, results + [m], path)
         == if m.toolCallId != "" && m.toolCallId in ids && ids[m.toolCallId] == path
            then EditNote(m.content) else NoteOf(ids, results, path)
  {
    assert (results + [m])[..|results|] == results;
  }

  ghost predicate AllNotesUpTo(notes: map<string, string>, ids: map<string, string>, results: seq<Message>) {
    forall q :: NotesUpTo(notes, ids, results, q)
  }

  /** One tool message seen by the second pass. */
  method WithNote(notes: map<string, string>, ids: map<string, string>, ghost seen: seq<Message>, m: Message)
    returns (next: map<string, string>)
    requires AllNotesUpTo(notes, ids, seen)
    ensures AllNotesUpTo(next, ids, seen + [m])
  {
    next := notes;
    if m.toolCallId != "" && m.toolCallId in ids {
      next := next[ids[m.toolCallId] := EditNote(m.content)];
    }
    forall q: string ensures NotesUpTo(next, ids, seen + [m], q) {
      assert NotesUpTo(notes, ids, seen, q);
      NoteSnoc(ids, seen, m, q);
    }
  }

  /** The second pass: the note of the last tool message behind each path. */
  method CollectNotes(pathById: map<string, string>, messages: seq<Message>)
    returns (noteByPath: map<string, string>)
    ensures AllNotesUpTo(noteByPath, pathById, ToolResults(messages))
  {
    hide EditNote;
    noteByPath := map[];
    for i := 0 to |messages|
      invariant AllNotesUpTo(noteByPath, pathById, ToolResults(messages[..i]))
    {
      var m := messages[i];
      ToolResultsSnoc(messages, i);
      if m.role == Tool {
        noteByPath := WithNote(noteByPath, pathById, ToolResults(messages[..i]), m);
      }
    }
    assert messages[..|messages|] == messages;
  }

  /** recentEdits as the loops compute it. */
  method CollectRecentEdits(p: Parsers, messages: seq<Message>) returns (entries: seq<Entry>)
    ensures entries == RecentEdits(p, Calls(messages), ToolResults(messages))
  {
    hide EditNote, NoteIndex, DedupeLast, PathById, EditPaths, ToolResults, Calls;
    var pathById, sequence := CollectEditCalls(p, messages);
    var order := LastSeenOrder(sequence);
    if |order| == 0 {
      return [];
    }
    var noteByPath := CollectNotes(pathById, messages);
    if |order| > MAX_RECENT_EDITS {
      order := order[|order| - MAX_RECENT_EDITS..];
    }
    ghost var results := ToolResults(messages);
    entries := [];
    for i := 0 to |order|
      invariant |entries| == i
      invariant forall k :: 0 <= k < i ==> entries[k] == Entry(order[k], NoteOf(pathById, results, order[k]))
    {
      var path := order[i];
      assert NotesUpTo(noteByPath, pathById, results, path);
      entries := entries + [Entry(path, if path in noteByPath then noteByPath[path] else "")];
    }
  }

  // ---- loaded skills and tool schemas ----

  /** What a load is: the calls that load, with the key their answer is filed under, and the
      entries an answer yields. */
  datatype Loader = Loader(keyOf: ToolCall -> Option<string>, emit: (string, string) -> seq<Entry>)

  function SkillEntries(name: string, content: string): seq<Entry> {
    if Trim(content) == "" then [] else [Entry(name, Utf8.CapBody(Trim(content)))]
  }

  function SkillLoader(p: Parsers): Loader {
    Loader(
      (c: ToolCall) =>
        if c.name != Skill then None
        else Some(if p.skillName(c.arguments) == "" then "(unnamed)" else p.skillName(c.arguments)),
      (name, content) => SkillEntries(name, content))
  }

  function ToolLoader(p: Parsers): Loader {
    Loader(
      (c: ToolCall) => if c.name == ToolSearch then Some("") else None,
      (name, content) => p.toolSchemas(content))
  }

  function KeyById(l: Loader, calls: seq<ToolCall>): map<string, string> {
    if calls == [] then map[]
    else
      var last := calls[|calls| - 1];
      var m := KeyById(l, calls[..|calls| - 1]);
      if l.keyOf(last).Some? && last.id != "" then m[last.id := l.keyOf(last).value] else m
  }

  /** The key an answer is filed under when it is looked up by its id. */
  function Filed(keys: map<string, string>, id: string): Option<string> {
    if id != "" && id in keys then Some(keys[id]) else None
  }

  /** All entries the answers yield, oldest first, each answer filed as `filed` says. */
  function LogBy(l: Loader, filed: seq<Option<string>>, results: seq<Message>): seq<Entry>
    requires |filed| == |results|
  {
    if results == [] then []
    else
      var n := |results| - 1;
      LogBy(l, filed[..n], results[..n])
      + if filed[n].Some? then l.emit(filed[n].value, results[n].content) else []
  }

  function FiledById(keys: map<string, string>, results: seq<Message>): (r: seq<Option<string>>)
    ensures |r| == |results|
    ensures forall i :: 0 <= i < |r| ==> r[i] == Filed(keys, results[i].toolCallId)
  {
    seq(|results|, i requires 0 <= i < |results| => Filed(keys, results[i].toolCallId))
  }

  function Loaded(l: Loader, calls: seq<ToolCall>, results: seq<Message>): seq<Entry> {
    FirstPlace(LogBy(l, FiledById(KeyById(l, calls), results), results))
  }

  /** The order slice and the map together spell the digest of the log read so far. */
  ghost predicate Spells(order: seq<string>, bodies: map<string, string>, log: seq<Entry>) {
    && (forall q :: q in order <==> q in bodies)
    && |FirstPlace(log)| == |order|
    && forall i :: 0 <= i < |order| ==> order[i] in bodies && FirstPlace(log)[i] == Entry(order[i], bodies[order[i]])
  }

  lemma SpellsNames(order: seq<string>, bodies: map<string, string>, log: seq<Entry>)
    requires Spells(order, bodies, log)
    ensures forall n :: n in Names(log) <==> n in bodies
  {
    assert Names(FirstPlace(log)) == order;
  }

  method SpellOneMore(order: seq<string>, bodies: map<string, string>, e: Entry, ghost log: seq<Entry>)
    returns (order': seq<string>, bodies': map<string, string>)
    requires Spells(order, bodies, log)
    ensures Spells(order', bodies', log + [e])
  {
    SpellsNames(order, bodies, log);
    FirstPlaceStep(log, e);
    assert Names(FirstPlace(log)) == order;
    order' := order;
    if e.name !in bodies {
      order' := order + [e.name];
    }
    bodies' := bodies[e.name := e.body];
  }

  method SpellMore(order: seq<string>, bodies: map<string, string>, entries: seq<Entry>, ghost log: seq<Entry>)
    returns (order': seq<string>, bodies': map<string, string>)
    requires Spells(order, bodies, log)
    ensures Spells(order', bodies', log + entries)
  {
    order', bodies' := order, bodies;
    assert log + entries[..0] == log;
    for i := 0 to |entries|
      invariant Spells(order', bodies', log + entries[..i])
    {
      assert log + entries[..i + 1] == (log + entries[..i]) + [entries[i]];
      order', bodies' := SpellOneMore(order', bodies', entries[i], log + entries[..i]);
    }
    assert entries[..|entries|] == entries;
  }

  method SpellOut(order: seq<string>, bodies: map<string, string>, ghost log: seq<Entry>)
    returns (entries: seq<Entry>)
    requires Spells(order, bodies, log)
    ensures entries == FirstPlace(log)
  {
    hide FirstPlace;
    entries := [];
    for i := 0 to |order|
      invariant entries == FirstPlace(log)[..i]
    {
      entries := entries + [Entry(order[i], bodies[order[i]])];
    }
  }

  lemma KeySnoc(l: Loader, calls: seq<ToolCall>, c: ToolCall)
    ensures KeyById(l, calls + [c])
         == if l.keyOf(c).Some? && c.id != "" then KeyById(l, calls)[c.id := l.keyOf(c).value] else KeyById(l, calls)
  {
    assert (calls + [c])[..|calls|] == calls;
  }

  method AddKeys(l: Loader, ghost before: seq<ToolCall>, calls: seq<ToolCall>, keys: map<string, string>)
    returns (keys': map<string, string>)
    requires keys == KeyById(l, before)
    ensures keys' == KeyById(l, before + calls)
  {
    keys' := keys;
    assert before + calls[..0] == before;
    for j := 0 to |calls|
      invariant keys' == KeyById(l, before + calls[..j])
    {
      assert before + calls[..j + 1] == (before + calls[..j]) + [calls[j]];
      KeySnoc(l, before + calls[..j], calls[j]);
      if l.keyOf(calls[j]).Some? && calls[j].id != "" {
        keys' := keys'[calls[j].id := l.keyOf(calls[j]).value];
      }
    }
    assert calls[..|calls|] == calls;
  }

  lemma LogSnoc(l: Loader, keys: map<string, string>, results: seq<Message>, m: Message)
    ensures
      LogBy(l, FiledById(keys, results + [m]), results + [m])
      == LogBy(l, FiledById(keys, results), results)
         + if Filed(keys, m.toolCallId).Some? then l.emit(Filed(keys, m.toolCallId).value, m.content) else []
  {
    assert (results + [m])[..|results|] == results;
    assert FiledById(keys, results + [m])[..|results|] == FiledById(keys, results);
  }

  method KeysOf(l: Loader, messages: seq<Message>) returns (keys: map<string, string>)
    ensures keys == KeyById(l, Calls(messages))
  {
    keys := map[];
    for i := 0 to |messages|
      invariant keys == KeyById(l, Calls(messages[..i]))
    {
      keys := AddKeys(l, Calls(messages[..i]), messages[i].toolCalls, keys);
      CallsSnoc(messages, i);
    }
    assert messages[..|messages|] == messages;
  }

  /** loadedSkills and loadedToolSchemas: first-seen order, newest body, matched by id. */
  method CollectLoads(l: Loader, messages: seq<Message>) returns (entries: seq<Entry>)
    ensures entries == Loaded(l, Calls(messages), ToolResults(messages))
  {
    hide LogBy, FiledById, FirstPlace, KeyById, ToolResults, Calls;
    var keys := KeysOf(l, messages);
    var order: seq<string>, bodies: map<string, string> := [], map[];
    EmptyLog(l, keys);
    assert messages[..0] == [];
    for i := 0 to |messages|
      invariant Spells(order, bodies, LogBy(l, FiledById(keys, ToolResults(messages[..i])), ToolResults(messages[..i])))
    {
      var m := messages[i];
      ToolResultsSnoc(messages, i);
      if m.role == Tool {
        ghost var seen := ToolResults(messages[..i]);
        LogSnoc(l, keys, seen, m);
        if m.toolCallId != "" && m.toolCallId in keys {
          order, bodies := SpellMore(order, bodies, l.emit(keys[m.toolCallId], m.content), LogBy(l, FiledById(keys, seen), seen));
        } else {
          assert LogBy(l, FiledById(keys, seen), seen) + [] == LogBy(l, FiledById(keys, seen), seen);
        }
      }
    }
    assert messages[..|messages|] == messages;
    entries := SpellOut(order, bodies, LogBy(l, FiledById(keys, ToolResults(messages)), ToolResults(messages)));
  }

  lemma EmptyLog(l: Loader, keys: map<string, string>)
    ensures Spells([], map[], LogBy(l, FiledById(keys, ToolResults([])), ToolResults([])))
  {
  }

  // ---- project instructions ----

  function InstructionOf(p: Parsers, m: Message): seq<Entry> {
    if m.role == User && p.instructions(m.content).body != "" then [p.instructions(m.content)] else []
  }

  function InstructionLog(p: Parsers, ms: seq<Message>): seq<Entry> {
    if ms == [] then [] else InstructionOf(p, ms[0]) + InstructionLog(p, ms[1..])
  }

  lemma {:induction false} InstructionLogConcat(p: Parsers, a: seq<Message>, b: seq<Message>)
    ensures InstructionLog(p, a + b) == InstructionLog(p, a) + InstructionLog(p, b)
    decreases |a|
  {
    if a == [] {
      assert a + b == b;
    } else {
      assert (a + b)[1..] == a[1..] + b;
      InstructionLogConcat(p, a[1..], b);
      assert InstructionLog(p, a + b)
          == InstructionOf(p, a[0]) + (InstructionLog(p, a[1..]) + InstructionLog(p, b));
    }
  }

  lemma InstructionSnoc(p: Parsers, ms: seq<Message>, i: nat)
    requires i < |ms|
    ensures InstructionLog(p, ms[..i + 1]) == InstructionLog(p, ms[..i]) + InstructionOf(p, ms[i])
    ensures InstructionOf(p, ms[i]) == [] ==> InstructionLog(p, ms[..i + 1]) == InstructionLog(p, ms[..i])
  {
    assert ms[..i + 1] == ms[..i] + [ms[i]];
    InstructionLogConcat(p, ms[..i], [ms[i]]);
    assert InstructionLog(p, [ms[i]]) == InstructionOf(p, ms[i]) + InstructionLog(p, []);
  }

  method CollectInstructions(p: Parsers, messages: seq<Message>) returns (entries: seq<Entry>)
    ensures entries == FirstPlace(InstructionLog(p, messages))
  {
    hide FirstPlace;
    var order: seq<string>, bodies: map<string, string> := [], map[];
    SpellsEmpty();
    assert messages[..0] == [];
    for i := 0 to |messages|
      invariant Spells(order, bodies, InstructionLog(p, messages[..i]))
    {
      var m := messages[i];
      InstructionSnoc(p, messages, i);
      if m.role == User {
        var e := p.instructions(m.content);
        if e.body != "" {
          order, bodies := SpellOneMore(order, bodies, e, InstructionLog(p, messages[..i]));
        }
      }
    }
    assert messages[..|messages|] == messages;
    entries := SpellOut(order, bodies, InstructionLog(p, messages));
  }

  lemma SpellsEmpty()
    ensures Spells([], map[], [])
  {
  }
}
