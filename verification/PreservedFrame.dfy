/** The labelled preserved-state block inside a summary: written after the prose, found again
    by the last occurrence of its label. */
module PreservedFrame {
  import opened Basics
  import opened Transcript
  import opened LastSeen
  import opened Preserve
  import opened Json
  import opened Utf8

  // preservedStateLabel, phrase by phrase.
  const HEADING: string := " Preserved state ("
  const SUBJECT: string := "active plan + loaded skills; "
  const ORIGIN: string := "carried across compaction)"
  const LABEL: string := "##" + (HEADING + (SUBJECT + ORIGIN))

  /** A label that cannot overlap itself: two hashes, then none. */
  predicate IsLabel(mark: string) {
    |mark| >= 3 && mark[0] == '#' && mark[1] == '#' && '#' !in mark[2..]
  }

  lemma LabelIsLabel()
    ensures IsLabel(LABEL)
  {
    var title := HEADING + (SUBJECT + ORIGIN);
    assert '#' !in HEADING && '#' !in SUBJECT && '#' !in ORIGIN;
    assert ("##" + title)[2..] == title;
  }

  // ---- searching ----

  predicate At(s: string, sub: string, i: nat) {
    i + |sub| <= |s| && s[i..i + |sub|] == sub
  }

  predicate Contains(s: string, sub: string) {
    exists i {:trigger At(s, sub, i)} :: 0 <= i <= |s| && At(s, sub, i)
  }

  function LastIndexFrom(s: string, sub: string, i: nat): (r: int)
    ensures r == -1 || (0 <= r <= i && At(s, sub, r))
    ensures forall j: nat :: j <= i && At(s, sub, j) ==> j <= r
  {
    if At(s, sub, i) then i else if i == 0 then -1 else LastIndexFrom(s, sub, i - 1)
  }

  /** strings.LastIndex. */
  function LastIndex(s: string, sub: string): (r: int)
    ensures r == -1 || (0 <= r <= |s| && At(s, sub, r))
    ensures forall j: nat :: At(s, sub, j) ==> j <= r
  {
    LastIndexFrom(s, sub, |s|)
  }

  function UpToNewline(s: string): (r: string)
    ensures |r| <= |s| && r == s[..|r|]
  {
    if s == "" || s[0] == '\n' then "" else [s[0]] + UpToNewline(s[1..])
  }

  lemma {:induction false} OneLineWhole(s: string)
    requires OneLine(s)
    ensures UpToNewline(s) == s
    decreases |s|
  {
    if s != "" {
      OneLineWhole(s[1..]);
    }
  }

  // ---- the state as a document ----

  predicate AllNamed(es: seq<Entry>) {
    forall i :: 0 <= i < |es| ==> es[i].name != ""
  }

  predicate HasNames(s: Carried) {
    AllNamed(s.edits) && AllNamed(s.tools) && AllNamed(s.skills) && AllNamed(s.instructions)
  }

  const KEY_PLAN: string := "plan"
  const KEY_EDITS: string := "recent_edits"
  const KEY_TOOLS: string := "tools"
  const KEY_SKILLS: string := "skills"
  const KEY_INSTRUCTIONS: string := "project_instructions"
  const KEY_PATH: string := "path"
  const KEY_NOTE: string := "note"
  const KEY_NAME: string := "name"
  const KEY_BODY: string := "body"
  const KEY_SOURCE: string := "source"

  lemma FieldKeysDiffer()
    ensures KEY_PLAN != KEY_EDITS && KEY_PLAN != KEY_TOOLS && KEY_PLAN != KEY_SKILLS && KEY_PLAN != KEY_INSTRUCTIONS
    ensures KEY_EDITS != KEY_TOOLS && KEY_EDITS != KEY_SKILLS && KEY_EDITS != KEY_INSTRUCTIONS
    ensures KEY_TOOLS != KEY_SKILLS && KEY_TOOLS != KEY_INSTRUCTIONS && KEY_SKILLS != KEY_INSTRUCTIONS
  {
    assert |KEY_PLAN| == 4 && |KEY_EDITS| == 12 && |KEY_TOOLS| == 5 && |KEY_SKILLS| == 6 && |KEY_INSTRUCTIONS| == 20;
  }

  /** A row of two members, the second left out when it may be and is empty. */
  function ToRow(k1: string, k2: string, omitEmpty: bool, e: Entry): seq<Pair> {
    if omitEmpty && e.body == "" then [Pair(k1, e.name)] else [Pair(k1, e.name), Pair(k2, e.body)]
  }

  function ToRows(k1: string, k2: string, omitEmpty: bool, es: seq<Entry>): (r: seq<seq<Pair>>)
    ensures |r| == |es|
  {
    seq(|es|, i requires 0 <= i < |es| => ToRow(k1, k2, omitEmpty, es[i]))
  }

  function ListField(key: string, k1: string, k2: string, omitEmpty: bool, es: seq<Entry>): seq<Field> {
    if es == [] then [] else [Field(key, Rows(ToRows(k1, k2, omitEmpty, es)))]
  }

  function ToDocument(s: Carried): seq<Field> {
    (if s.plan == "" then [] else [Field(KEY_PLAN, Text(s.plan))])
    + (ListField(KEY_EDITS, KEY_PATH, KEY_NOTE, true, s.edits)
    + (ListField(KEY_TOOLS, KEY_NAME, KEY_BODY, false, s.tools)
    + (ListField(KEY_SKILLS, KEY_NAME, KEY_BODY, false, s.skills)
    + ListField(KEY_INSTRUCTIONS, KEY_SOURCE, KEY_BODY, false, s.instructions))))
  }

  function FromRow(k1: string, row: seq<Pair>): Entry {
    Entry(if |row| > 0 && row[0].key == k1 then row[0].text else "", if |row| > 1 then row[1].text else "")
  }

  function FromRows(k1: string, v: Value): seq<Entry> {
    if v.Rows? then seq(|v.rows|, i requires 0 <= i < |v.rows| => FromRow(k1, v.rows[i])) else []
  }

  function TakeField(f: Field, s: Carried): Carried {
    if f.key == KEY_PLAN then s.(plan := if f.value.Text? then f.value.text else "")
    else if f.key == KEY_EDITS then s.(edits := FromRows(KEY_PATH, f.value))
    else if f.key == KEY_TOOLS then s.(tools := FromRows(KEY_NAME, f.value))
    else if f.key == KEY_SKILLS then s.(skills := FromRows(KEY_NAME, f.value))
    else if f.key == KEY_INSTRUCTIONS then s.(instructions := FromRows(KEY_SOURCE, f.value))
    else s
  }

  function FromDocument(fs: seq<Field>, s: Carried): Carried {
    if fs == [] then s else FromDocument(fs[1..], TakeField(fs[0], s))
  }

  function Encode(s: Carried): string {
    PutDocument(ToDocument(s), "")
  }

  // ---- the reader ----

  predicate EntriesValid(es: seq<Entry>) {
    forall i :: 0 <= i < |es| ==> ValidUtf8(es[i].name) && ValidUtf8(es[i].body)
  }

  predicate ValidState(s: Carried) {
    && ValidUtf8(s.plan)
    && EntriesValid(s.edits) && EntriesValid(s.tools) && EntriesValid(s.skills) && EntriesValid(s.instructions)
  }

  /** What a JSON reader that drops entries without names makes of the encoder's texts: a state comes
      back exactly if its texts are UTF-8, and the tail of a text is not taken for the whole. What it
      makes of any other text is left open. */
  ghost predicate Reads(read: string -> Option<Carried>) {
    && (forall s {:trigger Encode(s)} :: HasNames(s) ==> (read(Encode(s)) == Some(s) <==> ValidState(s)))
    && (forall s, i {:trigger Encode(s)[i..]} ::
          HasNames(s) && 0 < i <= |Encode(s)| ==> read(Encode(s)[i..]) != Some(s))
  }

  /** One such reader: it accepts what the encoder writes and nothing else. */
  function Decode(t: string): Option<Carried> {
    match ReadDocument(t)
    case None => None
    case Some((fs, rest)) =>
      var s := FromDocument(fs, NOTHING);
      if rest == "" && HasNames(s) && Encode(s) == t then Some(s) else None
  }

  lemma RowsBackToEntries(k1: string, k2: string, omitEmpty: bool, es: seq<Entry>)
    ensures FromRows(k1, Rows(ToRows(k1, k2, omitEmpty, es))) == es
  {
    forall i | 0 <= i < |es| ensures FromRow(k1, ToRow(k1, k2, omitEmpty, es[i])) == es[i] {
    }
  }

  lemma TakeOptional(f: seq<Field>, rest: seq<Field>, s: Carried)
    requires |f| <= 1
    ensures FromDocument(f + rest, s) == FromDocument(rest, if f == [] then s else TakeField(f[0], s))
  {
    if f == [] {
      assert f + rest == rest;
    } else {
      assert (f + rest)[1..] == rest;
    }
  }

  lemma TakePlan(s: Carried, plan: string)
    requires s.plan == ""
    ensures var f := if plan == "" then [] else [Field(KEY_PLAN, Text(plan))];
      (if f == [] then s else TakeField(f[0], s)) == s.(plan := plan)
  {
  }

  /** A list field read back, under each of the four keys. */
  lemma TakeList(s: Carried, es: seq<Entry>)
    ensures var f := ListField(KEY_EDITS, KEY_PATH, KEY_NOTE, true, es);
      s.edits == [] ==> (if f == [] then s else TakeField(f[0], s)) == s.(edits := es)
    ensures var f := ListField(KEY_TOOLS, KEY_NAME, KEY_BODY, false, es);
      s.tools == [] ==> (if f == [] then s else TakeField(f[0], s)) == s.(tools := es)
    ensures var f := ListField(KEY_SKILLS, KEY_NAME, KEY_BODY, false, es);
      s.skills == [] ==> (if f == [] then s else TakeField(f[0], s)) == s.(skills := es)
    ensures var f := ListField(KEY_INSTRUCTIONS, KEY_SOURCE, KEY_BODY, false, es);
      s.instructions == [] ==> (if f == [] then s else TakeField(f[0], s)) == s.(instructions := es)
  {
    FieldKeysDiffer();
    RowsBackToEntries(KEY_PATH, KEY_NOTE, true, es);
    RowsBackToEntries(KEY_NAME, KEY_BODY, false, es);
    RowsBackToEntries(KEY_SOURCE, KEY_BODY, false, es);
    hide FromRows, ToRows;
  }

  lemma DocumentBackToState(s: Carried)
    ensures FromDocument(ToDocument(s), NOTHING) == s
  {
    hide TakeField, ListField;
    var f1 := if s.plan == "" then [] else [Field(KEY_PLAN, Text(s.plan))];
    var f2 := ListField(KEY_EDITS, KEY_PATH, KEY_NOTE, true, s.edits);
    var f3 := ListField(KEY_TOOLS, KEY_NAME, KEY_BODY, false, s.tools);
    var f4 := ListField(KEY_SKILLS, KEY_NAME, KEY_BODY, false, s.skills);
    var f5 := ListField(KEY_INSTRUCTIONS, KEY_SOURCE, KEY_BODY, false, s.instructions);
    var s1 := NOTHING.(plan := s.plan);
    var s2 := s1.(edits := s.edits);
    var s3 := s2.(tools := s.tools);
    var s4 := s3.(skills := s.skills);
    AtMostOneField(s);
    TakeOptional(f1, f2 + (f3 + (f4 + f5)), NOTHING);
    TakePlan(NOTHING, s.plan);
    TakeOptional(f2, f3 + (f4 + f5), s1);
    TakeList(s1, s.edits);
    TakeOptional(f3, f4 + f5, s2);
    TakeList(s2, s.tools);
    TakeOptional(f4, f5, s3);
    TakeList(s3, s.skills);
    TakeOptional(f5, [], s4);
    TakeList(s4, s.instructions);
    assert f5 + [] == f5;
  }

  lemma AtMostOneField(s: Carried)
    ensures |ListField(KEY_EDITS, KEY_PATH, KEY_NOTE, true, s.edits)| <= 1
    ensures |ListField(KEY_TOOLS, KEY_NAME, KEY_BODY, false, s.tools)| <= 1
    ensures |ListField(KEY_SKILLS, KEY_NAME, KEY_BODY, false, s.skills)| <= 1
    ensures |ListField(KEY_INSTRUCTIONS, KEY_SOURCE, KEY_BODY, false, s.instructions)| <= 1
  {
    hide ToRows;
  }

  function CleanEntries(es: seq<Entry>): (r: seq<Entry>)
    ensures |r| == |es|
  {
    seq(|es|, i requires 0 <= i < |es| => Entry(Clean(es[i].name), Clean(es[i].body)))
  }

  function CleanState(s: Carried): Carried {
    Carried(Clean(s.plan), CleanEntries(s.edits), CleanEntries(s.tools), CleanEntries(s.skills),
            CleanEntries(s.instructions))
  }

  lemma CleanEntriesIff(es: seq<Entry>)
    ensures CleanEntries(es) == es <==> EntriesValid(es)
    ensures AllNamed(es) ==> AllNamed(CleanEntries(es))
  {
    hide Clean, ValidUtf8;
    forall i | 0 <= i < |es|
      ensures CleanEntries(es)[i] == es[i] <==> ValidUtf8(es[i].name) && ValidUtf8(es[i].body)
      ensures es[i].name != "" ==> Clean(es[i].name) != ""
    {
      CleanIffValid(es[i].name);
      CleanIffValid(es[i].body);
    }
    if CleanEntries(es) == es {
      forall i | 0 <= i < |es| ensures ValidUtf8(es[i].name) && ValidUtf8(es[i].body) {
        assert CleanEntries(es)[i] == es[i];
      }
    }
  }

  lemma CleanStateIff(s: Carried)
    ensures CleanState(s) == s <==> ValidState(s)
    ensures HasNames(s) ==> HasNames(CleanState(s))
  {
    hide Clean, ValidUtf8, CleanEntries, EntriesValid, AllNamed;
    CleanIffValid(s.plan);
    CleanEntriesIff(s.edits);
    CleanEntriesIff(s.tools);
    CleanEntriesIff(s.skills);
    CleanEntriesIff(s.instructions);
  }

  lemma AsciiClean(k: string)
    requires forall i :: 0 <= i < |k| ==> k[i] <= '\U{7F}'
    ensures Clean(k) == k
  {
    AsciiValid(k);
    CleanIffValid(k);
  }

  lemma EmptyClean(s: string)
    ensures Clean(s) == "" <==> s == ""
  {
    CleanIffValid(s);
  }

  lemma ListFieldClean(key: string, k1: string, k2: string, omitEmpty: bool, es: seq<Entry>)
    requires Clean(key) == key && Clean(k1) == k1 && Clean(k2) == k2
    ensures CleanFields(ListField(key, k1, k2, omitEmpty, es)) == ListField(key, k1, k2, omitEmpty, CleanEntries(es))
  {
    hide Clean;
    var rows, cleaned := ToRows(k1, k2, omitEmpty, es), ToRows(k1, k2, omitEmpty, CleanEntries(es));
    forall i | 0 <= i < |es| ensures CleanRow(rows[i]) == cleaned[i] {
      EmptyClean(es[i].body);
    }
    assert CleanRows(rows) == cleaned;
  }

  lemma CleanFieldsConcat(a: seq<Field>, b: seq<Field>)
    ensures CleanFields(a + b) == CleanFields(a) + CleanFields(b)
  {
    hide CleanField;
  }

  lemma PlanFieldClean(plan: string)
    requires Clean(KEY_PLAN) == KEY_PLAN
    ensures CleanFields(if plan == "" then [] else [Field(KEY_PLAN, Text(plan))])
         == if Clean(plan) == "" then [] else [Field(KEY_PLAN, Text(Clean(plan)))]
  {
    hide Clean;
    EmptyClean(plan);
  }

  lemma KeysClean()
    ensures Clean(KEY_PLAN) == KEY_PLAN && Clean(KEY_EDITS) == KEY_EDITS && Clean(KEY_TOOLS) == KEY_TOOLS
    ensures Clean(KEY_SKILLS) == KEY_SKILLS && Clean(KEY_INSTRUCTIONS) == KEY_INSTRUCTIONS
    ensures Clean(KEY_PATH) == KEY_PATH && Clean(KEY_NOTE) == KEY_NOTE && Clean(KEY_NAME) == KEY_NAME
    ensures Clean(KEY_BODY) == KEY_BODY && Clean(KEY_SOURCE) == KEY_SOURCE
  {
    hide Clean;
    AsciiClean(KEY_PLAN);
    AsciiClean(KEY_EDITS);
    AsciiClean(KEY_TOOLS);
    AsciiClean(KEY_SKILLS);
    AsciiClean(KEY_INSTRUCTIONS);
    AsciiClean(KEY_PATH);
    AsciiClean(KEY_NOTE);
    AsciiClean(KEY_NAME);
    AsciiClean(KEY_BODY);
    AsciiClean(KEY_SOURCE);
  }

  lemma DocumentClean(s: Carried)
    ensures CleanFields(ToDocument(s)) == ToDocument(CleanState(s))
  {
    KeysClean();
    hide Clean, ListField, CleanEntries;
    var f1 := if s.plan == "" then [] else [Field(KEY_PLAN, Text(s.plan))];
    var f2 := ListField(KEY_EDITS, KEY_PATH, KEY_NOTE, true, s.edits);
    var f3 := ListField(KEY_TOOLS, KEY_NAME, KEY_BODY, false, s.tools);
    var f4 := ListField(KEY_SKILLS, KEY_NAME, KEY_BODY, false, s.skills);
    var f5 := ListField(KEY_INSTRUCTIONS, KEY_SOURCE, KEY_BODY, false, s.instructions);
    PlanFieldClean(s.plan);
    ListFieldClean(KEY_EDITS, KEY_PATH, KEY_NOTE, true, s.edits);
    ListFieldClean(KEY_TOOLS, KEY_NAME, KEY_BODY, false, s.tools);
    ListFieldClean(KEY_SKILLS, KEY_NAME, KEY_BODY, false, s.skills);
    ListFieldClean(KEY_INSTRUCTIONS, KEY_SOURCE, KEY_BODY, false, s.instructions);
    hide CleanFields;
    CleanFieldsConcat(f1, f2 + (f3 + (f4 + f5)));
    CleanFieldsConcat(f2, f3 + (f4 + f5));
    CleanFieldsConcat(f3, f4 + f5);
    CleanFieldsConcat(f4, f5);
  }

  /** A state survives being encoded and read exactly if its texts are UTF-8. */
  lemma DecodeEncodeIff(s: Carried)
    requires HasNames(s)
    ensures Decode(Encode(s)) == Some(s) <==> ValidState(s)
  {
    DocumentBack(ToDocument(s), "");
    DocumentClean(s);
    DocumentBackToState(CleanState(s));
    CleanStateIff(s);
    hide ReadDocument, ToDocument, PutDocument, FromDocument, CleanState, ValidState, HasNames;
  }

  /** The strict reader is one of the readers everything below is about. */
  lemma DecodeReads()
    ensures Reads(Decode)
  {
    forall s | HasNames(s) ensures Decode(Encode(s)) == Some(s) <==> ValidState(s) {
      DecodeEncodeIff(s);
    }
  }

  // ---- the frame ----

  /** formatPreservedState followed by the append of appendPreservedState. */
  function AppendBlock(mark: string, summary: string, s: Carried): string {
    if s == NOTHING then summary else summary + "\n\n" + (mark + ("\n" + Encode(s)))
  }

  /** What follows the label, down to the line the state stands on. */
  function StateLine(rest: string): string {
    Trim(UpToNewline(if rest != "" && rest[0] == '\n' then rest[1..] else rest))
  }

  /** What stands behind the last label. */
  function BehindLast(mark: string, content: string): string
    requires LastIndex(content, mark) >= 0
  {
    StateLine(content[LastIndex(content, mark) + |mark|..])
  }

  /** parsePreservedStateBlock. */
  function ParseBlock(read: string -> Option<Carried>, mark: string, content: string): Carried {
    if LastIndex(content, mark) < 0 then NOTHING
    else
      var line := BehindLast(mark, content);
      match if line == "" then None else read(line)
      case None => NOTHING
      case Some(s) => s
  }

  /** Behind the label itself, the label can only start inside the encoded state. */
  lemma NoLaterLabel(mark: string, prose: string, body: string, j: nat)
    requires IsLabel(mark)
    requires At(prose + (mark + ("\n" + body)), mark, j) && j > |prose|
    ensures j > |prose| + |mark| && At(body, mark, j - |prose| - |mark| - 1)
  {
    var text := prose + (mark + ("\n" + body));
    var d := j - |prose|;
    assert text[j] == '#' && text[j + 1] == '#' && text[j + 2] == mark[2] == mark[2..][0];
    assert forall i :: 2 <= i < |mark| ==> mark[i] == mark[2..][i - 2];
    if d <= |mark| {
      assert false;
    } else {
      var i := d - |mark| - 1;
      assert body[i..i + |mark|] == text[j..j + |mark|];
    }
  }

  lemma LabelStandsThere(mark: string, prose: string, body: string)
    ensures At(prose + (mark + ("\n" + body)), mark, |prose|)
  {
  }

  lemma EncodedLine(s: Carried)
    ensures StateLine("\n" + Encode(s)) == Encode(s) != ""
  {
    hide StateLine, ToDocument;
    DocumentShape(ToDocument(s));
    LineAlone(Encode(s));
  }

  lemma LineAlone(t: string)
    requires t != "" && OneLine(t) && !IsSpace(t[0]) && !IsSpace(t[|t| - 1])
    ensures StateLine("\n" + t) == t
  {
    hide Trim, UpToNewline;
    OneLineWhole(t);
    TrimUntouched(t);
    assert ("\n" + t)[1..] == t;
  }

  lemma RightUntouched(s: string)
    requires s == "" || !IsSpace(s[|s| - 1])
    ensures TrimRight(s) == s
  {
  }

  /** The line that starts inside an encoded state is a tail of it. */
  lemma TailLine(t: string, from: nat)
    requires OneLine(t) && t != "" && !IsSpace(t[|t| - 1]) && from <= |t|
    ensures exists i :: from <= i <= |t| && StateLine(t[from..]) == t[i..]
  {
    hide UpToNewline, TrimRight, TrimLeft;
    var rest := t[from..];
    assert OneLine(rest);
    OneLineWhole(rest);
    assert rest != "" ==> rest[0] != '\n';
    var left := TrimLeft(rest);
    assert left == t[|t| - |left|..];
    assert left != "" ==> left[|left| - 1] == t[|t| - 1];
    RightUntouched(left);
    assert StateLine(rest) == t[|t| - |left|..];
  }

  /** What is parsed, once it is known what stands behind the last label. */
  lemma ParsedLine(read: string -> Option<Carried>, mark: string, text: string, rest: string, line: string)
    requires LastIndex(text, mark) >= 0 && text[LastIndex(text, mark) + |mark|..] == rest && StateLine(rest) == line
    ensures ParseBlock(read, mark, text)
      == if line == "" || read(line).None? then NOTHING else read(line).value
  {
    hide LastIndex, StateLine;
  }

  /** If the encoded state does not spell the label, the state comes back; whatever the prose says. */
  lemma StateComesBack(read: string -> Option<Carried>, mark: string, prose: string, s: Carried)
    requires Reads(read) && IsLabel(mark)
    requires HasNames(s) && s != NOTHING && ValidState(s) && !Contains(Encode(s), mark)
    ensures ParseBlock(read, mark, AppendBlock(mark, prose, s)) == s
  {
    hide Encode, StateLine, HasNames, ValidState;
    BlockIsLast(mark, prose, s);
    EncodedLine(s);
    ParsedLine(read, mark, AppendBlock(mark, prose, s), "\n" + Encode(s), Encode(s));
    hide ParseBlock, AppendBlock, Contains, IsLabel;
  }

  lemma BlockIsLast(mark: string, prose: string, s: Carried)
    requires IsLabel(mark) && s != NOTHING && !Contains(Encode(s), mark)
    ensures var text := AppendBlock(mark, prose, s);
      LastIndex(text, mark) >= 0 && text[LastIndex(text, mark) + |mark|..] == "\n" + Encode(s)
  {
    hide Encode;
    var body, head := Encode(s), prose + "\n\n";
    var text := AppendBlock(mark, prose, s);
    LabelStandsThere(mark, head, body);
    var idx := LastIndex(text, mark);
    if idx > |head| {
      NoLaterLabel(mark, head, body, idx);
    }
  }

  /** The last label then stands inside the encoded state, and what follows it is a tail of that. */
  lemma TailBehindLast(mark: string, head: string, body: string)
    requires mark != "" && Contains(body, mark)
    ensures
      var text := head + (mark + ("\n" + body));
      && LastIndex(text, mark) >= 0
      && exists from :: 0 < from <= |body| && text[LastIndex(text, mark) + |mark|..] == body[from..]
  {
    var text := head + (mark + ("\n" + body));
    var i :| 0 <= i <= |body| && At(body, mark, i);
    LabelInside(mark, head, body, i);
    var from := LastIndex(text, mark) - |head| - 1;
    assert text == (head + mark + "\n") + body;
    assert text[LastIndex(text, mark) + |mark|..] == body[from..];
  }

  lemma TailReadsOther(read: string -> Option<Carried>, s: Carried, i: nat)
    requires Reads(read) && HasNames(s) && 0 < i <= |Encode(s)|
    ensures read(Encode(s)[i..]) != Some(s)
  {
    hide Encode, HasNames, ValidState;
  }

  /** If it does spell the label, the block is cut at the wrong place and the state is lost. */
  lemma StateIsLost(read: string -> Option<Carried>, mark: string, prose: string, s: Carried)
    requires Reads(read) && IsLabel(mark)
    requires HasNames(s) && s != NOTHING && Contains(Encode(s), mark)
    ensures ParseBlock(read, mark, AppendBlock(mark, prose, s)) != s
  {
    hide Encode, StateLine, HasNames, Contains, LastIndex, Reads;
    var body, text := Encode(s), AppendBlock(mark, prose, s);
    TailBehindLast(mark, prose + "\n\n", body);
    var from :| 0 < from <= |body| && text[LastIndex(text, mark) + |mark|..] == body[from..];
    EncodedShape(s);
    TailLine(body, from);
    var i :| from <= i <= |body| && StateLine(body[from..]) == body[i..];
    ParsedLine(read, mark, text, body[from..], body[i..]);
    hide ParseBlock, AppendBlock;
    TailReadsOther(read, s, i);
  }

  lemma EncodedShape(s: Carried)
    ensures OneLine(Encode(s)) && Encode(s) != "" && !IsSpace(Encode(s)[|Encode(s)| - 1])
  {
    hide ToDocument;
    DocumentShape(ToDocument(s));
  }

  lemma LabelInside(mark: string, head: string, body: string, i: nat)
    requires At(body, mark, i)
    ensures At(head + (mark + ("\n" + body)), mark, |head| + |mark| + 1 + i)
  {
    var text := head + (mark + ("\n" + body));
    var j := |head| + |mark| + 1;
    assert text[j..] == body;
    assert text[j + i..j + i + |mark|] == body[i..i + |mark|];
  }

  /** Exactly when the block survives being written and found again. */
  lemma FrameRoundTrip(read: string -> Option<Carried>, prose: string, s: Carried)
    requires Reads(read) && HasNames(s) && s != NOTHING
    ensures ParseBlock(read, LABEL, AppendBlock(LABEL, prose, s)) == s
      <==> ValidState(s) && !Contains(Encode(s), LABEL)
  {
    hide Encode, HasNames, ValidState, StateLine;
    LabelIsLabel();
    if Contains(Encode(s), LABEL) {
      StateIsLost(read, LABEL, prose, s);
    } else {
      BlockIsLast(LABEL, prose, s);
      EncodedLine(s);
      ParsedLine(read, LABEL, AppendBlock(LABEL, prose, s), "\n" + Encode(s), Encode(s));
    }
  }

  // ---- with nothing to carry ----

  /** The line behind the last label in the prose is read as a state, and not as an empty one. */
  predicate ReadsAsState(read: string -> Option<Carried>, mark: string, prose: string) {
    && LastIndex(prose, mark) >= 0
    && var line := BehindLast(mark, prose);
       line != "" && read(line).Some? && read(line).value != NOTHING
  }

  /** With nothing to carry nothing is appended, and something comes back exactly if the prose itself
      ends in a block that reads as a state. */
  lemma NothingComesBackIff(read: string -> Option<Carried>, mark: string, prose: string)
    ensures ParseBlock(read, mark, AppendBlock(mark, prose, NOTHING)) == NOTHING <==> !ReadsAsState(read, mark, prose)
  {
    hide StateLine;
  }

  /** To the reader of the encoder's texts that is: behind the last label in the prose stands what the
      encoder writes for some state with names and in UTF-8. A label without such a line is harmless. */
  lemma NothingComesBackToDecodeIff(mark: string, prose: string)
    ensures ParseBlock(Decode, mark, AppendBlock(mark, prose, NOTHING)) == NOTHING <==>
      !(LastIndex(prose, mark) >= 0
        && exists s :: HasNames(s) && ValidState(s) && s != NOTHING && BehindLast(mark, prose) == Encode(s))
  {
    hide StateLine, HasNames, ValidState, Encode;
    NothingComesBackIff(Decode, mark, prose);
    if LastIndex(prose, mark) >= 0 {
      var line := BehindLast(mark, prose);
      if ReadsAsState(Decode, mark, prose) {
        DecodedIsEncoded(line);
      }
      if s :| HasNames(s) && ValidState(s) && s != NOTHING && line == Encode(s) {
        DecodeEncodeIff(s);
        EncodedLine(s);
      }
    }
  }

  lemma DecodedIsEncoded(t: string)
    requires Decode(t).Some?
    ensures var s := Decode(t).value; HasNames(s) && ValidState(s) && Encode(s) == t
  {
    hide ValidState;
    DecodeEncodeIff(Decode(t).value);
  }

  /** Prose that quotes an old block is taken for one: state that is not there appears. */
  lemma QuotedBlockIsTakenForState(read: string -> Option<Carried>, mark: string, quote: string, s: Carried)
    requires Reads(read) && IsLabel(mark)
    requires HasNames(s) && s != NOTHING && ValidState(s) && !Contains(Encode(s), mark)
    ensures ParseBlock(read, mark, AppendBlock(mark, AppendBlock(mark, quote, s), NOTHING)) == s
  {
    StateComesBack(read, mark, quote, s);
  }
}
