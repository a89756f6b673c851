/** The JSON text of the preserved-state block. Strings are escaped as section 7 of RFC 8259
    and Go's encoder do it; a document is an object of texts and of lists of flat objects. */
module Json {
  import opened Basics
  import opened Utf8

  datatype Pair = Pair(key: string, text: string)
  datatype Value = Text(text: string) | Rows(rows: seq<seq<Pair>>)
  datatype Field = Field(key: string, value: Value)

  function HexDigit(n: nat): char
    requires n < 16
  {
    if n < 10 then '0' + n as char else 'a' + (n - 10) as char
  }

  function HexValue(c: char): nat {
    if '0' <= c <= '9' then (c - '0') as nat else if 'a' <= c <= 'f' then 10 + (c - 'a') as nat else 16
  }

  predicate NeedsCode(c: char) {
    c < ' ' || c == '<' || c == '>' || c == '&'
  }

  /** An ASCII character inside a string. */
  function Escape(c: char): (r: string)
    ensures 1 <= |r| <= 6
  {
    if c == '"' then ['\\', '"']
    else if c == '\\' then ['\\', '\\']
    else if c == '\n' then ['\\', 'n']
    else if c == '\r' then ['\\', 'r']
    else if c == '\t' then ['\\', 't']
    else if c == '\U{08}' then ['\\', 'b']
    else if c == '\U{0C}' then ['\\', 'f']
    else if NeedsCode(c) then ['\\', 'u', '0', '0', HexDigit(c as int / 16), HexDigit(c as int % 16)]
    else [c]
  }

  // U+FFFD, U+2028 and U+2029 in bytes.
  const REPLACEMENT: string := ['\U{EF}', '\U{BF}', '\U{BD}']
  const LINE_SEPARATOR: string := ['\U{E2}', '\U{80}', '\U{A8}']
  const PARAGRAPH_SEPARATOR: string := ['\U{E2}', '\U{80}', '\U{A9}']

  /** How many bytes the encoder takes at a time: a character, or one byte that is part of none. */
  function Chunk(s: string): (n: nat)
    requires s != ""
    ensures 1 <= n <= |s|
  {
    if RuneLen(s) == 0 then 1 else RuneLen(s)
  }

  /** What it writes for them. */
  function Written(s: string): string
    requires s != ""
  {
    if RuneLen(s) == 0 then ['\\', 'u', 'f', 'f', 'f', 'd']
    else if RuneLen(s) == 1 then Escape(s[0])
    else if s[..RuneLen(s)] == LINE_SEPARATOR then ['\\', 'u', '2', '0', '2', '8']
    else if s[..RuneLen(s)] == PARAGRAPH_SEPARATOR then ['\\', 'u', '2', '0', '2', '9']
    else s[..RuneLen(s)]
  }

  /** What is read back for them. */
  function Meant(s: string): string
    requires s != ""
  {
    if RuneLen(s) == 0 then REPLACEMENT else s[..RuneLen(s)]
  }

  /** A text after a round trip: every byte that is part of no character is replaced. */
  function Clean(s: string): string {
    if s == "" then "" else Meant(s) + Clean(s[Chunk(s)..])
  }

  /** Exactly the texts in UTF-8 are left alone. */
  lemma {:induction false} CleanIffValid(s: string)
    ensures Clean(s) == s <==> ValidUtf8(s)
    ensures |Clean(s)| >= |s|
    ensures !ValidUtf8(s) ==> |Clean(s)| > |s|
    decreases |s|
  {
    if s != "" {
      var rest := s[Chunk(s)..];
      CleanIffValid(rest);
      HeadOf(s);
      hide ValidUtf8, RuneLen, Meant, Chunk;
      assert s == s[..Chunk(s)] + rest;
      if RuneLen(s) > 0 {
        SameHead(s[..Chunk(s)], Clean(rest), rest);
      }
    }
  }

  lemma HeadOf(s: string)
    requires s != ""
    ensures ValidUtf8(s) <==> RuneLen(s) > 0 && ValidUtf8(s[Chunk(s)..])
    ensures if RuneLen(s) > 0 then Meant(s) == s[..Chunk(s)] else |Meant(s)| == 3 && Chunk(s) == 1
  {
  }

  lemma SameHead(a: string, x: string, y: string)
    ensures a + x == a + y <==> x == y
  {
    assert (a + x)[|a|..] == x && (a + y)[|a|..] == y;
  }

  predicate IsHex(c: char) {
    HexValue(c) < 16
  }

  /** The character with a code the encoder writes as one. */
  function OfCode(code: nat): Option<string> {
    if code < 0x80 then Some([code as char])
    else if code == 0x2028 then Some(LINE_SEPARATOR)
    else if code == 0x2029 then Some(PARAGRAPH_SEPARATOR)
    else if code == 0xFFFD then Some(REPLACEMENT)
    else None
  }

  /** The character at the head of `t`, inside a string, and the bytes it takes. */
  function Unescape(t: string): (r: Option<(string, nat)>)
    requires t != ""
    ensures r.Some? ==> 1 <= r.value.1 <= |t|
  {
    if t[0] < ' ' || t[0] == '"' then None
    else if t[0] != '\\' then if RuneLen(t) == 0 then None else Some((t[..RuneLen(t)], RuneLen(t)))
    else if |t| < 2 then None
    else
      match t[1]
      case '"' => Some((['"'], 2))
      case '\\' => Some((['\\'], 2))
      case 'n' => Some((['\n'], 2))
      case 'r' => Some((['\r'], 2))
      case 't' => Some((['\t'], 2))
      case 'b' => Some((['\U{08}'], 2))
      case 'f' => Some((['\U{0C}'], 2))
      case 'u' =>
        if |t| < 6 || !IsHex(t[2]) || !IsHex(t[3]) || !IsHex(t[4]) || !IsHex(t[5]) then None
        else
          (match OfCode(((HexValue(t[2]) * 16 + HexValue(t[3])) * 16 + HexValue(t[4])) * 16 + HexValue(t[5]))
           case Some(c) => Some((c, 6))
           case None => None)
      case _ => None
  }

  lemma HexRoundTrip(n: nat)
    requires n < 16
    ensures HexValue(HexDigit(n)) == n
  {
  }

  lemma UnescapeAscii(c: char, k: string)
    requires c <= '\U{7F}'
    ensures Unescape(Escape(c) + k) == Some(([c], |Escape(c)|))
  {
    var t := Escape(c) + k;
    if NeedsCode(c) && |Escape(c)| == 6 {
      assert t[1] == 'u' && t[2] == t[3] == '0';
      assert t[4] == HexDigit(c as int / 16) && t[5] == HexDigit(c as int % 16);
      HexRoundTrip(c as int / 16);
      HexRoundTrip(c as int % 16);
    } else if |Escape(c)| == 1 {
      assert t[..1] == [c];
    }
  }

  lemma UnescapeCode(a: char, b: char, c: char, d: char, k: string)
    requires IsHex(a) && IsHex(b) && IsHex(c) && IsHex(d)
    ensures Unescape(['\\', 'u', a, b, c, d] + k) ==
      match OfCode(((HexValue(a) * 16 + HexValue(b)) * 16 + HexValue(c)) * 16 + HexValue(d))
      case Some(m) => Some((m, 6))
      case None => None
  {
    var t := ['\\', 'u', a, b, c, d] + k;
    assert t[0] == '\\' && t[1] == 'u' && t[2] == a && t[3] == b && t[4] == c && t[5] == d;
  }

  lemma RawHead(s: string, k: string)
    requires RuneLen(s) > 0
    ensures RuneLen(s[..RuneLen(s)] + k) == RuneLen(s)
    ensures (s[..RuneLen(s)] + k)[..RuneLen(s)] == s[..RuneLen(s)]
    ensures RuneLen(s) > 1 ==> s[0] > '\U{7F}'
    ensures RuneLen(s) == 1 ==> s[0] <= '\U{7F}' && s[..1] == [s[0]]
  {
    HeadStays(s[..RuneLen(s)], k);
  }

  /** One step of the encoder undone. */
  lemma UnescapeWritten(s: string, k: string)
    requires s != ""
    ensures Unescape(Written(s) + k) == Some((Meant(s), |Written(s)|))
  {
    if RuneLen(s) == 0 {
      UnescapeCode('f', 'f', 'f', 'd', k);
    } else {
      RawHead(s, k);
      hide RuneLen;
      if RuneLen(s) == 1 {
        UnescapeAscii(s[0], k);
      } else {
        UnescapeCode('2', '0', '2', '8', k);
        UnescapeCode('2', '0', '2', '9', k);
      }
    }
  }

  // ---- writing: each writer is given what follows it ----

  function PutChars(s: string, k: string): string
    decreases |s|
  {
    if s == "" then k else Written(s) + PutChars(s[Chunk(s)..], k)
  }

  function PutString(s: string, k: string): string {
    ['"'] + PutChars(s, ['"'] + k)
  }

  function PutPair(p: Pair, k: string): string {
    PutString(p.key, [':'] + PutString(p.text, k))
  }

  function PutPairs(row: seq<Pair>, k: string): string
    requires row != []
  {
    PutPair(row[0], if |row| == 1 then k else [','] + PutPairs(row[1..], k))
  }

  function PutRow(row: seq<Pair>, k: string): string {
    ['{'] + if row == [] then ['}'] + k else PutPairs(row, ['}'] + k)
  }

  function PutRows(rows: seq<seq<Pair>>, k: string): string
    requires rows != []
  {
    PutRow(rows[0], if |rows| == 1 then k else [','] + PutRows(rows[1..], k))
  }

  function PutValue(v: Value, k: string): string {
    match v
    case Text(s) => PutString(s, k)
    case Rows(rows) => ['['] + if rows == [] then [']'] + k else PutRows(rows, [']'] + k)
  }

  function PutField(f: Field, k: string): string {
    PutString(f.key, [':'] + PutValue(f.value, k))
  }

  function PutFields(fs: seq<Field>, k: string): string
    requires fs != []
  {
    PutField(fs[0], if |fs| == 1 then k else [','] + PutFields(fs[1..], k))
  }

  function PutDocument(fs: seq<Field>, k: string): string {
    ['{'] + if fs == [] then ['}'] + k else PutFields(fs, ['}'] + k)
  }

  // ---- reading: each reader answers what it read and what is left ----

  type Read<T> = Option<(T, string)>

  function Skip(c: char, t: string): (r: Option<string>)
    ensures r.Some? ==> |r.value| < |t|
  {
    if t != "" && t[0] == c then Some(t[1..]) else None
  }

  function ReadChars(t: string): (r: Read<string>)
    ensures r.Some? ==> |r.value.1| < |t|
    decreases |t|
  {
    if t == "" then None
    else if t[0] == '"' then Some(("", t[1..]))
    else
      match Unescape(t)
      case None => None
      case Some((c, n)) =>
        match ReadChars(t[n..])
        case None => None
        case Some((s, rest)) => Some((c + s, rest))
  }

  function ReadString(t: string): (r: Read<string>)
    ensures r.Some? ==> |r.value.1| < |t|
  {
    match Skip('"', t)
    case None => None
    case Some(t') => ReadChars(t')
  }

  function ReadPair(t: string): (r: Read<Pair>)
    ensures r.Some? ==> |r.value.1| < |t|
  {
    match ReadString(t)
    case None => None
    case Some((key, t1)) =>
      match Skip(':', t1)
      case None => None
      case Some(t2) =>
        match ReadString(t2)
        case None => None
        case Some((text, t3)) => Some((Pair(key, text), t3))
  }

  function ReadPairs(t: string): (r: Read<seq<Pair>>)
    ensures r.Some? ==> |r.value.1| < |t|
    decreases |t|
  {
    match ReadPair(t)
    case None => None
    case Some((p, t1)) =>
      match Skip(',', t1)
      case None => Some(([p], t1))
      case Some(t2) =>
        match ReadPairs(t2)
        case None => None
        case Some((ps, t3)) => Some(([p] + ps, t3))
  }

  function ReadRow(t: string): (r: Read<seq<Pair>>)
    ensures r.Some? ==> |r.value.1| < |t|
  {
    match Skip('{', t)
    case None => None
    case Some(t1) =>
      match Skip('}', t1)
      case Some(t2) => Some(([], t2))
      case None =>
        match ReadPairs(t1)
        case None => None
        case Some((row, t2)) =>
          match Skip('}', t2)
          case None => None
          case Some(t3) => Some((row, t3))
  }

  function ReadRows(t: string): (r: Read<seq<seq<Pair>>>)
    ensures r.Some? ==> |r.value.1| < |t|
    decreases |t|
  {
    match ReadRow(t)
    case None => None
    case Some((row, t1)) =>
      match Skip(',', t1)
      case None => Some(([row], t1))
      case Some(t2) =>
        match ReadRows(t2)
        case None => None
        case Some((rows, t3)) => Some(([row] + rows, t3))
  }

  function ReadValue(t: string): (r: Read<Value>)
    ensures r.Some? ==> |r.value.1| < |t|
  {
    match Skip('[', t)
    case None => (
      match ReadString(t)
      case None => None
      case Some((s, t1)) => Some((Text(s), t1)))
    case Some(t1) =>
      match Skip(']', t1)
      case Some(t2) => Some((Rows([]), t2))
      case None =>
        match ReadRows(t1)
        case None => None
        case Some((rows, t2)) =>
          match Skip(']', t2)
          case None => None
          case Some(t3) => Some((Rows(rows), t3))
  }

  function ReadField(t: string): (r: Read<Field>)
    ensures r.Some? ==> |r.value.1| < |t|
  {
    match ReadString(t)
    case None => None
    case Some((key, t1)) =>
      match Skip(':', t1)
      case None => None
      case Some(t2) =>
        match ReadValue(t2)
        case None => None
        case Some((v, t3)) => Some((Field(key, v), t3))
  }

  function ReadFields(t: string): (r: Read<seq<Field>>)
    ensures r.Some? ==> |r.value.1| < |t|
    decreases |t|
  {
    match ReadField(t)
    case None => None
    case Some((f, t1)) =>
      match Skip(',', t1)
      case None => Some(([f], t1))
      case Some(t2) =>
        match ReadFields(t2)
        case None => None
        case Some((fs, t3)) => Some(([f] + fs, t3))
  }

  function ReadDocument(t: string): Read<seq<Field>> {
    match Skip('{', t)
    case None => None
    case Some(t1) =>
      match Skip('}', t1)
      case Some(t2) => Some(([], t2))
      case None =>
        match ReadFields(t1)
        case None => None
        case Some((fs, t2)) =>
          match Skip('}', t2)
          case None => None
          case Some(t3) => Some((fs, t3))
  }

  // ---- reading back what was written ----

  lemma SkipPut(c: char, k: string)
    ensures Skip(c, [c] + k) == Some(k)
    ensures forall d :: d != c ==> Skip(d, [c] + k) == None
  {
  }

  lemma {:induction false} CharsBack(s: string, k: string)
    ensures ReadChars(PutChars(s, ['"'] + k)) == Some((Clean(s), k))
    decreases |s|
  {
    hide Written, Meant, Unescape, Chunk;
    if s != "" {
      var rest := PutChars(s[Chunk(s)..], ['"'] + k);
      var t := Written(s) + rest;
      CharsBack(s[Chunk(s)..], k);
      UnescapeWritten(s, rest);
      assert t[|Written(s)|..] == rest;
      NoQuoteAhead(s, rest);
    } else {
      assert PutChars(s, ['"'] + k)[1..] == k;
    }
  }

  lemma NoQuoteAhead(s: string, k: string)
    requires s != ""
    ensures Written(s) + k != "" && (Written(s) + k)[0] != '"'
  {
    if RuneLen(s) > 0 {
      RawHead(s, k);
    }
  }

  lemma StringBack(s: string, k: string)
    ensures ReadString(PutString(s, k)) == Some((Clean(s), k))
  {
    hide ReadChars, PutChars;
    SkipPut('"', PutChars(s, ['"'] + k));
    CharsBack(s, k);
  }

  // What each part of a document is after a round trip.

  function CleanPair(p: Pair): Pair {
    Pair(Clean(p.key), Clean(p.text))
  }

  function CleanRow(row: seq<Pair>): (r: seq<Pair>)
    ensures |r| == |row|
  {
    seq(|row|, i requires 0 <= i < |row| => CleanPair(row[i]))
  }

  function CleanRows(rows: seq<seq<Pair>>): (r: seq<seq<Pair>>)
    ensures |r| == |rows|
  {
    seq(|rows|, i requires 0 <= i < |rows| => CleanRow(rows[i]))
  }

  function CleanValue(v: Value): Value {
    match v
    case Text(s) => Text(Clean(s))
    case Rows(rows) => Rows(CleanRows(rows))
  }

  function CleanField(f: Field): Field {
    Field(Clean(f.key), CleanValue(f.value))
  }

  function CleanFields(fs: seq<Field>): (r: seq<Field>)
    ensures |r| == |fs|
  {
    seq(|fs|, i requires 0 <= i < |fs| => CleanField(fs[i]))
  }

  lemma PairBack(p: Pair, k: string)
    ensures ReadPair(PutPair(p, k)) == Some((CleanPair(p), k))
  {
    hide ReadString, PutString, Clean;
    StringBack(p.key, [':'] + PutString(p.text, k));
    SkipPut(':', PutString(p.text, k));
    StringBack(p.text, k);
  }

  lemma {:induction false} PairsBack(row: seq<Pair>, k: string)
    requires row != [] && Skip(',', k) == None
    ensures ReadPairs(PutPairs(row, k)) == Some((CleanRow(row), k))
    decreases |row|
  {
    hide ReadPair, PutPair, Skip, CleanPair;
    if |row| == 1 {
      PairBack(row[0], k);
      assert CleanRow(row) == [CleanPair(row[0])];
    } else {
      PairBack(row[0], [','] + PutPairs(row[1..], k));
      SkipPut(',', PutPairs(row[1..], k));
      PairsBack(row[1..], k);
      assert CleanRow(row) == [CleanPair(row[0])] + CleanRow(row[1..]);
    }
  }

  lemma RowBack(row: seq<Pair>, k: string)
    ensures ReadRow(PutRow(row, k)) == Some((CleanRow(row), k))
  {
    hide ReadPairs, Skip, CleanPair;
    SkipPut('}', k);
    if row == [] {
      SkipPut('{', ['}'] + k);
      assert CleanRow(row) == [];
    } else {
      PairsStartWithQuote(row, ['}'] + k);
      SkipPut('{', PutPairs(row, ['}'] + k));
      PairsBack(row, ['}'] + k);
    }
  }

  lemma PairsStartWithQuote(row: seq<Pair>, k: string)
    requires row != []
    ensures Skip('}', PutPairs(row, k)) == None
  {
  }

  lemma {:induction false} RowsBack(rows: seq<seq<Pair>>, k: string)
    requires rows != [] && Skip(',', k) == None
    ensures ReadRows(PutRows(rows, k)) == Some((CleanRows(rows), k))
    decreases |rows|
  {
    hide ReadRow, PutRow, Skip, CleanRow;
    if |rows| == 1 {
      RowBack(rows[0], k);
      assert CleanRows(rows) == [CleanRow(rows[0])];
    } else {
      RowBack(rows[0], [','] + PutRows(rows[1..], k));
      SkipPut(',', PutRows(rows[1..], k));
      RowsBack(rows[1..], k);
      assert CleanRows(rows) == [CleanRow(rows[0])] + CleanRows(rows[1..]);
    }
  }

  lemma RowsStartWithBrace(rows: seq<seq<Pair>>, k: string)
    requires rows != []
    ensures Skip(']', PutRows(rows, k)) == None
  {
  }

  lemma ValueBack(v: Value, k: string)
    ensures ReadValue(PutValue(v, k)) == Some((CleanValue(v), k))
  {
    match v
    case Text(s) =>
      hide ReadString, Clean, PutChars;
      StringBack(s, k);
      assert PutString(s, k)[0] == '"';
    case Rows(rows) =>
      hide ReadRows, Skip, CleanRow;
      SkipPut(']', k);
      if rows == [] {
        SkipPut('[', [']'] + k);
        assert CleanRows(rows) == [];
      } else {
        RowsStartWithBrace(rows, [']'] + k);
        SkipPut('[', PutRows(rows, [']'] + k));
        RowsBack(rows, [']'] + k);
      }
  }

  lemma FieldBack(f: Field, k: string)
    ensures ReadField(PutField(f, k)) == Some((CleanField(f), k))
  {
    hide ReadString, PutString, ReadValue, PutValue, Clean, CleanValue;
    StringBack(f.key, [':'] + PutValue(f.value, k));
    SkipPut(':', PutValue(f.value, k));
    ValueBack(f.value, k);
  }

  lemma {:induction false} FieldsBack(fs: seq<Field>, k: string)
    requires fs != [] && Skip(',', k) == None
    ensures ReadFields(PutFields(fs, k)) == Some((CleanFields(fs), k))
    decreases |fs|
  {
    hide ReadField, PutField, Skip, CleanField;
    if |fs| == 1 {
      FieldBack(fs[0], k);
      assert CleanFields(fs) == [CleanField(fs[0])];
    } else {
      FieldBack(fs[0], [','] + PutFields(fs[1..], k));
      SkipPut(',', PutFields(fs[1..], k));
      FieldsBack(fs[1..], k);
      assert CleanFields(fs) == [CleanField(fs[0])] + CleanFields(fs[1..]);
    }
  }

  lemma FieldsStartWithQuote(fs: seq<Field>, k: string)
    requires fs != []
    ensures Skip('}', PutFields(fs, k)) == None
  {
  }

  /** A document is read back from its text, with whatever follows left over; bytes that are part of
      no character come back as U+FFFD. */
  lemma DocumentBack(fs: seq<Field>, k: string)
    ensures ReadDocument(PutDocument(fs, k)) == Some((CleanFields(fs), k))
  {
    hide ReadFields, Skip, CleanField;
    SkipPut('}', k);
    if fs == [] {
      SkipPut('{', ['}'] + k);
      assert CleanFields(fs) == [];
    } else {
      FieldsStartWithQuote(fs, ['}'] + k);
      SkipPut('{', PutFields(fs, ['}'] + k));
      FieldsBack(fs, ['}'] + k);
    }
  }

  predicate PairValid(p: Pair) {
    ValidUtf8(p.key) && ValidUtf8(p.text)
  }

  predicate RowValid(row: seq<Pair>) {
    forall i :: 0 <= i < |row| ==> PairValid(row[i])
  }

  predicate ValueValid(v: Value) {
    match v
    case Text(s) => ValidUtf8(s)
    case Rows(rows) => forall i :: 0 <= i < |rows| ==> RowValid(rows[i])
  }

  predicate FieldValid(f: Field) {
    ValidUtf8(f.key) && ValueValid(f.value)
  }

  lemma CleanRowIff(row: seq<Pair>)
    ensures CleanRow(row) == row <==> RowValid(row)
  {
    hide Clean, ValidUtf8;
    forall i | 0 <= i < |row| ensures CleanPair(row[i]) == row[i] <==> PairValid(row[i]) {
      CleanIffValid(row[i].key);
      CleanIffValid(row[i].text);
    }
    if CleanRow(row) == row {
      forall i | 0 <= i < |row| ensures PairValid(row[i]) {
        assert CleanRow(row)[i] == row[i];
      }
    }
  }

  lemma CleanValueIff(v: Value)
    ensures CleanValue(v) == v <==> ValueValid(v)
  {
    hide Clean, ValidUtf8, CleanRow, RowValid;
    match v
    case Text(s) =>
      CleanIffValid(s);
    case Rows(rows) =>
      forall i | 0 <= i < |rows| ensures CleanRow(rows[i]) == rows[i] <==> RowValid(rows[i]) {
        CleanRowIff(rows[i]);
      }
      if CleanRows(rows) == rows {
        forall i | 0 <= i < |rows| ensures RowValid(rows[i]) {
          assert CleanRows(rows)[i] == rows[i];
        }
      }
  }

  /** Exactly the documents whose texts are UTF-8 come back as they were. */
  lemma DocumentBackIff(fs: seq<Field>, k: string)
    ensures ReadDocument(PutDocument(fs, k)) == Some((fs, k)) <==> forall i :: 0 <= i < |fs| ==> FieldValid(fs[i])
  {
    DocumentBack(fs, k);
    hide ReadDocument, PutDocument, Clean, ValidUtf8, CleanValue, ValueValid;
    forall i | 0 <= i < |fs| ensures CleanField(fs[i]) == fs[i] <==> FieldValid(fs[i]) {
      CleanIffValid(fs[i].key);
      CleanValueIff(fs[i].value);
    }
    if CleanFields(fs) == fs {
      forall i | 0 <= i < |fs| ensures FieldValid(fs[i]) {
        assert CleanFields(fs)[i] == fs[i];
      }
    }
  }

  // ---- the text stays on one line and keeps its last character ----

  predicate OneLine(s: string) {
    '\n' !in s
  }

  /** What a writer puts before `k` holds no newline and leaves the end of `k` the end. */
  predicate Plain(written: string, k: string) {
    |k| <= |written| && written[|written| - |k|..] == k && OneLine(written[..|written| - |k|])
  }

  lemma PlainTrans(a: string, b: string, c: string)
    requires Plain(a, b) && Plain(b, c)
    ensures Plain(a, c)
  {
    assert a[..|a| - |c|] == a[..|a| - |b|] + b[..|b| - |c|];
    assert a[|a| - |c|..] == a[|a| - |b|..][|b| - |c|..];
  }

  lemma PlainPut(head: string, k: string)
    requires OneLine(head)
    ensures Plain(head + k, k)
  {
    assert (head + k)[..|head|] == head;
  }

  lemma {:induction false} CharsPlain(s: string, k: string)
    ensures Plain(PutChars(s, k), k)
    decreases |s|
  {
    hide Written;
    if s == "" {
      assert k[..0] == "";
    } else {
      var rest := PutChars(s[Chunk(s)..], k);
      CharsPlain(s[Chunk(s)..], k);
      WrittenOneLine(s);
      PlainPut(Written(s), rest);
      PlainTrans(PutChars(s, k), rest, k);
    }
  }

  lemma WrittenOneLine(s: string)
    requires s != ""
    ensures OneLine(Written(s))
  {
  }

  lemma StringPlain(s: string, k: string)
    ensures Plain(PutString(s, k), k)
  {
    hide PutChars, Plain;
    PlainPut(['"'], k);
    CharsPlain(s, ['"'] + k);
    PlainPut(['"'], PutChars(s, ['"'] + k));
    PlainTrans(PutChars(s, ['"'] + k), ['"'] + k, k);
    PlainTrans(PutString(s, k), PutChars(s, ['"'] + k), k);
  }

  lemma PairPlain(p: Pair, k: string)
    ensures Plain(PutPair(p, k), k)
  {
    hide PutString, Plain;
    StringPlain(p.text, k);
    PlainPut([':'], PutString(p.text, k));
    StringPlain(p.key, [':'] + PutString(p.text, k));
    PlainTrans([':'] + PutString(p.text, k), PutString(p.text, k), k);
    PlainTrans(PutPair(p, k), [':'] + PutString(p.text, k), k);
  }

  lemma {:induction false} PairsPlain(row: seq<Pair>, k: string)
    requires row != []
    ensures Plain(PutPairs(row, k), k)
    decreases |row|
  {
    hide PutPair, Plain;
    if |row| == 1 {
      PairPlain(row[0], k);
    } else {
      var rest := PutPairs(row[1..], k);
      PairsPlain(row[1..], k);
      PlainPut([','], rest);
      PairPlain(row[0], [','] + rest);
      PlainTrans([','] + rest, rest, k);
      PlainTrans(PutPairs(row, k), [','] + rest, k);
    }
  }

  lemma RowPlain(row: seq<Pair>, k: string)
    ensures Plain(PutRow(row, k), k)
  {
    hide PutPairs, Plain;
    PlainPut(['}'], k);
    var inner := if row == [] then ['}'] + k else PutPairs(row, ['}'] + k);
    if row != [] {
      PairsPlain(row, ['}'] + k);
      PlainTrans(inner, ['}'] + k, k);
    }
    PlainPut(['{'], inner);
    PlainTrans(['{'] + inner, inner, k);
  }

  lemma {:induction false} RowsPlain(rows: seq<seq<Pair>>, k: string)
    requires rows != []
    ensures Plain(PutRows(rows, k), k)
    decreases |rows|
  {
    hide PutRow, Plain;
    if |rows| == 1 {
      RowPlain(rows[0], k);
    } else {
      var rest := PutRows(rows[1..], k);
      RowsPlain(rows[1..], k);
      PlainPut([','], rest);
      RowPlain(rows[0], [','] + rest);
      PlainTrans([','] + rest, rest, k);
      PlainTrans(PutRows(rows, k), [','] + rest, k);
    }
  }

  lemma ValuePlain(v: Value, k: string)
    ensures Plain(PutValue(v, k), k)
  {
    hide PutRows, PutString, Plain;
    match v
    case Text(s) =>
      StringPlain(s, k);
    case Rows(rows) =>
      PlainPut([']'], k);
      var inner := if rows == [] then [']'] + k else PutRows(rows, [']'] + k);
      if rows != [] {
        RowsPlain(rows, [']'] + k);
        PlainTrans(inner, [']'] + k, k);
      }
      PlainPut(['['], inner);
      PlainTrans(['['] + inner, inner, k);
  }

  lemma {:induction false} FieldsPlain(fs: seq<Field>, k: string)
    requires fs != []
    ensures Plain(PutFields(fs, k), k)
    decreases |fs|
  {
    hide PutField, Plain;
    if |fs| == 1 {
      FieldPlain(fs[0], k);
    } else {
      var rest := PutFields(fs[1..], k);
      FieldsPlain(fs[1..], k);
      PlainPut([','], rest);
      FieldPlain(fs[0], [','] + rest);
      PlainTrans([','] + rest, rest, k);
      PlainTrans(PutFields(fs, k), [','] + rest, k);
    }
  }

  lemma FieldPlain(f: Field, k: string)
    ensures Plain(PutField(f, k), k)
  {
    hide PutString, PutValue, Plain;
    ValuePlain(f.value, k);
    PlainPut([':'], PutValue(f.value, k));
    StringPlain(f.key, [':'] + PutValue(f.value, k));
    PlainTrans([':'] + PutValue(f.value, k), PutValue(f.value, k), k);
    PlainTrans(PutField(f, k), [':'] + PutValue(f.value, k), k);
  }

  lemma PlainBeforeLast(inner: string)
    requires Plain(inner, ['}'])
    ensures OneLine(inner) && inner[|inner| - 1] == '}'
  {
    var head := inner[..|inner| - 1];
    assert inner == head + ['}'];
  }

  /** A document is one line between braces. */
  lemma DocumentShape(fs: seq<Field>)
    ensures
      var t := PutDocument(fs, "");
      OneLine(t) && |t| >= 2 && t[0] == '{' && t[|t| - 1] == '}'
  {
    hide PutFields;
    assert ['}'] + "" == ['}'];
    if fs != [] {
      FieldsPlain(fs, ['}']);
      PlainBeforeLast(PutFields(fs, ['}']));
    }
  }
}
