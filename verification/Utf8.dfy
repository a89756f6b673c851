/** Byte-capped truncation that never splits a character. Text is a Go string: one `char`
    a byte. Well-formedness follows sections 3 and 4 of RFC 3629. */
module Utf8 {
  import opened Basics

  predicate RuneStart(b: char) {
    !('\U{80}' <= b < '\U{C0}')
  }

  predicate TailByte(b: char) {
    '\U{80}' <= b <= '\U{BF}'
  }

  predicate Second(lead: char, b: char) {
    if lead == '\U{E0}' then '\U{A0}' <= b <= '\U{BF}'
    else if lead == '\U{ED}' then '\U{80}' <= b <= '\U{9F}'
    else if lead == '\U{F0}' then '\U{90}' <= b <= '\U{BF}'
    else if lead == '\U{F4}' then '\U{80}' <= b <= '\U{8F}'
    else TailByte(b)
  }

  function WidthOf(lead: char): nat {
    if lead <= '\U{7F}' then 1
    else if '\U{C2}' <= lead <= '\U{DF}' then 2
    else if '\U{E0}' <= lead <= '\U{EF}' then 3
    else if '\U{F0}' <= lead <= '\U{F4}' then 4
    else 0
  }

  /** Bytes of the well-formed character at the head of `s`, 0 when there is none. */
  function RuneLen(s: string): (n: nat)
    ensures n <= 4 && n <= |s|
  {
    if s == "" then 0
    else
      var w := WidthOf(s[0]);
      if |s| < w then 0
      else if w >= 2 && !Second(s[0], s[1]) then 0
      else if w >= 3 && !TailByte(s[2]) then 0
      else if w >= 4 && !TailByte(s[3]) then 0
      else w
  }

  predicate ValidUtf8(s: string) {
    s == "" || (RuneLen(s) > 0 && ValidUtf8(s[RuneLen(s)..]))
  }

  /** The nearest place at or before `n` where a character may start. */
  function RuneBack(s: string, n: nat): (m: nat)
    requires n < |s|
    ensures m <= n && (m == 0 || RuneStart(s[m]))
    ensures forall j :: m < j <= n ==> !RuneStart(s[j])
  {
    if n > 0 && !RuneStart(s[n]) then RuneBack(s, n - 1) else n
  }

  lemma HeadStays(a: string, b: string)
    requires RuneLen(a) > 0
    ensures RuneLen(a + b) == RuneLen(a)
  {
  }

  lemma {:induction false} ConcatValid(a: string, b: string)
    requires ValidUtf8(a) && ValidUtf8(b)
    ensures ValidUtf8(a + b)
    decreases |a|
  {
    if a == "" {
      assert a + b == b;
    } else {
      HeadStays(a, b);
      hide RuneLen;
      var w := RuneLen(a);
      assert (a + b)[w..] == a[w..] + b;
      ConcatValid(a[w..], b);
    }
  }

  /** Cutting valid text where a character may start leaves valid text. */
  lemma {:induction false} CutValid(s: string, m: nat)
    requires ValidUtf8(s) && m <= |s|
    requires m < |s| ==> m == 0 || RuneStart(s[m])
    ensures ValidUtf8(s[..m])
    decreases |s|
  {
    if m > 0 {
      var w := RuneLen(s);
      if m < w {
        assert false;
      } else {
        CutValid(s[w..], m - w);
        assert RuneLen(s[..m]) == w;
        assert s[..m][w..] == s[w..][..m - w];
      }
    }
  }

  /** Stepping back to a character start drops at most three bytes of valid text. */
  lemma {:induction false} RuneBackDropsAtMostThree(s: string, n: nat)
    requires ValidUtf8(s) && n < |s|
    ensures n <= RuneBack(s, n) + 3
    decreases |s|
  {
    var w := RuneLen(s);
    if n >= w {
      RuneBackDropsAtMostThree(s[w..], n - w);
      RuneBackShift(s, w, n);
    }
  }

  lemma {:induction false} RuneBackShift(s: string, w: nat, n: nat)
    requires w <= n < |s|
    requires RuneStart(s[w])
    ensures RuneBack(s, n) == w + RuneBack(s[w..], n - w)
    decreases n
  {
    if n > w && !RuneStart(s[n]) {
      RuneBackShift(s, w, n - 1);
    }
  }

  /** internal/cli's cutRuneBoundary. */
  method CutRuneBoundary(s: string, n: int) returns (r: string)
    ensures n <= 0 ==> r == ""
    ensures 0 < n && |s| <= n ==> r == s
    ensures 0 < n < |s| ==> r == s[..RuneBack(s, n)]
    ensures |r| <= if n < 0 then 0 else n
    ensures r <= s
    ensures ValidUtf8(s) ==> ValidUtf8(r)
    ensures ValidUtf8(s) && 0 <= n <= |s| ==> |r| + 3 >= n
  {
    if n <= 0 {
      return "";
    }
    if |s| <= n {
      return s;
    }
    var k := n;
    while k > 0 && !RuneStart(s[k])
      invariant 0 <= k <= n
      invariant RuneBack(s, n) == RuneBack(s, k)
    {
      k := k - 1;
    }
    if ValidUtf8(s) {
      CutValid(s, k);
      RuneBackDropsAtMostThree(s, n);
    }
    return s[..k];
  }

  // U+2026 in bytes.
  const ELLIPSIS: string := "\U{E2}\U{80}\U{A6}"
  const TRUNCATION_MARKER: string := "\n" + ELLIPSIS + " (truncated)"

  function TruncatedGuideline(content: string, limit: int): string {
    if |content| <= limit then content
    else if limit <= 0 then ""
    else if |TRUNCATION_MARKER| <= limit then
      content[..RuneBack(content, limit - |TRUNCATION_MARKER|)] + TRUNCATION_MARKER
    else content[..RuneBack(content, limit)]
  }

  /** truncateGuidelineContent: capped for every non-negative limit, valid text stays valid. */
  method TruncateGuidelineContent(content: string, limit: int) returns (r: string)
    ensures r == TruncatedGuideline(content, limit)
    ensures 0 <= limit ==> |r| <= limit
    ensures ValidUtf8(content) ==> ValidUtf8(r)
  {
    NothingValid();
    hide ValidUtf8;
    if |content| <= limit {
      return content;
    }
    if limit <= 0 {
      return "";
    }
    var cut := limit - |TRUNCATION_MARKER|;
    if cut < 0 {
      cut := 0;
    }
    ghost var from := cut;
    while cut > 0 && !RuneStart(content[cut])
      invariant 0 <= cut <= from < |content|
      invariant RuneBack(content, from) == RuneBack(content, cut)
    {
      cut := cut - 1;
    }
    var truncated := content[..cut] + TRUNCATION_MARKER;
    if |truncated| <= limit {
      if ValidUtf8(content) {
        CutValid(content, cut);
        MarkerValid();
        ConcatValid(content[..cut], TRUNCATION_MARKER);
      }
      return truncated;
    }
    var end := limit;
    while end > 0 && !RuneStart(content[end])
      invariant 0 <= end <= limit
      invariant RuneBack(content, limit) == RuneBack(content, end)
    {
      end := end - 1;
    }
    if ValidUtf8(content) {
      CutValid(content, end);
    }
    return content[..end];
  }

  lemma NothingValid()
    ensures ValidUtf8("")
  {
  }

  lemma MarkerValid()
    ensures ValidUtf8(TRUNCATION_MARKER)
  {
    hide ValidUtf8, RuneLen;
    var words := " (truncated)";
    assert forall i :: 0 <= i < |words| ==> words[i] <= '\U{7F}';
    AsciiValid(words);
    NoteValid(words);
  }

  lemma NoteValid(ascii: string)
    requires ValidUtf8(ascii)
    ensures ValidUtf8("\n" + ELLIPSIS + ascii)
  {
    AsciiValid("\n");
    assert RuneLen(ELLIPSIS) == 3;
    assert ELLIPSIS[3..] == "";
    ConcatValid("\n", ELLIPSIS);
    ConcatValid("\n" + ELLIPSIS, ascii);
  }

  lemma {:induction false} AsciiValid(s: string)
    requires forall i :: 0 <= i < |s| ==> s[i] <= '\U{7F}'
    ensures ValidUtf8(s)
    decreases |s|
  {
    if s != "" {
      AsciiValid(s[1..]);
    }
  }

  const MAX_PRESERVED_SKILL_BYTES := 2048
  const TRUNCATION_NOTE: string := "\n" + ELLIPSIS + " (truncated; re-load the skill for the full body)"

  /** capBody: a skill body within the byte budget, the note included. */
  function CapBody(body: string): (r: string)
    ensures |r| <= MAX_PRESERVED_SKILL_BYTES
    ensures |body| <= MAX_PRESERVED_SKILL_BYTES ==> r == body
    ensures body != "" ==> r != ""
  {
    if |body| <= MAX_PRESERVED_SKILL_BYTES then body
    else body[..RuneBack(body, MAX_PRESERVED_SKILL_BYTES - |TRUNCATION_NOTE|)] + TRUNCATION_NOTE
  }

  /** A body that is too long is cut in front of the last character that starts within the budget, the
      note following. */
  lemma CapBodyCuts(body: string) returns (m: nat)
    requires |body| > 2048
    ensures var room := 2048 - |TRUNCATION_NOTE|;
      && m <= room && CapBody(body) == body[..m] + TRUNCATION_NOTE
      && (m == 0 || RuneStart(body[m])) && forall j :: m < j <= room ==> !RuneStart(body[j])
  {
    m := RuneBack(body, MAX_PRESERVED_SKILL_BYTES - |TRUNCATION_NOTE|);
  }

  /** The cut never splits a character: what is kept of a valid body is valid text. */
  lemma CapBodyKeepsCharacters(body: string)
    requires ValidUtf8(body) && |body| > MAX_PRESERVED_SKILL_BYTES
    ensures
      var kept := body[..|CapBody(body)| - |TRUNCATION_NOTE|];
      CapBody(body) == kept + TRUNCATION_NOTE && ValidUtf8(kept)
  {
    CutValid(body, RuneBack(body, MAX_PRESERVED_SKILL_BYTES - |TRUNCATION_NOTE|));
  }
}
