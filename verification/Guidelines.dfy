/** The byte budget of the project guidelines in the system prompt (projectGuidelines in
    system_prompt.go). */
module Guidelines {
  import opened Basics
  import opened Utf8

  const MAX_FILE_BYTES := 8 * 1024
  const MAX_TOTAL_BYTES := 32 * 1024

  /** The files on the way from the root to the working directory; None where none can be read. */
  function Contents(files: seq<Option<string>>): seq<string> {
    if files == [] then []
    else (if files[0].Some? && Trim(files[0].value) != "" then [Trim(files[0].value)] else []) + Contents(files[1..])
  }

  function Total(parts: seq<string>): nat {
    if parts == [] then 0 else |parts[0]| + Total(parts[1..])
  }

  function Limit(used: int): int {
    if MAX_TOTAL_BYTES - used < MAX_FILE_BYTES then MAX_TOTAL_BYTES - used else MAX_FILE_BYTES
  }

  /** What goes into the prompt when `used` bytes are in it already. */
  function Budgeted(contents: seq<string>, used: int): seq<string> {
    if contents == [] || used >= MAX_TOTAL_BYTES then []
    else
      var part := TruncatedGuideline(contents[0], Limit(used));
      [part] + Budgeted(contents[1..], used + |part|)
  }

  /** The loop of projectGuidelines, general to specific. */
  method ProjectGuidelines(files: seq<Option<string>>) returns (parts: seq<string>)
    ensures parts == Budgeted(Contents(files), 0)
  {
    hide Trim, TruncatedGuideline, Contents, Budgeted, ValidUtf8;
    parts := [];
    var totalUsed := 0;
    assert files[0..] == files;
    for i := 0 to |files|
      invariant 0 <= totalUsed
      invariant Budgeted(Contents(files), 0) == parts + Budgeted(Contents(files[i..]), totalUsed)
    {
      if totalUsed >= MAX_TOTAL_BYTES {
        NothingLeft(files[i..], totalUsed);
        return;
      }
      assert files[i..][1..] == files[i + 1..];
      NextFile(files[i..], totalUsed);
      if files[i].Some? {
        var content := Trim(files[i].value);
        if content != "" {
          var limit := MAX_FILE_BYTES;
          if MAX_TOTAL_BYTES - totalUsed < limit {
            limit := MAX_TOTAL_BYTES - totalUsed;
          }
          content := TruncateGuidelineContent(content, limit);
          OneMorePart(parts, content, Budgeted(Contents(files[i + 1..]), totalUsed + |content|));
          parts := parts + [content];
          totalUsed := totalUsed + |content|;
        }
      }
    }
    NothingLeft(files[|files|..], totalUsed);
  }

  lemma OneMorePart(parts: seq<string>, part: string, rest: seq<string>)
    ensures parts + ([part] + rest) == parts + [part] + rest
  {
  }

  lemma NothingLeft(files: seq<Option<string>>, used: int)
    requires files == [] || used >= MAX_TOTAL_BYTES
    ensures Budgeted(Contents(files), used) == []
  {
  }

  lemma NextFile(files: seq<Option<string>>, used: int)
    requires files != [] && used < MAX_TOTAL_BYTES
    ensures if files[0].Some? && Trim(files[0].value) != "" then
        var part := TruncatedGuideline(Trim(files[0].value), Limit(used));
        Budgeted(Contents(files), used) == [part] + Budgeted(Contents(files[1..]), used + |part|)
      else Contents(files) == Contents(files[1..])
  {
    hide Trim, TruncatedGuideline;
    if files[0].Some? && Trim(files[0].value) != "" {
      var c := Trim(files[0].value);
      assert Contents(files) == [c] + Contents(files[1..]);
      assert Contents(files)[1..] == Contents(files[1..]);
    } else {
      assert Contents(files) == [] + Contents(files[1..]);
    }
  }

  // ---- which files, and how much of each ----

  /** A file that can be read and is not blank gives its text, trimmed; any other gives nothing. */
  lemma ContentsOfFile(file: Option<string>)
    ensures Contents([file]) == if file.Some? && Trim(file.value) != "" then [Trim(file.value)] else []
  {
    hide Trim;
    assert [file][1..] == [];
    assert Contents([]) == [];
  }

  /** The files give theirs one behind the other. */
  lemma {:induction false} ContentsConcat(a: seq<Option<string>>, b: seq<Option<string>>)
    ensures Contents(a + b) == Contents(a) + Contents(b)
    decreases |a|
  {
    hide Trim;
    if a == [] {
      assert a + b == b;
    } else {
      assert (a + b)[1..] == a[1..] + b;
      ContentsConcat(a[1..], b);
      var own := if a[0].Some? && Trim(a[0].value) != "" then [Trim(a[0].value)] else [];
      assert Contents(a + b) == own + (Contents(a[1..]) + Contents(b));
    }
  }

  /** Each part is its file within what is left of both budgets, and files are left out only behind the
      last byte of the budget. */
  lemma {:induction false} PartsSpend(contents: seq<string>, used: nat, k: nat)
    requires used <= 32768 && k < |Budgeted(contents, used)|
    ensures var parts := Budgeted(contents, used);
      var left := 32768 - used - Total(parts[..k]);
      && |parts| <= |contents| && left > 0
      && parts[k] == TruncatedGuideline(contents[k], if left < 8192 then left else 8192)
      && (|parts| < |contents| ==> used + Total(parts) >= 32768)
    decreases |contents|
  {
    hide TruncatedGuideline;
    var part := TruncatedGuideline(contents[0], Limit(used));
    CutFits(contents[0], Limit(used));
    var parts, rest := Budgeted(contents, used), Budgeted(contents[1..], used + |part|);
    assert parts == [part] + rest && parts[1..] == rest;
    if k == 0 {
      assert parts[..0] == [];
      SpentOrDone(contents[1..], used + |part|);
    } else {
      PartsSpend(contents[1..], used + |part|, k - 1);
      assert parts[..k][1..] == rest[..k - 1];
    }
  }

  lemma {:induction false} SpentOrDone(contents: seq<string>, used: nat)
    requires used <= 32768
    ensures var parts := Budgeted(contents, used);
      |parts| <= |contents| && (|parts| < |contents| ==> used + Total(parts) >= 32768)
    decreases |contents|
  {
    hide TruncatedGuideline;
    if contents != [] && used < MAX_TOTAL_BYTES {
      CutFits(contents[0], Limit(used));
      var part := TruncatedGuideline(contents[0], Limit(used));
      SpentOrDone(contents[1..], used + |part|);
      assert Budgeted(contents, used)[1..] == Budgeted(contents[1..], used + |part|);
    }
  }

  lemma CutFits(content: string, limit: int)
    requires 0 <= limit
    ensures |TruncatedGuideline(content, limit)| <= limit
    ensures TruncatedGuideline(content, limit) == content <==> |content| <= limit
  {
  }

  /** Whatever the files: both budgets hold, and the parts stand for the first files, in order. */
  lemma {:induction false} BudgetsHold(contents: seq<string>, used: nat)
    requires used <= MAX_TOTAL_BYTES
    ensures var parts := Budgeted(contents, used);
      && used + Total(parts) <= MAX_TOTAL_BYTES && |parts| <= |contents|
      && forall i :: 0 <= i < |parts| ==> |parts[i]| <= MAX_FILE_BYTES
    decreases |contents|
  {
    hide TruncatedGuideline;
    if contents != [] && used < MAX_TOTAL_BYTES {
      CutFits(contents[0], Limit(used));
      var part := TruncatedGuideline(contents[0], Limit(used));
      BudgetsHold(contents[1..], used + |part|);
      assert Budgeted(contents, used)[1..] == Budgeted(contents[1..], used + |part|);
    }
  }

  /** Nothing is cut or left out exactly when every file and all of them together fit. */
  lemma {:induction false} NothingCutIff(contents: seq<string>, used: nat)
    requires used <= MAX_TOTAL_BYTES && forall i :: 0 <= i < |contents| ==> contents[i] != ""
    ensures Budgeted(contents, used) == contents <==>
      used + Total(contents) <= MAX_TOTAL_BYTES && forall i :: 0 <= i < |contents| ==> |contents[i]| <= MAX_FILE_BYTES
    decreases |contents|
  {
    hide TruncatedGuideline;
    if contents != [] {
      assert contents[0] != "";
      if used < MAX_TOTAL_BYTES {
        CutFits(contents[0], Limit(used));
        var part := TruncatedGuideline(contents[0], Limit(used));
        var rest := Budgeted(contents[1..], used + |part|);
        assert Budgeted(contents, used) == [part] + rest && contents == [contents[0]] + contents[1..];
        NothingCutIff(contents[1..], used + |part|);
        assert ([part] + rest)[1..] == rest && ([part] + rest)[0] == part;
      }
    }
  }
}
