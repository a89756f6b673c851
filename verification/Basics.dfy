/** Types and sequence facts every other module uses. */
module Basics {

  datatype Option<+T> = None | Some(value: T)

  datatype Result<+T> = Ok(value: T) | Err(error: string)

  predicate Distinct<T(==)>(s: seq<T>) {
    forall i, j :: 0 <= i < j < |s| ==> s[i] != s[j]
  }

  /** The last `k` elements, or all of them when there are fewer. */
  function Tail<T>(s: seq<T>, k: nat): seq<T> {
    if |s| <= k then s else s[|s| - k..]
  }

  /** Dropping a head never reaches the last `k` elements when enough follow it. */
  lemma TailOfConcat<T>(a: seq<T>, b: seq<T>, k: nat)
    requires |b| >= k
    ensures Tail(a + b, k) == Tail(b, k)
  {
  }

  predicate IsSpace(c: char) {
    c == ' ' || c == '\t' || c == '\n' || c == '\r' || c == '\U{0C}' || c == '\U{0B}'
  }

  function TrimLeft(s: string): (r: string)
    ensures |r| <= |s| && r == s[|s| - |r|..]
    ensures r != "" ==> !IsSpace(r[0])
  {
    if s != "" && IsSpace(s[0]) then TrimLeft(s[1..]) else s
  }

  function TrimRight(s: string): (r: string)
    ensures |r| <= |s| && r == s[..|r|]
    ensures r != "" ==> !IsSpace(r[|r| - 1])
  {
    if s != "" && IsSpace(s[|s| - 1]) then TrimRight(s[..|s| - 1]) else s
  }

  /** strings.TrimSpace on ASCII white space. */
  function Trim(s: string): string {
    TrimRight(TrimLeft(s))
  }

  /** Text that neither starts nor ends with a space is left alone. */
  lemma TrimUntouched(s: string)
    requires s != "" ==> !IsSpace(s[0]) && !IsSpace(s[|s| - 1])
    ensures Trim(s) == s
  {
    assert TrimLeft(s) == s;
    assert TrimRight(s) == s;
  }

  predicate HasPrefix(s: string, prefix: string) {
    prefix <= s
  }

  lemma {:induction false} TrimRightKeepsHead(head: string, rest: string)
    requires head != "" && !IsSpace(head[|head| - 1])
    ensures HasPrefix(TrimRight(head + rest), head)
    decreases |rest|
  {
    if rest == "" {
      assert head + rest == head;
    } else if IsSpace(rest[|rest| - 1]) {
      assert (head + rest)[..|head + rest| - 1] == head + rest[..|rest| - 1];
      TrimRightKeepsHead(head, rest[..|rest| - 1]);
    }
  }

  lemma TrimKeepsHead(head: string, rest: string)
    requires head != "" && !IsSpace(head[0]) && !IsSpace(head[|head| - 1])
    ensures HasPrefix(Trim(head + rest), head)
  {
    assert TrimLeft(head + rest) == head + rest;
    TrimRightKeepsHead(head, rest);
  }

  lemma {:induction false} TrimLeftAhead(a: string, b: string)
    ensures TrimLeft(a + b) == if TrimLeft(a) == "" then TrimLeft(b) else TrimLeft(a) + b
    decreases |a|
  {
    if a == "" {
      assert a + b == b;
    } else {
      assert (a + b)[1..] == a[1..] + b;
      TrimLeftAhead(a[1..], b);
    }
  }

  lemma {:induction false} TrimmedAway(s: string)
    requires s != "" && !IsSpace(s[0])
    ensures TrimRight(s) != ""
    decreases |s|
  {
    if IsSpace(s[|s| - 1]) {
      TrimmedAway(s[..|s| - 1]);
    }
  }

  /** Trimming takes the white space from both ends, and nothing else. */
  lemma TrimMeans(s: string) returns (ahead: string, behind: string)
    ensures s == ahead + Trim(s) + behind
    ensures forall i :: 0 <= i < |ahead| ==> IsSpace(ahead[i])
    ensures forall i :: 0 <= i < |behind| ==> IsSpace(behind[i])
    ensures Trim(s) != "" ==> !IsSpace(Trim(s)[0]) && !IsSpace(Trim(s)[|Trim(s)| - 1])
  {
    hide TrimLeft, TrimRight;
    var left := TrimLeft(s);
    LeftSpaces(s);
    RightSpaces(left);
    ahead, behind := s[..|s| - |left|], left[|Trim(s)|..];
    assert left == Trim(s) + behind;
    assert s == ahead + left;
    assert ahead + left == ahead + Trim(s) + behind;
    HeadSolid(left);
  }

  lemma HeadSolid(left: string)
    requires left != "" ==> !IsSpace(left[0])
    ensures TrimRight(left) != "" ==> !IsSpace(TrimRight(left)[0])
  {
    hide TrimRight;
  }

  lemma {:induction false} LeftSpaces(s: string)
    ensures forall i :: 0 <= i < |s| - |TrimLeft(s)| ==> IsSpace(s[i])
    decreases |s|
  {
    if s != "" && IsSpace(s[0]) {
      LeftSpaces(s[1..]);
      assert forall i :: 0 < i < |s| ==> s[i] == s[1..][i - 1];
    }
  }

  lemma {:induction false} RightSpaces(s: string)
    ensures forall i :: |TrimRight(s)| <= i < |s| ==> IsSpace(s[i])
    decreases |s|
  {
    if s != "" && IsSpace(s[|s| - 1]) {
      RightSpaces(s[..|s| - 1]);
    }
  }
}
