/** The order algebra behind preserved state: lists of named entries in which a name
    stands once, at its last touch (file edits) or at its first load (skills, tools). */
module LastSeen {
  import opened Basics

  datatype Entry = Entry(name: string, body: string)

  function Names(log: seq<Entry>): (r: seq<string>)
    ensures |r| == |log|
    ensures forall i :: 0 <= i < |log| ==> r[i] == log[i].name
  {
    seq(|log|, i requires 0 <= i < |log| => log[i].name)
  }

  lemma NamesConcat(a: seq<Entry>, b: seq<Entry>)
    ensures Names(a + b) == Names(a) + Names(b)
  {
  }

  /** Entries of `log` whose name is not among `names`, in their order. */
  function Minus(log: seq<Entry>, names: seq<string>): (r: seq<Entry>)
    ensures |r| <= |log|
  {
    if log == [] then []
    else (if log[0].name in names then [] else [log[0]]) + Minus(log[1..], names)
  }

  /** One entry a name, the last one written, at the place of that last write. */
  function LastTouch(log: seq<Entry>): (r: seq<Entry>)
    ensures |r| <= |log|
    ensures forall n :: n in Names(r) <==> n in Names(log)
  {
    if log == [] then []
    else
      var rest := LastTouch(log[1..]);
      assert Names(log) == [log[0].name] + Names(log[1..]);
      if log[0].name in Names(log[1..]) then rest
      else
        assert Names([log[0]] + rest) == [log[0].name] + Names(rest);
        [log[0]] + rest
  }

  lemma {:induction false} MinusMembers(log: seq<Entry>, names: seq<string>)
    ensures forall e :: e in Minus(log, names) <==> e in log && e.name !in names
    decreases |log|
  {
    if log != [] {
      MinusMembers(log[1..], names);
    }
  }

  lemma {:induction false} MinusNames(log: seq<Entry>, names: seq<string>)
    ensures forall n :: n in Names(Minus(log, names)) <==> n in Names(log) && n !in names
  {
    MinusMembers(log, names);
    forall n ensures n in Names(Minus(log, names)) <==> n in Names(log) && n !in names {
      if n in Names(log) && n !in names {
        var i :| 0 <= i < |log| && log[i].name == n;
        assert log[i] in Minus(log, names);
        var j :| 0 <= j < |Minus(log, names)| && Minus(log, names)[j] == log[i];
        assert Names(Minus(log, names))[j] == n;
      }
      if n in Names(Minus(log, names)) {
        var j :| 0 <= j < |Minus(log, names)| && Minus(log, names)[j].name == n;
        assert Minus(log, names)[j] in log;
        var i :| 0 <= i < |log| && log[i] == Minus(log, names)[j];
        assert Names(log)[i] == n;
      }
    }
  }

  lemma {:induction false} MinusConcat(a: seq<Entry>, b: seq<Entry>, names: seq<string>)
    ensures Minus(a + b, names) == Minus(a, names) + Minus(b, names)
    decreases |a|
  {
    if a == [] {
      assert a + b == b;
    } else {
      assert (a + b)[1..] == a[1..] + b;
      MinusConcat(a[1..], b, names);
      var own := if a[0].name in names then [] else [a[0]];
      assert Minus(a + b, names) == own + (Minus(a[1..], names) + Minus(b, names));
    }
  }

  lemma DistinctTail(log: seq<Entry>)
    requires log != [] && Distinct(Names(log))
    ensures Distinct(Names(log[1..])) && log[0].name !in Names(log[1..])
  {
    assert Names(log[1..]) == Names(log)[1..];
  }

  lemma DistinctPush(e: Entry, log: seq<Entry>)
    requires Distinct(Names(log)) && e.name !in Names(log)
    ensures Distinct(Names([e] + log))
  {
    assert Names([e] + log) == [e.name] + Names(log);
  }

  lemma {:induction false} LastTouchDistinct(log: seq<Entry>)
    ensures Distinct(Names(LastTouch(log)))
    decreases |log|
  {
    if log != [] {
      LastTouchDistinct(log[1..]);
      if log[0].name !in Names(log[1..]) {
        DistinctPush(log[0], LastTouch(log[1..]));
      }
    }
  }

  lemma MinusStep(e: Entry, log: seq<Entry>, names: seq<string>)
    ensures Minus([e] + log, names) == (if e.name in names then [] else [e]) + Minus(log, names)
  {
    assert ([e] + log)[1..] == log;
  }

  lemma LastTouchStep(e: Entry, log: seq<Entry>)
    ensures LastTouch([e] + log) == if e.name in Names(log) then LastTouch(log) else [e] + LastTouch(log)
  {
    assert ([e] + log)[1..] == log;
  }

  /** Writing `b` after `a` keeps of `a` what `b` does not touch, ahead of `b`. */
  lemma {:induction false} LastTouchConcat(a: seq<Entry>, b: seq<Entry>)
    ensures LastTouch(a + b) == Minus(LastTouch(a), Names(b)) + LastTouch(b)
    decreases |a|
  {
    if a == [] {
      assert a + b == b;
    } else {
      var e, rest := a[0], a[1..];
      assert a == [e] + rest;
      LastTouchConcat(rest, b);
      TouchAhead(e, rest, b);
      Prepend(e, rest, b);
    }
  }

  lemma TouchAhead(e: Entry, rest: seq<Entry>, b: seq<Entry>)
    requires LastTouch(rest + b) == Minus(LastTouch(rest), Names(b)) + LastTouch(b)
    ensures LastTouch([e] + (rest + b)) == Minus(LastTouch([e] + rest), Names(b)) + LastTouch(b)
  {
    LastTouchStep(e, rest + b);
    LastTouchStep(e, rest);
    NamesConcat(rest, b);
    if e.name !in Names(rest) {
      TouchOneMore(e, LastTouch(rest), Names(b), LastTouch(b));
    }
  }

  lemma TouchOneMore(e: Entry, la: seq<Entry>, names: seq<string>, end: seq<Entry>)
    ensures Minus([e] + la, names) + end
         == if e.name in names then Minus(la, names) + end else [e] + (Minus(la, names) + end)
  {
    MinusStep(e, la, names);
    if e.name in names {
      assert [] + Minus(la, names) == Minus(la, names);
    } else {
      Prepend(e, Minus(la, names), end);
    }
  }

  lemma Prepend(e: Entry, x: seq<Entry>, y: seq<Entry>)
    ensures [e] + x + y == [e] + (x + y)
  {
  }

  /** Removing names costs a list of distinct names at most one entry a name removed. */
  lemma {:induction false} MinusShrinks(log: seq<Entry>, names: seq<string>)
    requires Distinct(Names(log))
    ensures |Minus(log, names)| + |names| >= |log|
    decreases |log|
  {
    if log != [] {
      DistinctTail(log);
      if log[0].name in names {
        var i :| 0 <= i < |names| && names[i] == log[0].name;
        var others := names[..i] + names[i + 1..];
        MinusShrinks(log[1..], others);
        MinusAgrees(log[1..], names, others);
      } else {
        MinusShrinks(log[1..], names);
      }
    }
  }

  lemma {:induction false} MinusAgrees(log: seq<Entry>, p: seq<string>, q: seq<string>)
    requires forall e :: e in log ==> (e.name in p <==> e.name in q)
    ensures Minus(log, p) == Minus(log, q)
    decreases |log|
  {
    if log != [] {
      assert log[0] in log;
      MinusAgrees(log[1..], p, q);
    }
  }

  /** Capping before the merge loses nothing the cap after the merge would keep. */
  lemma CapCommutesWithOverlay(older: seq<Entry>, newer: seq<Entry>, k: nat)
    requires Distinct(Names(older))
    ensures Tail(Minus(Tail(older, k), Names(newer)) + newer, k)
         == Tail(Minus(older, Names(newer)) + newer, k)
  {
    if |older| > k {
      var names := Names(newer);
      var head, tail := older[..|older| - k], older[|older| - k..];
      assert Names(tail) == Names(older)[|older| - k..];
      MinusShrinks(tail, names);
      assert older == head + tail;
      MinusConcat(head, tail, names);
      CutBehind(Minus(head, names), Minus(tail, names), newer, k);
    }
  }

  lemma CutBehind(head: seq<Entry>, mid: seq<Entry>, end: seq<Entry>, k: nat)
    requires |mid| + |end| >= k
    ensures Tail(head + mid + end, k) == Tail(mid + end, k)
  {
    assert head + mid + end == head + (mid + end);
    TailOfConcat(head, mid + end, k);
  }

  /** Overlaying a capped newer list is enough too: beyond the cap nothing older survives. */
  lemma CapNewerFirst(older: seq<Entry>, newer: seq<Entry>, k: nat)
    ensures Tail(Minus(older, Names(Tail(newer, k))) + Tail(newer, k), k)
         == Tail(Minus(older, Names(newer)) + newer, k)
  {
    if |newer| > k {
      TailOfConcat(Minus(older, Names(Tail(newer, k))), Tail(newer, k), k);
      TailOfConcat(Minus(older, Names(newer)), newer, k);
    }
  }

  /** The lossless-cap theorem: cap each part, overlay, cap again; or do it all at once. */
  lemma CappedOverlayIsOnePass(a: seq<Entry>, b: seq<Entry>, k: nat)
    ensures
      var older, newer := Tail(LastTouch(a), k), Tail(LastTouch(b), k);
      Tail(Minus(older, Names(newer)) + newer, k) == Tail(LastTouch(a + b), k)
  {
    var la, lb := LastTouch(a), LastTouch(b);
    LastTouchDistinct(a);
    CapCommutesWithOverlay(la, Tail(lb, k), k);
    CapNewerFirst(la, lb, k);
    LastTouchConcat(a, b);
    MinusAgrees(la, Names(b), Names(lb));
  }

  // ---- first place, newest body ----

  /** The newest body written under `name`. */
  function Newest(log: seq<Entry>, name: string): string
    requires name in Names(log)
  {
    var last := log[|log| - 1];
    if last.name == name then last.body
    else
      assert Names(log) == Names(log[..|log| - 1]) + [last.name];
      Newest(log[..|log| - 1], name)
  }

  /** One entry a name, at its first place, with the newest body. */
  function FirstPlace(log: seq<Entry>): (r: seq<Entry>)
    ensures forall n :: n in Names(r) <==> n in Names(log)
  {
    if log == [] then []
    else
      var last, before := log[|log| - 1], log[..|log| - 1];
      assert Names(log) == Names(before) + [last.name];
      var r := FirstPlace(before);
      if last.name in Names(before) then Rebody(r, last)
      else
        assert Names(r + [last]) == Names(r) + [last.name];
        r + [last]
  }

  function Rebody(log: seq<Entry>, e: Entry): (r: seq<Entry>)
    ensures |r| == |log| && Names(r) == Names(log)
    ensures forall i :: 0 <= i < |log| ==> r[i] == if log[i].name == e.name then e else log[i]
  {
    seq(|log|, i requires 0 <= i < |log| => if log[i].name == e.name then e else log[i])
  }

  /** Put one more entry on a list of distinct names. */
  function Upsert(log: seq<Entry>, e: Entry): seq<Entry> {
    if e.name in Names(log) then Rebody(log, e) else log + [e]
  }

  /** Overlay: known names keep their place and take the new body, new names go last. */
  function Overlay(older: seq<Entry>, newer: seq<Entry>): seq<Entry>
    decreases |newer|
  {
    if newer == [] then older
    else Upsert(Overlay(older, newer[..|newer| - 1]), newer[|newer| - 1])
  }

  lemma {:induction false} FirstPlaceDistinct(log: seq<Entry>)
    ensures Distinct(Names(FirstPlace(log)))
    decreases |log|
  {
    if log != [] {
      var before := log[..|log| - 1];
      FirstPlaceDistinct(before);
      var r, last := FirstPlace(before), log[|log| - 1];
      if last.name !in Names(before) {
        assert Names(r + [last]) == Names(r) + [last.name];
      }
    }
  }

  lemma FirstPlaceStep(log: seq<Entry>, e: Entry)
    ensures FirstPlace(log + [e]) == Upsert(FirstPlace(log), e)
  {
    assert (log + [e])[..|log|] == log;
  }

  /** What each place holds: the body written last under that name. */
  lemma {:induction false} FirstPlaceHoldsNewest(log: seq<Entry>, i: nat)
    requires i < |FirstPlace(log)|
    ensures FirstPlace(log)[i].name in Names(log)
    ensures FirstPlace(log)[i].body == Newest(log, FirstPlace(log)[i].name)
    decreases |log|
  {
    var e := FirstPlace(log)[i];
    assert Names(FirstPlace(log))[i] == e.name;
    var last, before := log[|log| - 1], log[..|log| - 1];
    var r := FirstPlace(before);
    if i < |r| {
      FirstPlaceHoldsNewest(before, i);
      assert Names(log) == Names(before) + [last.name];
    }
  }

  /** Reading `a` then `b` in one pass is overlaying the digest of `b` on that of `a`. */
  lemma {:induction false} OverlayIsOnePass(a: seq<Entry>, b: seq<Entry>)
    ensures Overlay(FirstPlace(a), FirstPlace(b)) == FirstPlace(a + b)
    decreases |b|
  {
    if b == [] {
      assert a + b == a;
    } else {
      var last, before := b[|b| - 1], b[..|b| - 1];
      assert b == before + [last];
      assert a + b == (a + before) + [last];
      OverlayIsOnePass(a, before);
      FirstPlaceStep(a + before, last);
      FirstPlaceStep(before, last);
      FirstPlaceDistinct(before);
      OverlayUpsert(FirstPlace(a), FirstPlace(before), last);
    }
  }

  lemma {:induction false} OverlayNames(older: seq<Entry>, newer: seq<Entry>)
    ensures forall n :: n in Names(Overlay(older, newer)) <==> n in Names(older) || n in Names(newer)
    decreases |newer|
  {
    if newer != [] {
      var last, before := newer[|newer| - 1], newer[..|newer| - 1];
      OverlayNames(older, before);
      var r := Overlay(older, before);
      assert Names(newer) == Names(before) + [last.name];
      assert Names(r + [last]) == Names(r) + [last.name];
    }
  }

  lemma {:induction false} OverlayUpsert(older: seq<Entry>, newer: seq<Entry>, e: Entry)
    requires Distinct(Names(newer))
    ensures Overlay(older, Upsert(newer, e)) == Upsert(Overlay(older, newer), e)
    decreases |newer|
  {
    if e.name !in Names(newer) {
      assert (newer + [e])[..|newer|] == newer;
    } else {
      var last, before := newer[|newer| - 1], newer[..|newer| - 1];
      var up := Upsert(newer, e);
      assert Names(before) == Names(newer)[..|before|];
      if last.name == e.name {
        assert e.name !in Names(before);
        assert up[..|up| - 1] == before && up[|up| - 1] == e;
        UpsertTwice(Overlay(older, before), last, e);
      } else {
        assert Names(newer) == Names(before) + [last.name];
        OverlayUpsert(older, before, e);
        assert up[..|up| - 1] == Upsert(before, e) && up[|up| - 1] == last;
        OverlayNames(older, before);
        UpsertsCommute(Overlay(older, before), last, e);
      }
    }
  }

  lemma UpsertTwice(log: seq<Entry>, e: Entry, f: Entry)
    requires e.name == f.name
    ensures Upsert(Upsert(log, e), f) == Upsert(log, f)
  {
    if e.name in Names(log) {
      assert Upsert(Upsert(log, e), f) == Upsert(log, f);
    } else {
      assert Names(log + [e]) == Names(log) + [e.name];
      assert forall i :: 0 <= i < |log| ==> log[i].name == Names(log)[i];
      assert Rebody(log + [e], f) == log + [f];
    }
  }

  lemma UpsertsCommute(log: seq<Entry>, e: Entry, f: Entry)
    requires e.name != f.name && f.name in Names(log)
    ensures Upsert(Upsert(log, f), e) == Upsert(Upsert(log, e), f)
  {
    assert Names(log + [e]) == Names(log) + [e.name];
    if e.name in Names(log) {
      assert Rebody(Rebody(log, f), e) == Rebody(Rebody(log, e), f);
    } else {
      assert Rebody(log, f) + [e] == Rebody(log + [e], f);
    }
  }

  // ---- when two logs have one digest ----

  /** The names in the order of their first place. */
  function FirstSeen(names: seq<string>): seq<string> {
    if names == [] then []
    else
      var last, before := names[|names| - 1], names[..|names| - 1];
      FirstSeen(before) + if last in before then [] else [last]
  }

  lemma {:induction false} FirstPlaceNames(log: seq<Entry>)
    ensures Names(FirstPlace(log)) == FirstSeen(Names(log))
    decreases |log|
  {
    if log != [] {
      var last, before := log[|log| - 1], log[..|log| - 1];
      assert Names(log)[..|log| - 1] == Names(before);
      FirstPlaceNames(before);
      NamesConcat(FirstPlace(before), [last]);
    }
  }

  lemma {:induction false} FirstSeenMembers(names: seq<string>)
    ensures forall n :: n in FirstSeen(names) <==> n in names
    decreases |names|
  {
    if names != [] {
      FirstSeenMembers(names[..|names| - 1]);
    }
  }

  /** The names as first seen and the newest bodies are all that a digest tells of its log. */
  lemma SameDigestIff(a: seq<Entry>, b: seq<Entry>)
    ensures FirstPlace(a) == FirstPlace(b) <==>
      && FirstSeen(Names(a)) == FirstSeen(Names(b))
      && forall n :: n in Names(a) ==> n in Names(b) && Newest(a, n) == Newest(b, n)
  {
    hide Newest;
    FirstPlaceNames(a);
    FirstPlaceNames(b);
    var x, y := FirstPlace(a), FirstPlace(b);
    assert forall n :: n in Names(a) <==> n in Names(x);
    if x == y {
      forall n | n in Names(a) ensures n in Names(b) && Newest(a, n) == Newest(b, n) {
        assert n in Names(x);
        var i :| 0 <= i < |x| && Names(x)[i] == n;
        FirstPlaceHoldsNewest(a, i);
        FirstPlaceHoldsNewest(b, i);
      }
    } else if Names(x) == Names(y) {
      assert |Names(x)| == |Names(y)|;
      var i :| 0 <= i < |x| && x[i] != y[i];
      FirstPlaceHoldsNewest(a, i);
      FirstPlaceHoldsNewest(b, i);
      assert Names(x)[i] == Names(y)[i];
    }
  }
}
