/** Bytewise string order, and what the library's sort leaves: an ascending list, of which there
    is only one. */
module Order {
  import opened Basics

  predicate Le(a: string, b: string) {
    a == "" || (b != "" && (a[0] < b[0] || (a[0] == b[0] && Le(a[1..], b[1..]))))
  }

  predicate Lt(a: string, b: string) {
    Le(a, b) && a != b
  }

  lemma {:induction false} LeTotal(a: string, b: string)
    ensures Le(a, b) || Le(b, a)
    ensures Le(a, b) && Le(b, a) ==> a == b
    decreases |a|
  {
    if a != "" && b != "" && a[0] == b[0] {
      LeTotal(a[1..], b[1..]);
    }
  }

  lemma {:induction false} LeTransitive(a: string, b: string, c: string)
    requires Le(a, b) && Le(b, c)
    ensures Le(a, c)
    decreases |a|
  {
    if a != "" && a[0] == b[0] == c[0] {
      LeTransitive(a[1..], b[1..], c[1..]);
    }
  }

  lemma LtTransitive(a: string, b: string, c: string)
    requires Lt(a, b) && Lt(b, c)
    ensures Lt(a, c)
  {
    LeTransitive(a, b, c);
    LeTotal(a, b);
  }

  /** Keys in strictly ascending order. */
  predicate Ascending<T>(s: seq<T>, key: T -> string) {
    forall i, j :: 0 <= i < j < |s| ==> Lt(key(s[i]), key(s[j]))
  }

  lemma FirstIsLeast<T>(s: seq<T>, t: seq<T>, key: T -> string)
    requires Ascending(s, key) && Ascending(t, key) && s != [] && t != []
    requires s[0] in t && t[0] in s
    ensures s[0] == t[0]
  {
    hide Le;
    var i :| 0 <= i < |t| && t[i] == s[0];
    var j :| 0 <= j < |s| && s[j] == t[0];
    LeTotal(key(s[0]), key(t[0]));
    assert i > 0 ==> Lt(key(t[0]), key(t[i]));
    assert j > 0 ==> Lt(key(s[0]), key(s[j]));
  }

  lemma SameEmptiness<T>(s: seq<T>, t: seq<T>)
    requires forall x :: x in s <==> x in t
    ensures s == [] <==> t == []
  {
    if |s| > 0 {
      assert s[0] in s;
    }
    if |t| > 0 {
      assert t[0] in t;
    }
  }

  /** Two ascending lists with the same members are the same list. */
  lemma {:induction false} AscendingIsUnique<T>(s: seq<T>, t: seq<T>, key: T -> string)
    requires Ascending(s, key) && Ascending(t, key)
    requires forall x :: x in s <==> x in t
    ensures s == t
    decreases |s|
  {
    hide Le;
    if s == [] || t == [] {
      SameEmptiness(s, t);
    } else {
      FirstIsLeast(s, t, key);
      forall x ensures x in s[1..] <==> x in t[1..] {
        HeadOnlyOnce(s, key, x);
        HeadOnlyOnce(t, key, x);
      }
      AscendingIsUnique(s[1..], t[1..], key);
      assert s == [s[0]] + s[1..] && t == [t[0]] + t[1..];
    }
  }

  lemma HeadOnlyOnce<T>(s: seq<T>, key: T -> string, x: T)
    requires Ascending(s, key) && s != []
    ensures x in s[1..] <==> x in s && x != s[0]
  {
    hide Le;
    if x in s[1..] {
      var i :| 0 <= i < |s| - 1 && s[1..][i] == x;
      assert Lt(key(s[0]), key(s[i + 1]));
    }
    if x in s && x != s[0] {
      var i :| 0 <= i < |s| && s[i] == x;
      assert s[1..][i - 1] == x;
    }
  }

  lemma AscendingJoins<T>(a: seq<T>, x: T, b: seq<T>, key: T -> string)
    requires Ascending(a + b, key)
    requires forall i :: 0 <= i < |a| ==> Lt(key(a[i]), key(x))
    requires forall i :: 0 <= i < |b| ==> Lt(key(x), key(b[i]))
    ensures Ascending(a + [x] + b, key)
  {
    hide Le;
    var all := a + [x] + b;
    forall i, j | 0 <= i < j < |all| ensures Lt(key(all[i]), key(all[j])) {
      var i', j' := if i <= |a| then i else i - 1, if j <= |a| then j else j - 1;
      if i != |a| && j != |a| {
        assert all[i] == (a + b)[i'] && all[j] == (a + b)[j'];
      }
    }
  }

  /** Where `x` goes in an ascending list that does not hold its key. */
  method Insert<T>(s: seq<T>, x: T, key: T -> string) returns (r: seq<T>)
    requires Ascending(s, key) && forall i :: 0 <= i < |s| ==> key(s[i]) != key(x)
    ensures Ascending(r, key)
    ensures forall y :: y in r <==> y in s || y == x
  {
    hide Le;
    var i := 0;
    while i < |s| && Lt(key(s[i]), key(x))
      invariant 0 <= i <= |s|
      invariant forall k :: 0 <= k < i ==> Lt(key(s[k]), key(x))
    {
      i := i + 1;
    }
    if i < |s| {
      LeTotal(key(s[i]), key(x));
      forall k | i <= k < |s| ensures Lt(key(x), key(s[k])) {
        if k > i {
          LtTransitive(key(x), key(s[i]), key(s[k]));
        }
      }
    }
    assert s == s[..i] + s[i..];
    AscendingJoins(s[..i], x, s[i..], key);
    r := s[..i] + [x] + s[i..];
  }

  /** sort.Strings and sort.Slice, on lists without repeated keys. */
  method SortBy<T>(items: seq<T>, key: T -> string) returns (r: seq<T>)
    requires forall i, j :: 0 <= i < j < |items| ==> key(items[i]) != key(items[j])
    ensures Ascending(r, key)
    ensures forall y :: y in r <==> y in items
  {
    hide Le, Ascending;
    r := [];
    NothingAscends(key);
    for i := 0 to |items|
      invariant Ascending(r, key)
      invariant forall y :: y in r <==> y in items[..i]
    {
      forall k | 0 <= k < |r| ensures key(r[k]) != key(items[i]) {
        assert r[k] in items[..i];
      }
      r := Insert(r, items[i], key);
      assert items[..i + 1] == items[..i] + [items[i]];
    }
    assert items[..|items|] == items;
  }

  lemma NothingAscends<T>(key: T -> string)
    ensures Ascending([], key)
  {
  }
}
