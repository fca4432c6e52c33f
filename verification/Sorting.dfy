/** Sorting by a list of numeric criteria, as the comparators of the form
    `a.x - b.x || a.y - b.y || ...` and the two-column orderBy clauses do. */
module Sorting {
  import opened Common

  /** The values of the criteria, most significant first. */
  type Key = seq<int>

  predicate Less(a: Key, b: Key) {
    b != [] && (a == [] || a[0] < b[0] || (a[0] == b[0] && Less(a[1..], b[1..])))
  }

  /** One criterion decides, or the ones after it do. */
  lemma FirstCriterion(a: Key, b: Key)
    requires a != [] && b != []
    ensures Less(a, b) <==> a[0] < b[0] || (a[0] == b[0] && Less(a[1..], b[1..]))
  {
  }

  lemma {:induction false} LessIsTotal(a: Key, b: Key)
    ensures Less(a, b) || Less(b, a) || a == b
    ensures !(Less(a, b) && Less(b, a)) && !Less(a, a)
  {
    if a != [] {
      LessIsTotal(a[1..], a[1..]);
      if b != [] {
        LessIsTotal(a[1..], b[1..]);
        assert a[0] == b[0] && a[1..] == b[1..] ==> a == [a[0]] + a[1..] == b;
      }
    }
  }

  lemma {:induction false} LessIsTransitive(a: Key, b: Key, c: Key)
    requires Less(a, b) && Less(b, c)
    ensures Less(a, c)
  {
    if a != [] && a[0] == b[0] == c[0] {
      LessIsTransitive(a[1..], b[1..], c[1..]);
    }
  }

  /** Insert x before the first element that is not smaller. */
  function Insert<T>(x: T, s: seq<T>, key: T -> Key): seq<T> {
    if s == [] || !Less(key(s[0]), key(x)) then [x] + s else [s[0]] + Insert(x, s[1..], key)
  }

  function Sort<T>(s: seq<T>, key: T -> Key): seq<T> {
    if s == [] then [] else Insert(s[0], Sort(s[1..], key), key)
  }

  ghost predicate DistinctKeys<T(!new)>(s: seq<T>, key: T -> Key) {
    forall i, j | 0 <= i < j < |s| :: key(s[i]) != key(s[j])
  }

  ghost predicate Ascending<T(!new)>(s: seq<T>, key: T -> Key) {
    forall i, j | 0 <= i < j < |s| :: Less(key(s[i]), key(s[j]))
  }

  lemma {:induction false} InsertHolds<T(!new)>(x: T, s: seq<T>, key: T -> Key)
    ensures multiset(Insert(x, s, key)) == multiset{x} + multiset(s)
    ensures forall y :: y in Insert(x, s, key) <==> y == x || y in s
    ensures |Insert(x, s, key)| == |s| + 1
  {
    if s != [] && Less(key(s[0]), key(x)) {
      InsertHolds(x, s[1..], key);
      assert s == [s[0]] + s[1..];
    }
  }

  lemma {:induction false} InsertAscends<T(!new)>(x: T, s: seq<T>, key: T -> Key)
    requires Ascending(s, key) && forall y <- s :: key(y) != key(x)
    ensures Ascending(Insert(x, s, key), key)
  {
    if s == [] {
    } else if !Less(key(s[0]), key(x)) {
      forall j | 0 <= j < |s|
        ensures Less(key(x), key(s[j]))
      {
        LessIsTotal(key(x), key(s[0]));
        assert s[0] in s;
        if j > 0 {
          LessIsTransitive(key(x), key(s[0]), key(s[j]));
        }
      }
    } else {
      InsertAscends(x, s[1..], key);
      InsertHolds(x, s[1..], key);
      var rest := Insert(x, s[1..], key);
      forall j | 0 <= j < |rest|
        ensures Less(key(s[0]), key(rest[j]))
      {
        assert rest[j] in rest;
        if rest[j] != x {
          var m :| 0 <= m < |s[1..]| && s[1..][m] == rest[j];
          assert s[m + 1] == rest[j];
        }
      }
    }
  }

  lemma {:induction false} SortHolds<T(!new)>(s: seq<T>, key: T -> Key)
    ensures multiset(Sort(s, key)) == multiset(s)
    ensures forall y :: y in Sort(s, key) <==> y in s
    ensures |Sort(s, key)| == |s|
  {
    if s != [] {
      SortHolds(s[1..], key);
      InsertHolds(s[0], Sort(s[1..], key), key);
      assert s == [s[0]] + s[1..];
    }
  }

  lemma {:induction false} SortAscends<T(!new)>(s: seq<T>, key: T -> Key)
    requires DistinctKeys(s, key)
    ensures Ascending(Sort(s, key), key)
  {
    if s != [] {
      SortAscends(s[1..], key);
      SortHolds(s[1..], key);
      forall y <- Sort(s[1..], key)
        ensures key(y) != key(s[0])
      {
        var m :| 0 <= m < |s[1..]| && s[1..][m] == y;
        assert s[m + 1] == y;
      }
      InsertAscends(s[0], Sort(s[1..], key), key);
    }
  }

  lemma AscendingHead<T(!new)>(s: seq<T>, key: T -> Key, y: T)
    requires Ascending(s, key) && y in s
    ensures y == s[0] || Less(key(s[0]), key(y))
  {
  }

  lemma HeadOff<T(!new)>(s: seq<T>)
    requires s != []
    ensures multiset(s[1..]) == multiset(s) - multiset{s[0]}
  {
    assert s == [s[0]] + s[1..];
  }

  lemma SameHead<T(!new)>(a: seq<T>, b: seq<T>, key: T -> Key)
    requires Ascending(a, key) && Ascending(b, key) && multiset(a) == multiset(b) && a != []
    ensures b != [] && a[0] == b[0]
  {
    assert a[0] in multiset(b);
    assert b[0] in multiset(a);
    AscendingHead(a, key, b[0]);
    AscendingHead(b, key, a[0]);
    LessIsTotal(key(a[0]), key(b[0]));
  }

  lemma {:induction false} AscendingIsUnique<T(!new)>(a: seq<T>, b: seq<T>, key: T -> Key)
    requires Ascending(a, key) && Ascending(b, key) && multiset(a) == multiset(b)
    ensures a == b
  {
    if a == [] {
      assert |multiset(b)| == 0;
    } else {
      SameHead(a, b, key);
      HeadOff(a);
      HeadOff(b);
      AscendingIsUnique(a[1..], b[1..], key);
      assert a == [a[0]] + a[1..] && b == [b[0]] + b[1..];
    }
  }

  /** Rows with distinct keys sort to one list, however they arrive. */
  lemma SortIgnoresOrder<T(!new)>(a: seq<T>, b: seq<T>, key: T -> Key)
    requires DistinctKeys(a, key) && DistinctKeys(b, key) && multiset(a) == multiset(b)
    ensures Sort(a, key) == Sort(b, key)
  {
    SortAscends(a, key);
    SortAscends(b, key);
    SortHolds(a, key);
    SortHolds(b, key);
    AscendingIsUnique(Sort(a, key), Sort(b, key), key);
  }

  /** Array.prototype.find. */
  function Find<T>(s: seq<T>, p: T -> bool): Option<T> {
    if s == [] then None else if p(s[0]) then Some(s[0]) else Find(s[1..], p)
  }

  function Filter<T>(s: seq<T>, p: T -> bool): seq<T> {
    if s == [] then [] else (if p(s[0]) then [s[0]] else []) + Filter(s[1..], p)
  }

  lemma {:induction false} FilterHolds<T(!new)>(s: seq<T>, p: T -> bool)
    ensures forall y :: y in Filter(s, p) <==> y in s && p(y)
  {
    if s != [] {
      FilterHolds(s[1..], p);
    }
  }

  lemma {:induction false} FilterAscends<T(!new)>(s: seq<T>, key: T -> Key, p: T -> bool)
    requires Ascending(s, key)
    ensures Ascending(Filter(s, p), key)
  {
    if s != [] {
      FilterAscends(s[1..], key, p);
      FilterHolds(s[1..], p);
      var rest := Filter(s[1..], p);
      forall j | 0 <= j < |rest|
        ensures Less(key(s[0]), key(rest[j]))
      {
        assert rest[j] in rest;
        var m :| 0 <= m < |s[1..]| && s[1..][m] == rest[j];
        assert s[m + 1] == rest[j];
      }
      assert p(s[0]) ==> Filter(s, p) == [s[0]] + rest;
      assert !p(s[0]) ==> Filter(s, p) == rest;
    }
  }

  /** In ascending order the first element with a property is the least one. */
  lemma {:induction false} FindIsLeast<T(!new)>(s: seq<T>, key: T -> Key, p: T -> bool)
    requires Ascending(s, key)
    ensures Find(s, p).None? <==> forall y <- s :: !p(y)
    ensures Find(s, p).Some? ==>
      var x := Find(s, p).value;
      x in s && p(x) && forall y <- s :: p(y) && y != x ==> Less(key(x), key(y))
  {
    if s != [] && !p(s[0]) {
      FindIsLeast(s[1..], key, p);
      assert s == [s[0]] + s[1..];
    }
  }

  function Map<A, B>(s: seq<A>, f: A -> B): seq<B> {
    if s == [] then [] else [f(s[0])] + Map(s[1..], f)
  }

  lemma {:induction false} MapHolds<A, B>(s: seq<A>, f: A -> B)
    ensures |Map(s, f)| == |s|
    ensures forall i | 0 <= i < |s| :: Map(s, f)[i] == f(s[i])
  {
    if s != [] {
      MapHolds(s[1..], f);
    }
  }

  lemma MapMembers<A(!new), B(!new)>(s: seq<A>, f: A -> B)
    ensures forall y <- Map(s, f) :: exists x <- s :: y == f(x)
    ensures forall x <- s :: f(x) in Map(s, f)
  {
    MapHolds(s, f);
    forall y <- Map(s, f)
      ensures exists x <- s :: y == f(x)
    {
      var i :| 0 <= i < |s| && Map(s, f)[i] == y;
      assert s[i] in s;
    }
    forall x <- s
      ensures f(x) in Map(s, f)
    {
      var i :| 0 <= i < |s| && s[i] == x;
      assert Map(s, f)[i] == f(x);
    }
  }

  lemma TakeOut<T(!new)>(s: seq<T>, i: nat)
    requires i < |s|
    ensures multiset(s) == multiset{s[i]} + multiset(s[..i] + s[i + 1..])
  {
    assert s == s[..i] + [s[i]] + s[i + 1..];
  }

  lemma {:induction false} MapConcat<A, B>(s: seq<A>, t: seq<A>, f: A -> B)
    ensures Map(s + t, f) == Map(s, f) + Map(t, f)
  {
    if s == [] {
      assert s + t == t && Map(s, f) + Map(t, f) == Map(t, f);
    } else {
      var both, rest := s + t, s[1..];
      assert both[0] == s[0] && both[1..] == rest + t;
      MapConcat(rest, t, f);
      assert Map(both, f) == [f(s[0])] + (Map(rest, f) + Map(t, f));
    }
  }

  lemma MapTakesOut<A(!new), B(!new)>(s: seq<A>, f: A -> B, i: nat)
    requires i < |s|
    ensures multiset(Map(s, f)) == multiset{f(s[i])} + multiset(Map(s[..i] + s[i + 1..], f))
  {
    var before, after := s[..i], s[i + 1..];
    assert s == before + [s[i]] + after;
    MapConcat(before + [s[i]], after, f);
    MapConcat(before, [s[i]], f);
    MapConcat(before, after, f);
    assert Map([s[i]], f) == [f(s[i])];
  }

  /** Mapping a permutation gives a permutation. */
  lemma {:induction false} MapPermutes<A(!new), B(!new)>(s: seq<A>, t: seq<A>, f: A -> B)
    requires multiset(s) == multiset(t)
    ensures multiset(Map(s, f)) == multiset(Map(t, f))
    decreases |s|
  {
    if s == [] {
      assert |multiset(t)| == 0;
    } else {
      assert s[0] in multiset(t);
      var i :| 0 <= i < |t| && t[i] == s[0];
      var rest := t[..i] + t[i + 1..];
      TakeOut(t, i);
      HeadOff(s);
      MapPermutes(s[1..], rest, f);
      MapTakesOut(t, f, i);
      assert Map(s, f) == [f(s[0])] + Map(s[1..], f);
    }
  }
}
