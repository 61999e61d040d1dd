/** Sorting by a string key. The library sorts of both languages are modelled by one stable
    sorting function; what is used of it is that the sorted order of distinct keys is unique. */
module Sorting {
  import opened Text

  ghost predicate Sorted<T>(s: seq<T>, key: T -> string) {
    forall i, j :: 0 <= i < j < |s| ==> Le(key(s[i]), key(s[j]))
  }

  ghost predicate StrictlySorted<T>(s: seq<T>, key: T -> string) {
    forall i, j :: 0 <= i < j < |s| ==> Less(key(s[i]), key(s[j]))
  }

  ghost predicate DistinctKeys<T>(s: seq<T>, key: T -> string) {
    forall i, j :: 0 <= i < j < |s| ==> key(s[i]) != key(s[j])
  }

  function Elements<T(==)>(s: seq<T>): set<T> { set x | x in s }

  function Insert<T>(x: T, s: seq<T>, key: T -> string): seq<T> {
    if s == [] || Le(key(x), key(s[0])) then [x] + s else [s[0]] + Insert(x, s[1..], key)
  }

  function Sort<T>(s: seq<T>, key: T -> string): seq<T> {
    if s == [] then [] else Insert(s[0], Sort(s[1..], key), key)
  }

  lemma {:induction false} InsertSorts<T>(x: T, s: seq<T>, key: T -> string)
    requires Sorted(s, key)
    ensures Sorted(Insert(x, s, key), key)
    ensures multiset(Insert(x, s, key)) == multiset{x} + multiset(s)
  {
    if s == [] {
    } else if Le(key(x), key(s[0])) {
      forall j | 0 <= j < |s| ensures Le(key(x), key(s[j])) {
        if j > 0 { LeTransitive(key(x), key(s[0]), key(s[j])); }
      }
    } else {
      LeTotal(key(x), key(s[0]));
      InsertSorts(x, s[1..], key);
      var rest := Insert(x, s[1..], key);
      assert s == [s[0]] + s[1..];
      forall j | 0 <= j < |rest| ensures Le(key(s[0]), key(rest[j])) {
        assert rest[j] in multiset(rest);
        assert rest[j] == x || rest[j] in s[1..];
      }
    }
  }

  lemma {:induction false} SortSorts<T>(s: seq<T>, key: T -> string)
    ensures Sorted(Sort(s, key), key)
    ensures multiset(Sort(s, key)) == multiset(s)
    ensures |Sort(s, key)| == |s|
  {
    if s != [] {
      SortSorts(s[1..], key);
      InsertSorts(s[0], Sort(s[1..], key), key);
      assert s == [s[0]] + s[1..];
    }
    assert |multiset(Sort(s, key))| == |multiset(s)|;
  }

  // The key tells the elements apart.
  ghost predicate Injective<T>(a: seq<T>, key: T -> string) {
    forall x, y :: x in a && y in a && key(x) == key(y) ==> x == y
  }

  lemma {:induction false} SameElements<T>(a: seq<T>, b: seq<T>)
    requires multiset(a) == multiset(b)
    ensures |a| == |b|
    ensures forall x :: x in a <==> x in b
  {
    assert |multiset(a)| == |a| && |multiset(b)| == |b|;
    forall x ensures x in a <==> x in b {
      assert x in a <==> x in multiset(a);
      assert x in b <==> x in multiset(b);
    }
  }

  lemma {:induction false} SortedHead<T>(a: seq<T>, x: T, key: T -> string)
    requires Sorted(a, key) && x in a
    ensures Le(key(a[0]), key(x))
  {
    var i :| 0 <= i < |a| && a[i] == x;
    if i == 0 { LeTotal(key(x), key(x)); }
  }

  lemma {:induction false} DropHead<T>(a: seq<T>, b: seq<T>)
    requires multiset(a) == multiset(b) && a != [] && b != [] && a[0] == b[0]
    ensures multiset(a[1..]) == multiset(b[1..])
  {
    assert a == [a[0]] + a[1..] && b == [b[0]] + b[1..];
    assert multiset(a[1..]) == multiset(a) - multiset{a[0]};
    assert multiset(b[1..]) == multiset(b) - multiset{b[0]};
  }

  // Two sorted arrangements of the same elements are the same sequence, when the key tells elements apart.
  lemma {:induction false} SortedUnique<T>(a: seq<T>, b: seq<T>, key: T -> string)
    requires Sorted(a, key) && Sorted(b, key) && multiset(a) == multiset(b) && Injective(a, key)
    ensures a == b
  {
    SameElements(a, b);
    if a != [] {
      assert a[0] in a && b[0] in b;
      SortedHead(a, b[0], key);
      SortedHead(b, a[0], key);
      LeAntisymmetric(key(a[0]), key(b[0]));
      DropHead(a, b);
      assert forall x :: x in a[1..] ==> x in a;
      SortedUnique(a[1..], b[1..], key);
      assert a == [a[0]] + a[1..] && b == [b[0]] + b[1..];
    }
  }

  lemma {:induction false} InjectiveIgnoresOrder<T>(a: seq<T>, b: seq<T>, key: T -> string)
    requires multiset(a) == multiset(b) && Injective(a, key)
    ensures Injective(b, key)
  {
    SameElements(a, b);
  }

  lemma {:induction false} SortIgnoresOrder<T>(a: seq<T>, b: seq<T>, key: T -> string)
    requires multiset(a) == multiset(b) && Injective(a, key)
    ensures Sort(a, key) == Sort(b, key)
  {
    SortSorts(a, key);
    SortSorts(b, key);
    InjectiveIgnoresOrder(a, Sort(a, key), key);
    SortedUnique(Sort(a, key), Sort(b, key), key);
  }

  lemma {:induction false} SortFixesSorted<T>(a: seq<T>, key: T -> string)
    requires Sorted(a, key) && Injective(a, key)
    ensures Sort(a, key) == a
  {
    SortSorts(a, key);
    SortedUnique(a, Sort(a, key), key);
  }

  ghost function KeySet<T>(a: seq<T>, key: T -> string): set<string> {
    set x | x in a :: key(x)
  }

  lemma {:induction false} KeySetCons<T>(x: T, rest: seq<T>, key: T -> string)
    ensures KeySet([x] + rest, key) == {key(x)} + KeySet(rest, key)
  {
  }

  lemma {:induction false} DistinctCons<T>(x: T, rest: seq<T>, key: T -> string)
    ensures DistinctKeys([x] + rest, key) <==> DistinctKeys(rest, key) && key(x) !in KeySet(rest, key)
  {
    var a := [x] + rest;
    assert forall i :: 0 <= i < |rest| ==> rest[i] == a[i + 1];
    if DistinctKeys(a, key) {
      forall i, j | 0 <= i < j < |rest| ensures key(rest[i]) != key(rest[j]) { assert key(a[i + 1]) != key(a[j + 1]); }
      forall y | y in rest ensures key(y) != key(x) {
        var i :| 0 <= i < |rest| && rest[i] == y;
        assert key(a[0]) != key(a[i + 1]);
      }
    }
    if DistinctKeys(rest, key) && key(x) !in KeySet(rest, key) {
      forall i, j | 0 <= i < j < |a| ensures key(a[i]) != key(a[j]) {
        assert a[j] == rest[j - 1] && rest[j - 1] in rest && key(rest[j - 1]) in KeySet(rest, key);
      }
    }
  }

  // Keys are distinct exactly when there are as many of them as elements.
  lemma {:induction false} DistinctByCount<T>(a: seq<T>, key: T -> string)
    ensures |KeySet(a, key)| <= |a|
    ensures DistinctKeys(a, key) <==> |KeySet(a, key)| == |a|
  {
    if a == [] {
      assert KeySet(a, key) == {};
    } else {
      hide DistinctKeys, KeySet;
      var rest := a[1..];
      DistinctByCount(rest, key);
      assert a == [a[0]] + rest;
      KeySetCons(a[0], rest, key);
      DistinctCons(a[0], rest, key);
    }
  }

  // Having distinct keys does not depend on the order of the elements.
  lemma {:induction false} DistinctIgnoresOrder<T>(a: seq<T>, b: seq<T>, key: T -> string)
    requires multiset(a) == multiset(b)
    ensures DistinctKeys(a, key) <==> DistinctKeys(b, key)
  {
    SameElements(a, b);
    DistinctByCount(a, key);
    DistinctByCount(b, key);
    assert KeySet(a, key) == KeySet(b, key);
  }

  lemma {:induction false} DistinctIsInjective<T>(a: seq<T>, key: T -> string)
    requires DistinctKeys(a, key)
    ensures Injective(a, key)
  {
  }

  lemma {:induction false} SortDistinct<T>(a: seq<T>, key: T -> string)
    requires DistinctKeys(a, key)
    ensures StrictlySorted(Sort(a, key), key)
  {
    SortSorts(a, key);
    DistinctIgnoresOrder(a, Sort(a, key), key);
  }

  lemma {:induction false} DistinctAppend<T>(a: seq<T>, x: T, key: T -> string)
    ensures KeySet(a + [x], key) == KeySet(a, key) + {key(x)}
    ensures DistinctKeys(a + [x], key) <==> DistinctKeys(a, key) && key(x) !in KeySet(a, key)
  {
    DistinctByCount(a, key);
    DistinctByCount(a + [x], key);
  }

  // ── Strictly sorted sequences of a set ──

  lemma {:induction false} ElementsAppend<T>(a: seq<T>, x: T)
    ensures Elements(a + [x]) == Elements(a) + {x}
  {
  }

  lemma {:induction false} ElementsOfSort<T>(a: seq<T>, key: T -> string)
    ensures Elements(Sort(a, key)) == Elements(a)
  {
    SortSorts(a, key);
    SameElementsSameSet(Sort(a, key), a);
  }

  lemma {:induction false} SameElementsSameSet<T>(a: seq<T>, b: seq<T>)
    requires multiset(a) == multiset(b)
    ensures Elements(a) == Elements(b)
  {
    SameElements(a, b);
  }

  lemma {:induction false} OccurrencesOfDistinct<T>(a: seq<T>, key: T -> string)
    requires StrictlySorted(a, key)
    ensures forall x :: multiset(a)[x] == if x in a then 1 else 0
  {
    if a != [] {
      var n := |a| - 1;
      OccurrencesOfDistinct(a[..n], key);
      assert a == a[..n] + [a[n]];
      assert a[n] !in a[..n];
    }
  }

  // Two strictly sorted sequences of one set are the same.
  lemma {:induction false} SameSetSorted<T>(a: seq<T>, b: seq<T>, key: T -> string)
    requires StrictlySorted(a, key) && StrictlySorted(b, key) && Elements(a) == Elements(b)
    ensures a == b
  {
    OccurrencesOfDistinct(a, key);
    OccurrencesOfDistinct(b, key);
    forall x ensures x in a <==> x in b {
      assert x in a <==> x in Elements(a);
      assert x in b <==> x in Elements(b);
    }
    assert multiset(a) == multiset(b);
    DistinctIsInjective(a, key);
    SortedUnique(a, b, key);
  }

  function Self(s: string): string { s }

  lemma {:induction false} ListExists(s: set<string>)
    ensures exists q :: StrictlySorted(q, Self) && Elements(q) == s
  {
    if s == {} {
      assert StrictlySorted([], Self) && Elements([]) == s;
    } else {
      var x :| x in s;
      ListExists(s - {x});
      var q :| StrictlySorted(q, Self) && Elements(q) == s - {x};
      assert x !in q by { assert x in q ==> x in Elements(q); }
      SortDistinct(q + [x], Self);
      ElementsOfSort(q + [x], Self);
      ElementsAppend(q, x);
      assert StrictlySorted(Sort(q + [x], Self), Self) && Elements(Sort(q + [x], Self)) == s;
    }
  }

  // The elements of a set of strings in order, as `sorted` lists them.
  ghost function SortedSet(s: set<string>): (q: seq<string>)
    ensures StrictlySorted(q, Self) && Elements(q) == s
  {
    ListExists(s);
    var q :| StrictlySorted(q, Self) && Elements(q) == s;
    q
  }
}
