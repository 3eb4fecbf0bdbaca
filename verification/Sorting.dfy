/** Stable insertion sort by a total preorder. */
module Sorting {

  ghost predicate TotalPreorder<T(!new)>(le: (T, T) -> bool) {
    && (forall x, y :: le(x, y) || le(y, x))
    && (forall x, y, z :: le(x, y) && le(y, z) ==> le(x, z))
  }

  ghost predicate Antisymmetric<T(!new)>(le: (T, T) -> bool) {
    forall x, y :: le(x, y) && le(y, x) ==> x == y
  }

  ghost predicate Sorted<T>(le: (T, T) -> bool, s: seq<T>) {
    forall i, j :: 0 <= i < j < |s| ==> le(s[i], s[j])
  }

  /** Insert `x` before the first element not strictly below it. */
  function Insert<T>(le: (T, T) -> bool, x: T, s: seq<T>): (r: seq<T>)
    ensures |r| == |s| + 1
    ensures multiset(r) == multiset(s) + multiset{x}
  {
    if s == [] then
      [x]
    else if le(x, s[0]) then
      [x] + s
    else
      assert s == [s[0]] + s[1..];
      [s[0]] + Insert(le, x, s[1..])
  }

  function Sort<T>(le: (T, T) -> bool, s: seq<T>): (r: seq<T>)
    ensures |r| == |s|
    ensures multiset(r) == multiset(s)
  {
    if s == [] then
      []
    else
      assert s == [s[0]] + s[1..];
      Insert(le, s[0], Sort(le, s[1..]))
  }

  lemma {:induction false} InsertSorted<T(!new)>(le: (T, T) -> bool, x: T, s: seq<T>)
    requires TotalPreorder(le) && Sorted(le, s)
    ensures Sorted(le, Insert(le, x, s))
  {
    if s != [] && !le(x, s[0]) {
      var rest := Insert(le, x, s[1..]);
      InsertSorted(le, x, s[1..]);
      forall k | 0 <= k < |rest|
        ensures le(s[0], rest[k])
      {
        assert rest[k] in multiset(rest);
        assert rest[k] == x || rest[k] in s[1..];
      }
    }
  }

  lemma {:induction false} SortSorts<T(!new)>(le: (T, T) -> bool, s: seq<T>)
    requires TotalPreorder(le)
    ensures Sorted(le, Sort(le, s))
  {
    if s != [] {
      SortSorts(le, s[1..]);
      InsertSorted(le, s[0], Sort(le, s[1..]));
    }
  }

  /** Under a total order, sorted sequences are determined by their elements. */
  lemma {:induction false} SortedUnique<T(!new)>(le: (T, T) -> bool, s: seq<T>, t: seq<T>)
    requires TotalPreorder(le) && Antisymmetric(le)
    requires Sorted(le, s) && Sorted(le, t) && multiset(s) == multiset(t)
    ensures s == t
  {
    if s == [] {
      assert |multiset(t)| == 0;
    } else {
      assert s[0] in multiset(t) && |multiset(s)| == |multiset(t)|;
      assert t[0] in multiset(s);
      assert le(s[0], t[0]) && le(t[0], s[0]);
      assert s == [s[0]] + s[1..] && t == [t[0]] + t[1..];
      assert multiset(s[1..]) == multiset(s) - multiset{s[0]};
      assert multiset(t[1..]) == multiset(t) - multiset{t[0]};
      SortedUnique(le, s[1..], t[1..]);
    }
  }

  // ---- Sorting what is nearly sorted; equal elements keep their order ----

  lemma InsertFirst<T(!new)>(le: (T, T) -> bool, x: T, s: seq<T>)
    requires s != [] ==> le(x, s[0])
    ensures Insert(le, x, s) == [x] + s
  {
  }

  /** Put `x` in front of the first element it strictly precedes. */
  function Place<T>(le: (T, T) -> bool, s: seq<T>, x: T): (r: seq<T>)
    ensures r != [] && (r[0] == x || (s != [] && r[0] == s[0]))
  {
    if s != [] && le(s[0], x) then [s[0]] + Place(le, s[1..], x) else [x] + s
  }

  lemma PlacedAfter<T(!new)>(le: (T, T) -> bool, s: seq<T>, x: T)
    requires Sorted(le, s) && s != [] && le(s[0], x)
    ensures Insert(le, s[0], Place(le, s[1..], x)) == Place(le, s, x)
  {
    var placed := Place(le, s[1..], x);
    assert placed[0] == x || (|s| > 1 && placed[0] == s[1]);
    InsertFirst(le, s[0], placed);
  }

  lemma PlacedBefore<T(!new)>(le: (T, T) -> bool, s: seq<T>, x: T)
    requires TotalPreorder(le) && Sorted(le, s) && s != [] && !le(s[0], x)
    ensures Insert(le, s[0], Place(le, s[1..], x)) == Place(le, s, x)
  {
    var rest := s[1..];
    assert rest != [] ==> rest[0] == s[1] && le(s[0], rest[0]);
    assert Place(le, rest, x) == [x] + rest;
    assert ([x] + rest)[1..] == rest;
    InsertFirst(le, s[0], rest);
    assert [s[0]] + rest == s;
  }

  /** Sorting a sorted list with a new last element puts that in its place. */
  lemma {:induction false} SortAppended<T(!new)>(le: (T, T) -> bool, s: seq<T>, x: T)
    requires TotalPreorder(le) && Sorted(le, s)
    ensures Sort(le, s + [x]) == Place(le, s, x)
  {
    if s == [] {
      assert s + [x] == [x];
    } else {
      assert (s + [x])[1..] == s[1..] + [x];
      SortAppended(le, s[1..], x);
      if le(s[0], x) {
        PlacedAfter(le, s, x);
      } else {
        PlacedBefore(le, s, x);
      }
    }
  }

  // ---- Sums over a sequence, and what sorting does to them ----

  ghost function Total<T>(f: T -> nat, s: seq<T>): nat {
    if s == [] then 0 else f(s[0]) + Total(f, s[1..])
  }

  lemma {:induction false} TotalAppend<T>(f: T -> nat, s: seq<T>, t: seq<T>)
    ensures Total(f, s + t) == Total(f, s) + Total(f, t)
  {
    if s == [] {
      assert s + t == t;
    } else {
      assert (s + t)[1..] == s[1..] + t;
      TotalAppend(f, s[1..], t);
    }
  }

  lemma TotalSingle<T>(f: T -> nat, x: T)
    ensures Total(f, [x]) == f(x)
  {
  }

  lemma TotalPair<T>(f: T -> nat, x: T, y: T)
    ensures Total(f, [x, y]) == f(x) + f(y)
  {
    assert [x, y][1..] == [y];
    TotalSingle(f, y);
  }

  lemma {:induction false} TotalInsert<T>(le: (T, T) -> bool, f: T -> nat, x: T, s: seq<T>)
    ensures Total(f, Insert(le, x, s)) == f(x) + Total(f, s)
  {
    if s == [] {
      assert Total(f, [x]) == f(x) + Total(f, []);
    } else if le(x, s[0]) {
      assert ([x] + s)[1..] == s;
    } else {
      TotalInsert(le, f, x, s[1..]);
      assert ([s[0]] + Insert(le, x, s[1..]))[1..] == Insert(le, x, s[1..]);
    }
  }

  lemma {:induction false} TotalSort<T>(le: (T, T) -> bool, f: T -> nat, s: seq<T>)
    ensures Total(f, Sort(le, s)) == Total(f, s)
  {
    if s != [] {
      TotalSort(le, f, s[1..]);
      TotalInsert(le, f, s[0], Sort(le, s[1..]));
    }
  }

  lemma {:induction false} TotalAtLeast<T>(f: T -> nat, s: seq<T>, i: nat)
    requires i < |s|
    ensures Total(f, s) >= f(s[i])
  {
    if i > 0 {
      TotalAtLeast(f, s[1..], i - 1);
    }
  }

  lemma {:induction false} TotalZero<T>(f: T -> nat, s: seq<T>)
    requires forall i :: 0 <= i < |s| ==> f(s[i]) == 0
    ensures Total(f, s) == 0
  {
    if s != [] {
      TotalZero(f, s[1..]);
    }
  }
}
