/** Python's `sorted` and SQL's `ORDER BY key, id` are both the stable sort by a key. */
module StableSort {

  ghost predicate Ordered<T>(s: seq<T>, key: T -> int) {
    forall i, j :: 0 <= i < j < |s| ==> key(s[i]) <= key(s[j])
  }

  /** Puts x behind every element of s whose key is not larger. */
  function Insert<T>(s: seq<T>, x: T, key: T -> int): seq<T> {
    if |s| == 0 || key(s[|s| - 1]) <= key(x) then s + [x]
    else Insert(s[..|s| - 1], x, key) + [s[|s| - 1]]
  }

  function Sort<T>(s: seq<T>, key: T -> int): seq<T> {
    if |s| == 0 then [] else Insert(Sort(s[..|s| - 1], key), s[|s| - 1], key)
  }

  function Filter<T>(s: seq<T>, p: T -> bool): seq<T> {
    if |s| == 0 then []
    else if p(s[|s| - 1]) then Filter(s[..|s| - 1], p) + [s[|s| - 1]]
    else Filter(s[..|s| - 1], p)
  }

  lemma SortSnoc<T>(s: seq<T>, x: T, key: T -> int)
    ensures Sort(s + [x], key) == Insert(Sort(s, key), x, key)
  {
    assert (s + [x])[..|s|] == s;
  }

  lemma FilterSnoc<T>(s: seq<T>, x: T, p: T -> bool)
    ensures Filter(s + [x], p) == if p(x) then Filter(s, p) + [x] else Filter(s, p)
  {
    assert (s + [x])[..|s|] == s;
  }

  lemma OrderedFront<T>(s: seq<T>, key: T -> int)
    requires Ordered(s, key) && |s| != 0
    ensures Ordered(s[..|s| - 1], key)
    ensures |s| > 1 ==> key(s[|s| - 2]) <= key(s[|s| - 1])
  {
    var front := s[..|s| - 1];
    assert forall i :: 0 <= i < |front| ==> front[i] == s[i];
    if |s| > 1 { assert key(s[|s| - 2]) <= key(s[|s| - 1]); }
  }

  lemma {:induction false} InsertContents<T>(s: seq<T>, x: T, key: T -> int)
    ensures multiset(Insert(s, x, key)) == multiset(s) + multiset{x}
  {
    if |s| != 0 && key(s[|s| - 1]) > key(x) {
      InsertContents(s[..|s| - 1], x, key);
      assert s == s[..|s| - 1] + [s[|s| - 1]];
    }
  }

  lemma {:induction false} InsertOrdered<T>(s: seq<T>, x: T, key: T -> int)
    requires Ordered(s, key)
    ensures Ordered(Insert(s, x, key), key)
  {
    if |s| != 0 && key(s[|s| - 1]) > key(x) {
      var rest, last := s[..|s| - 1], s[|s| - 1];
      InsertOrdered(rest, x, key);
      InsertContents(rest, x, key);
      var r := Insert(rest, x, key);
      forall i | 0 <= i < |r| ensures key(r[i]) <= key(last) {
        assert r[i] in multiset(r);
        assert r[i] == x || r[i] in multiset(rest);
        if r[i] in multiset(rest) {
          var j :| 0 <= j < |rest| && rest[j] == r[i];
          assert s[j] == r[i];
        }
      }
    }
  }

  /** The result is ordered and a permutation of the input. */
  lemma {:induction false} SortCorrect<T>(s: seq<T>, key: T -> int)
    ensures Ordered(Sort(s, key), key)
    ensures multiset(Sort(s, key)) == multiset(s)
    ensures |Sort(s, key)| == |s|
  {
    if |s| != 0 {
      var front := s[..|s| - 1];
      SortCorrect(front, key);
      InsertOrdered(Sort(front, key), s[|s| - 1], key);
      InsertContents(Sort(front, key), s[|s| - 1], key);
      assert s == front + [s[|s| - 1]];
    }
    assert |multiset(Sort(s, key))| == |multiset(s)|;
  }

  /** A log whose keys never decrease is its own chronological order. */
  lemma {:induction false} SortOrdered<T>(s: seq<T>, key: T -> int)
    requires Ordered(s, key)
    ensures Sort(s, key) == s
  {
    if |s| != 0 {
      var front, last := s[..|s| - 1], s[|s| - 1];
      OrderedFront(s, key);
      SortOrdered(front, key);
      assert Sort(s, key) == Insert(front, last, key) == front + [last];
    }
  }

  lemma LastIsLargest<T>(s: seq<T>, x: T, key: T -> int)
    requires Ordered(s, key) && x in s
    ensures key(x) <= key(s[|s| - 1])
  {
    var i :| 0 <= i < |s| && s[i] == x;
    if i < |s| - 1 { assert key(s[i]) <= key(s[|s| - 1]); }
  }

  lemma FrontContents<T>(s: seq<T>)
    requires |s| != 0
    ensures multiset(s[..|s| - 1]) == multiset(s) - multiset{s[|s| - 1]}
  {
    assert s == s[..|s| - 1] + [s[|s| - 1]];
  }

  /** Elements of equal keys are equal. */
  ghost predicate TiesEqual<T>(s: seq<T>, key: T -> int) {
    forall x, y :: x in s && y in s && key(x) == key(y) ==> x == y
  }

  lemma TiesFront<T>(s: seq<T>, key: T -> int)
    requires TiesEqual(s, key) && |s| != 0
    ensures TiesEqual(s[..|s| - 1], key)
  {}

  lemma SameMembers<T>(s: seq<T>, t: seq<T>, key: T -> int)
    requires multiset(s) == multiset(t) && TiesEqual(s, key)
    ensures TiesEqual(t, key)
  {
    forall x | x in t ensures x in s { assert x in multiset(t); }
  }

  lemma SplitLast<T>(s: seq<T>)
    requires |s| != 0
    ensures s == s[..|s| - 1] + [s[|s| - 1]]
  {}

  lemma SameLast<T>(s: seq<T>, t: seq<T>, key: T -> int)
    requires Ordered(s, key) && Ordered(t, key) && multiset(s) == multiset(t)
    requires TiesEqual(s, key) && |s| == |t| != 0
    ensures s[|s| - 1] == t[|t| - 1]
  {
    var a, b := s[|s| - 1], t[|t| - 1];
    assert a in multiset(t) && b in multiset(s);
    LastIsLargest(s, b, key);
    LastIsLargest(t, a, key);
  }

  /** Ordered sequences with the same contents and without different elements of equal keys are equal. */
  lemma {:induction false} OrderedUnique<T>(s: seq<T>, t: seq<T>, key: T -> int)
    requires Ordered(s, key) && Ordered(t, key) && multiset(s) == multiset(t)
    requires TiesEqual(s, key)
    ensures s == t
  {
    assert |multiset(s)| == |multiset(t)|;
    if |s| != 0 {
      SameLast(s, t, key);
      OrderedFront(s, key);
      OrderedFront(t, key);
      FrontContents(s);
      FrontContents(t);
      TiesFront(s, key);
      OrderedUnique(s[..|s| - 1], t[..|t| - 1], key);
      SplitLast(s);
      SplitLast(t);
    }
  }

  lemma {:induction false} FilterSubset<T>(s: seq<T>, p: T -> bool)
    ensures forall x :: x in Filter(s, p) ==> x in s && p(x)
  {
    if |s| != 0 { FilterSubset(s[..|s| - 1], p); }
  }

  lemma InsertLast<T>(s: seq<T>, x: T, key: T -> int, p: T -> bool)
    requires Ordered(s, key) && (|s| == 0 || key(s[|s| - 1]) <= key(x))
    ensures Insert(Filter(s, p), x, key) == Filter(s, p) + [x]
  {
    FilterSubset(s, p);
    var f := Filter(s, p);
    if |f| != 0 { LastIsLargest(s, f[|f| - 1], key); }
  }

  lemma {:induction false} FilterInsert<T>(s: seq<T>, x: T, key: T -> int, p: T -> bool)
    requires Ordered(s, key)
    ensures Filter(Insert(s, x, key), p)
         == if p(x) then Insert(Filter(s, p), x, key) else Filter(s, p)
  {
    if |s| == 0 || key(s[|s| - 1]) <= key(x) {
      FilterSnoc(s, x, p);
      InsertLast(s, x, key, p);
    } else {
      var front, last := s[..|s| - 1], s[|s| - 1];
      OrderedFront(s, key);
      FilterInsert(front, x, key, p);
      FilterSnoc(Insert(front, x, key), last, p);
      assert s == front + [last];
      FilterSnoc(front, last, p);
      if p(x) && p(last) { InsertBefore(Filter(front, p), x, last, key); }
    }
  }

  lemma InsertBefore<T>(s: seq<T>, x: T, last: T, key: T -> int)
    requires key(last) > key(x)
    ensures Insert(s + [last], x, key) == Insert(s, x, key) + [last]
  {
    assert (s + [last])[..|s|] == s;
  }

  lemma SortFilterSnoc<T>(front: seq<T>, last: T, key: T -> int, p: T -> bool)
    requires Filter(Sort(front, key), p) == Sort(Filter(front, p), key)
    ensures Filter(Sort(front + [last], key), p) == Sort(Filter(front + [last], p), key)
  {
    SortCorrect(front, key);
    FilterInsert(Sort(front, key), last, key, p);
    SortSnoc(front, last, key);
    FilterSnoc(front, last, p);
    SortSnoc(Filter(front, p), last, key);
  }

  /** Stability: sorting commutes with dropping elements. */
  lemma {:induction false} SortFilter<T>(s: seq<T>, key: T -> int, p: T -> bool)
    ensures Filter(Sort(s, key), p) == Sort(Filter(s, p), key)
  {
    if |s| != 0 {
      SortFilter(s[..|s| - 1], key, p);
      SortFilterSnoc(s[..|s| - 1], s[|s| - 1], key, p);
      SplitLast(s);
    }
  }

  lemma {:induction false} FilterAll<T>(s: seq<T>, p: T -> bool)
    requires forall n :: 0 <= n < |s| ==> p(s[n])
    ensures Filter(s, p) == s
  {
    if |s| != 0 { FilterAll(s[..|s| - 1], p); }
  }

  lemma {:induction false} FilterNone<T>(s: seq<T>, p: T -> bool)
    requires forall n :: 0 <= n < |s| ==> !p(s[n])
    ensures Filter(s, p) == []
  {
    if |s| != 0 { FilterNone(s[..|s| - 1], p); }
  }

  lemma {:induction false} SameFilter<T>(s: seq<T>, p: T -> bool, q: T -> bool)
    requires forall n :: 0 <= n < |s| ==> p(s[n]) == q(s[n])
    ensures Filter(s, p) == Filter(s, q)
  {
    if |s| != 0 { SameFilter(s[..|s| - 1], p, q); }
  }

  lemma {:induction false} FilterAppend<T>(a: seq<T>, b: seq<T>, p: T -> bool)
    ensures Filter(a + b, p) == Filter(a, p) + Filter(b, p)
  {
    if |b| == 0 {
      assert a + b == a;
    } else {
      var front, last := b[..|b| - 1], b[|b| - 1];
      FilterAppend(a, front, p);
      assert a + b == a + front + [last];
      FilterSnoc(a + front, last, p);
      assert b == front + [last];
    }
  }

  lemma {:induction false} FilterTwice<T>(s: seq<T>, p: T -> bool, q: T -> bool, both: T -> bool)
    requires forall n :: 0 <= n < |s| ==> both(s[n]) == (p(s[n]) && q(s[n]))
    ensures Filter(Filter(s, p), q) == Filter(s, both)
  {
    if |s| != 0 {
      FilterTwice(s[..|s| - 1], p, q, both);
      if p(s[|s| - 1]) { FilterSnoc(Filter(s[..|s| - 1], p), s[|s| - 1], q); }
    }
  }

  lemma {:induction false} FilterLength<T>(s: seq<T>, p: T -> bool)
    ensures |Filter(s, p)| <= |s|
  {
    if |s| != 0 { FilterLength(s[..|s| - 1], p); }
  }

  /** A filter that drops something drops some element. */
  lemma {:induction false} FilterShort<T>(s: seq<T>, p: T -> bool) returns (k: nat)
    requires |Filter(s, p)| < |s|
    ensures k < |s| && !p(s[k])
  {
    k := |s| - 1;
    if p(s[k]) { k := FilterShort(s[..k], p); }
  }

  /** A stronger condition keeps no more. */
  lemma {:induction false} FilterFewer<T>(s: seq<T>, p: T -> bool, q: T -> bool)
    requires forall n :: 0 <= n < |s| && p(s[n]) ==> q(s[n])
    ensures |Filter(s, p)| <= |Filter(s, q)|
  {
    if |s| != 0 { FilterFewer(s[..|s| - 1], p, q); }
  }

  /** On an ordered sequence, keeping the keys up to t keeps a prefix. */
  lemma {:induction false} FilterOrderedPrefix<T(!new)>(s: seq<T>, key: T -> int, t: int, p: T -> bool) returns (n: nat)
    requires Ordered(s, key) && forall x :: p(x) <==> key(x) <= t
    ensures n <= |s| && Filter(s, p) == s[..n]
    ensures forall i :: 0 <= i < |s| ==> (i < n <==> key(s[i]) <= t)
  {
    if |s| == 0 {
      n := 0;
    } else {
      var front, last := s[..|s| - 1], s[|s| - 1];
      OrderedFront(s, key);
      n := FilterOrderedPrefix(front, key, t, p);
      assert s == front + [last];
      FilterSnoc(front, last, p);
      if key(last) <= t {
        forall i | 0 <= i < |front| ensures key(front[i]) <= t { LastIsLargest(s, front[i], key); }
        n := |s|;
      }
    }
  }

  // ----- when the input order shows -----

  ghost predicate OrderHidden<T(!new)>(s: seq<T>, key: T -> int) {
    forall t :: multiset(t) == multiset(s) ==> Sort(t, key) == Sort(s, key)
  }

  lemma TiesHideOrder<T>(s: seq<T>, t: seq<T>, key: T -> int)
    requires multiset(t) == multiset(s) && TiesEqual(s, key)
    ensures Sort(t, key) == Sort(s, key)
  {
    SortCorrect(s, key);
    SortCorrect(t, key);
    SameMembers(s, Sort(s, key), key);
    OrderedUnique(Sort(s, key), Sort(t, key), key);
  }

  function WithKey<T>(key: T -> int, k: int): T -> bool { x => key(x) == k }

  /** Sorting leaves the elements of one key in the order in which they came. */
  lemma TiesKeepOrder<T>(s: seq<T>, key: T -> int, k: int)
    ensures Filter(Sort(s, key), WithKey(key, k)) == Filter(s, WithKey(key, k))
  {
    var kept := Filter(s, WithKey(key, k));
    SortFilter(s, key, WithKey(key, k));
    FilterSubset(s, WithKey(key, k));
    forall i, j | 0 <= i < j < |kept| ensures key(kept[i]) <= key(kept[j]) {
      assert kept[i] in kept && kept[j] in kept;
    }
    SortOrdered(kept, key);
  }

  lemma FirstKept<T>(x: T, rest: seq<T>, p: T -> bool)
    requires p(x)
    ensures Filter([x] + rest, p) == [x] + Filter(rest, p)
  {
    FilterAppend([x], rest, p);
    assert [x] == [] + [x];
    FilterSnoc([], x, p);
  }

  lemma SwapShows<T>(x: T, y: T, rest: seq<T>, key: T -> int)
    requires key(x) == key(y) && Sort([x] + ([y] + rest), key) == Sort([y] + ([x] + rest), key)
    ensures x == y
  {
    var p := WithKey(key, key(x));
    TiesKeepOrder([x] + ([y] + rest), key, key(x));
    TiesKeepOrder([y] + ([x] + rest), key, key(x));
    FirstKept(x, [y] + rest, p);
    FirstKept(y, [x] + rest, p);
    assert ([x] + Filter([y] + rest, p))[0] == ([y] + Filter([x] + rest, p))[0];
  }

  lemma TakeOut<T>(s: seq<T>, x: T) returns (rest: seq<T>)
    requires x in s
    ensures multiset(s) == multiset(rest) + multiset{x}
  {
    var i :| 0 <= i < |s| && s[i] == x;
    rest := s[..i] + s[i + 1..];
    assert s == s[..i] + [x] + s[i + 1..];
  }

  /** Two different members, moved to the front in either order. */
  lemma MoveToFront<T>(s: seq<T>, x: T, y: T) returns (rest: seq<T>)
    requires x in s && y in s && x != y
    ensures multiset([x] + ([y] + rest)) == multiset(s) && multiset([y] + ([x] + rest)) == multiset(s)
  {
    var most := TakeOut(s, x);
    assert y in multiset(s);
    assert y in multiset(most);
    rest := TakeOut(most, y);
  }

  /** Every order of the input sorts alike exactly when elements of equal keys are equal. */
  lemma OrderHiddenIff<T(!new)>(s: seq<T>, key: T -> int)
    ensures OrderHidden(s, key) <==> TiesEqual(s, key)
  {
    if TiesEqual(s, key) {
      forall t | multiset(t) == multiset(s) ensures Sort(t, key) == Sort(s, key) { TiesHideOrder(s, t, key); }
    }
    if OrderHidden(s, key) {
      forall x, y | x in s && y in s && key(x) == key(y) ensures x == y {
        if x != y {
          var rest := MoveToFront(s, x, y);
          SwapShows(x, y, rest, key);
        }
      }
    }
  }
}
