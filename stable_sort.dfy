/** Python's `sorted(xs, key=k, reverse=True)`: a stable sort into
    descending key order. Elements with equal keys keep their input order
    (Python guarantees that `reverse=True` preserves stability). */
module StableSort {

  /** `xs` is in descending key order. */
  predicate Descending<T>(xs: seq<T>, key: T -> int) {
    forall i, j :: 0 <= i < j < |xs| ==> key(xs[i]) >= key(xs[j])
  }

  /** Places `x` after every element whose key is at least its own. */
  function Insert<T>(x: T, xs: seq<T>, key: T -> int): (r: seq<T>)
    ensures |r| == |xs| + 1
    ensures multiset(r) == multiset(xs) + multiset{x}
  {
    if |xs| == 0 then [x]
    else if key(xs[0]) < key(x) then [x] + xs
    else
      assert xs == [xs[0]] + xs[1..];
      [xs[0]] + Insert(x, xs[1..], key)
  }

  /** The sort: each element of `xs`, in input order, is inserted after the
      elements already placed whose keys are at least its own. */
  function SortDesc<T>(xs: seq<T>, key: T -> int): seq<T> {
    if |xs| == 0 then [] else Insert(xs[|xs| - 1], SortDesc(xs[..|xs| - 1], key), key)
  }

  /** The elements of `xs` whose key is `k`, in order. */
  function WithKey<T>(xs: seq<T>, key: T -> int, k: int): (r: seq<T>)
    ensures |r| <= |xs|
    ensures forall i :: 0 <= i < |r| ==> key(r[i]) == k
  {
    if |xs| == 0 then [] else WithKey(xs[..|xs| - 1], key, k) + (if key(xs[|xs| - 1]) == k then [xs[|xs| - 1]] else [])
  }

  lemma {:induction false} InsertDescending<T>(x: T, xs: seq<T>, key: T -> int)
    requires Descending(xs, key)
    ensures Descending(Insert(x, xs, key), key)
    decreases |xs|
  {
    if |xs| > 0 && key(xs[0]) >= key(x) {
      InsertDescending(x, xs[1..], key);
      var r := Insert(x, xs, key);
      var t := Insert(x, xs[1..], key);
      assert r == [xs[0]] + t;
      forall j | 0 < j < |r|
        ensures key(r[0]) >= key(r[j])
      {
        assert r[j] in multiset(t);
        assert r[j] in multiset(xs[1..]) + multiset{x};
        if r[j] != x || r[j] in multiset(xs[1..]) {
          if r[j] in multiset(xs[1..]) {
            var m :| 0 <= m < |xs[1..]| && xs[1..][m] == r[j];
            assert xs[m + 1] == r[j];
          }
        }
      }
    }
  }

  lemma {:induction false} WithKeyAppend<T>(a: seq<T>, b: seq<T>, key: T -> int, k: int)
    ensures WithKey(a + b, key, k) == WithKey(a, key, k) + WithKey(b, key, k)
    decreases |b|
  {
    if |b| == 0 {
      assert a + b == a;
    } else {
      assert (a + b)[..|a + b| - 1] == a + b[..|b| - 1];
      WithKeyAppend(a, b[..|b| - 1], key, k);
    }
  }

  lemma WithKeyOne<T>(x: T, key: T -> int, k: int)
    ensures WithKey([x], key, k) == (if key(x) == k then [x] else [])
  {
    assert [x][..0] == [];
  }

  /** Inserting `x` into a descending sequence puts it after every element
      of its own key, so the order among equal keys is the arrival order. */
  lemma {:induction false} InsertWithKey<T>(x: T, xs: seq<T>, key: T -> int, k: int)
    requires Descending(xs, key)
    ensures WithKey(Insert(x, xs, key), key, k) == WithKey(xs, key, k) + WithKey([x], key, k)
    decreases |xs|
  {
    WithKeyOne(x, key, k);
    if |xs| == 0 {
      assert Insert(x, xs, key) == [x];
    } else if key(xs[0]) < key(x) {
      InsertInFrontWithKey(x, xs, key, k);
    } else {
      DescendingTail(xs, key);
      InsertWithKey(x, xs[1..], key, k);
      InsertBehindWithKey(x, xs, key, k);
    }
  }

  /** `x` goes behind the head when the head's key is at least its own. */
  lemma InsertBehindWithKey<T>(x: T, xs: seq<T>, key: T -> int, k: int)
    requires |xs| > 0 && key(xs[0]) >= key(x)
    requires WithKey(Insert(x, xs[1..], key), key, k) == WithKey(xs[1..], key, k) + WithKey([x], key, k)
    ensures WithKey(Insert(x, xs, key), key, k) == WithKey(xs, key, k) + WithKey([x], key, k)
  {
    var head, tail := [xs[0]], xs[1..];
    assert xs == head + tail;
    var t := Insert(x, tail, key);
    assert Insert(x, xs, key) == head + t;
    WithKeyAppend(head, t, key, k);
    WithKeyAppend(head, tail, key, k);
  }

  /** `x` goes in front when its key exceeds the head's. */
  lemma InsertInFrontWithKey<T>(x: T, xs: seq<T>, key: T -> int, k: int)
    requires Descending(xs, key)
    requires |xs| > 0 && key(xs[0]) < key(x)
    ensures WithKey(Insert(x, xs, key), key, k) == WithKey(xs, key, k) + WithKey([x], key, k)
  {
    WithKeyOne(x, key, k);
    assert Insert(x, xs, key) == [x] + xs;
    WithKeyAppend([x], xs, key, k);
    if key(x) == k {
      WithKeyNone(xs, key, k);
    }
  }

  lemma DescendingTail<T>(xs: seq<T>, key: T -> int)
    requires |xs| > 0 && Descending(xs, key)
    ensures Descending(xs[1..], key)
  {
    forall i, j | 0 <= i < j < |xs| - 1
      ensures key(xs[1..][i]) >= key(xs[1..][j])
    {
      assert xs[1..][i] == xs[i + 1] && xs[1..][j] == xs[j + 1];
    }
  }

  /** A descending sequence whose head key is below `k` has no element of key `k`. */
  lemma {:induction false} WithKeyNone<T>(xs: seq<T>, key: T -> int, k: int)
    requires Descending(xs, key)
    requires |xs| > 0 && key(xs[0]) < k
    ensures WithKey(xs, key, k) == []
    decreases |xs|
  {
    if |xs| > 1 {
      WithKeyNone(xs[..|xs| - 1], key, k);
      assert key(xs[|xs| - 1]) <= key(xs[0]);
    }
  }

  /** The result is in descending key order and is a permutation of the input. */
  lemma SortDescSorted<T>(xs: seq<T>, key: T -> int)
    ensures Descending(SortDesc(xs, key), key)
    ensures multiset(SortDesc(xs, key)) == multiset(xs)
    ensures |SortDesc(xs, key)| == |xs|
  {
    SortDescDescending(xs, key);
    SortDescPermutes(xs, key);
  }

  lemma {:induction false} SortDescDescending<T>(xs: seq<T>, key: T -> int)
    ensures Descending(SortDesc(xs, key), key)
    decreases |xs|
  {
    if |xs| > 0 {
      var init := xs[..|xs| - 1];
      SortDescDescending(init, key);
      InsertDescending(xs[|xs| - 1], SortDesc(init, key), key);
    }
  }

  lemma {:induction false} SortDescPermutes<T>(xs: seq<T>, key: T -> int)
    ensures multiset(SortDesc(xs, key)) == multiset(xs)
    ensures |SortDesc(xs, key)| == |xs|
    decreases |xs|
  {
    if |xs| > 0 {
      var init, last := xs[..|xs| - 1], xs[|xs| - 1];
      SortDescPermutes(init, key);
      InsertLastPermutes(xs, SortDesc(init, key), key);
    }
  }

  /** Inserting the last element of `xs` into a permutation of the others
      gives a permutation of `xs`. */
  lemma InsertLastPermutes<T>(xs: seq<T>, s: seq<T>, key: T -> int)
    requires |xs| > 0 && multiset(s) == multiset(xs[..|xs| - 1])
    ensures multiset(Insert(xs[|xs| - 1], s, key)) == multiset(xs)
  {
    assert xs == xs[..|xs| - 1] + [xs[|xs| - 1]];
  }

  /** Stability: for every key, the elements with that key appear in the
      result in the order they appear in the input. */
  lemma {:induction false} SortDescStable<T>(xs: seq<T>, key: T -> int, k: int)
    ensures WithKey(SortDesc(xs, key), key, k) == WithKey(xs, key, k)
    decreases |xs|
  {
    if |xs| > 0 {
      var init, last := xs[..|xs| - 1], xs[|xs| - 1];
      SortDescStable(init, key, k);
      SortDescSorted(init, key);
      InsertWithKey(last, SortDesc(init, key), key, k);
      WithKeyOne(last, key, k);
    }
  }

  /** The first element of `xs` with key `k` heads the elements of key `k`. */
  lemma {:induction false} WithKeyHead<T>(xs: seq<T>, key: T -> int, k: int, i: nat)
    requires i < |xs| && key(xs[i]) == k
    requires forall j :: 0 <= j < i ==> key(xs[j]) != k
    ensures |WithKey(xs, key, k)| > 0 && WithKey(xs, key, k)[0] == xs[i]
    decreases |xs|
  {
    if i < |xs| - 1 {
      WithKeyHead(xs[..|xs| - 1], key, k, i);
    } else {
      WithKeyEmpty(xs[..i], key, k);
    }
  }

  lemma {:induction false} WithKeyEmpty<T>(xs: seq<T>, key: T -> int, k: int)
    requires forall j :: 0 <= j < |xs| ==> key(xs[j]) != k
    ensures WithKey(xs, key, k) == []
    decreases |xs|
  {
    if |xs| > 0 {
      WithKeyEmpty(xs[..|xs| - 1], key, k);
    }
  }

  /** `sorted(xs, key=k, reverse=True)[0]` is the first element of `xs`, in
      input order, whose key is maximal. */
  lemma SortDescHead<T>(xs: seq<T>, key: T -> int)
    requires |xs| > 0
    ensures exists i :: 0 <= i < |xs| && SortDesc(xs, key)[0] == xs[i]
                        && (forall j :: 0 <= j < |xs| ==> key(xs[j]) <= key(xs[i]))
                        && (forall j :: 0 <= j < i ==> key(xs[j]) < key(xs[i]))
  {
    var r := SortDesc(xs, key);
    var i0 := HeadKeyIsMaximal(xs, key);
    var i := FirstWithKey(xs, key, key(r[0]), 0, i0);
    HeadIsFirstWithKey(xs, key, i);
    assert forall j :: 0 <= j < i ==> key(xs[j]) < key(xs[i]);
  }

  /** The first element of its key is the head of the result when the
      result's head has that key. */
  lemma HeadIsFirstWithKey<T>(xs: seq<T>, key: T -> int, i: nat)
    requires i < |xs| && |SortDesc(xs, key)| == |xs| && key(SortDesc(xs, key)[0]) == key(xs[i])
    requires forall j :: 0 <= j < i ==> key(xs[j]) != key(xs[i])
    ensures SortDesc(xs, key)[0] == xs[i]
  {
    var r, k := SortDesc(xs, key), key(xs[i]);
    WithKeyHead(xs, key, k, i);
    SortDescStable(xs, key, k);
    WithKeyHead(r, key, k, 0);
  }

  /** The head of the result comes from the input and has a maximal key. */
  lemma HeadKeyIsMaximal<T>(xs: seq<T>, key: T -> int) returns (i0: nat)
    requires |xs| > 0
    ensures |SortDesc(xs, key)| == |xs|
    ensures i0 < |xs| && xs[i0] == SortDesc(xs, key)[0]
    ensures forall j :: 0 <= j < |xs| ==> key(xs[j]) <= key(SortDesc(xs, key)[0])
  {
    var r := SortDesc(xs, key);
    SortDescSorted(xs, key);
    forall j | 0 <= j < |xs|
      ensures key(xs[j]) <= key(r[0])
    {
      assert xs[j] in multiset(r);
      var m :| 0 <= m < |r| && r[m] == xs[j];
    }
    assert r[0] in multiset(xs);
    i0 :| 0 <= i0 < |xs| && xs[i0] == r[0];
  }

  /** The least index at or after `start` whose element has key `k`,
      given that index `b` has it and no index before `start` does. */
  function FirstWithKey<T>(xs: seq<T>, key: T -> int, k: int, start: nat, b: nat): (i: nat)
    requires start <= b < |xs| && key(xs[b]) == k
    requires forall j :: 0 <= j < start ==> key(xs[j]) != k
    ensures i <= b && key(xs[i]) == k
    ensures forall j :: 0 <= j < i ==> key(xs[j]) != k
    decreases b - start
  {
    if key(xs[start]) == k then start else FirstWithKey(xs, key, k, start + 1, b)
  }

  /** Sorting by a key all elements share changes nothing. */
  lemma SortDescOfEqualKeys<T>(xs: seq<T>, key: T -> int, k: int)
    requires forall i :: 0 <= i < |xs| ==> key(xs[i]) == k
    ensures SortDesc(xs, key) == xs
  {
    SortDescStable(xs, key, k);
    SortDescSorted(xs, key);
    AllWithKey(xs, key, k);
    var r := SortDesc(xs, key);
    forall i | 0 <= i < |r|
      ensures key(r[i]) == k
    {
      assert r[i] in multiset(xs);
      var m :| 0 <= m < |xs| && xs[m] == r[i];
    }
    AllWithKey(r, key, k);
  }

  lemma {:induction false} AllWithKey<T>(xs: seq<T>, key: T -> int, k: int)
    requires forall i :: 0 <= i < |xs| ==> key(xs[i]) == k
    ensures WithKey(xs, key, k) == xs
    decreases |xs|
  {
    if |xs| > 0 {
      AllWithKey(xs[..|xs| - 1], key, k);
    }
  }
}
