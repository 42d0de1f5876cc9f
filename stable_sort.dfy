/** Python's `list.sort(key=...)` on integer keys: a stable sort, given here
    as insertion sort.  Sortedness, permutation and stability are proved;
    stability is stated as "for every key, the elements with that key
    appear in the same order as before". */
module StableSort {

  predicate SortedBy<T>(xs: seq<T>, key: T -> int) {
    forall i, j :: 0 <= i < j < |xs| ==> key(xs[i]) <= key(xs[j])
  }

  /** `[x]` when `x` has key `k`, else nothing. */
  function Pick<T>(x: T, key: T -> int, k: int): seq<T> {
    if key(x) == k then [x] else []
  }

  /** The elements whose key is `k`, in their order. */
  function WithKey<T>(xs: seq<T>, key: T -> int, k: int): seq<T> {
    if xs == [] then [] else Pick(xs[0], key, k) + WithKey(xs[1..], key, k)
  }

  lemma {:induction false} WithKeyAppend<T>(a: seq<T>, b: seq<T>, key: T -> int, k: int)
    ensures WithKey(a + b, key, k) == WithKey(a, key, k) + WithKey(b, key, k)
    decreases |a|
  {
    if a == [] {
      assert a + b == b;
    } else {
      calc {
        WithKey(a + b, key, k);
      == { assert (a + b)[0] == a[0] && (a + b)[1..] == a[1..] + b; }
        Pick(a[0], key, k) + WithKey(a[1..] + b, key, k);
      == { WithKeyAppend(a[1..], b, key, k); }
        Pick(a[0], key, k) + (WithKey(a[1..], key, k) + WithKey(b, key, k));
      }
    }
  }

  lemma {:induction false} WithKeyNone<T>(xs: seq<T>, key: T -> int, k: int)
    requires forall i :: 0 <= i < |xs| ==> key(xs[i]) != k
    ensures WithKey(xs, key, k) == []
    decreases |xs|
  {
    if xs != [] {
      WithKeyNone(xs[1..], key, k);
    }
  }

  lemma WithKeyOne<T>(x: T, key: T -> int, k: int)
    ensures WithKey([x], key, k) == Pick(x, key, k)
  {
    assert [x][1..] == [];
  }

  /** Insert `x` into a sorted sequence, after every element whose key is
      not greater than its own. */
  function Insert<T>(s: seq<T>, x: T, key: T -> int): seq<T> {
    if s == [] then [x]
    else if key(x) < key(s[0]) then [x] + s
    else [s[0]] + Insert(s[1..], x, key)
  }

  lemma {:induction false} InsertPermutes<T>(s: seq<T>, x: T, key: T -> int)
    ensures multiset(Insert(s, x, key)) == multiset(s) + multiset{x}
    decreases |s|
  {
    if s != [] && key(x) >= key(s[0]) {
      InsertPermutes(s[1..], x, key);
      assert s == [s[0]] + s[1..];
    }
  }

  lemma {:induction false} InsertSorted<T>(s: seq<T>, x: T, key: T -> int)
    requires SortedBy(s, key)
    ensures SortedBy(Insert(s, x, key), key)
    decreases |s|
  {
    if s != [] && key(x) >= key(s[0]) {
      var rest := Insert(s[1..], x, key);
      InsertSorted(s[1..], x, key);
      InsertPermutes(s[1..], x, key);
      forall j | 0 <= j < |rest| ensures key(s[0]) <= key(rest[j]) {
        assert rest[j] in multiset(s[1..]) + multiset{x};
      }
    }
  }

  lemma InsertStableFront<T>(s: seq<T>, x: T, key: T -> int, k: int)
    requires SortedBy(s, key)
    requires s != [] && key(x) < key(s[0])
    ensures WithKey([x] + s, key, k) == WithKey(s, key, k) + Pick(x, key, k)
  {
    WithKeyAppend([x], s, key, k);
    WithKeyOne(x, key, k);
    if key(x) == k {
      WithKeyNone(s, key, k);
    }
  }

  lemma {:induction false} InsertStable<T>(s: seq<T>, x: T, key: T -> int, k: int)
    requires SortedBy(s, key)
    ensures WithKey(Insert(s, x, key), key, k) == WithKey(s, key, k) + Pick(x, key, k)
    decreases |s|
  {
    if s == [] {
      WithKeyOne(x, key, k);
    } else if key(x) < key(s[0]) {
      InsertStableFront(s, x, key, k);
    } else {
      calc {
        WithKey(Insert(s, x, key), key, k);
      ==
        WithKey([s[0]] + Insert(s[1..], x, key), key, k);
      == { assert ([s[0]] + Insert(s[1..], x, key))[1..] == Insert(s[1..], x, key); }
        Pick(s[0], key, k) + WithKey(Insert(s[1..], x, key), key, k);
      == { InsertStable(s[1..], x, key, k); }
        Pick(s[0], key, k) + (WithKey(s[1..], key, k) + Pick(x, key, k));
      }
    }
  }

  /** `xs.sort(key=key)`: each element in turn inserted after the elements
      placed before it. */
  function SortByKey<T>(xs: seq<T>, key: T -> int): seq<T>
    decreases |xs|
  {
    if xs == [] then []
    else Insert(SortByKey(xs[..|xs| - 1], key), xs[|xs| - 1], key)
  }

  lemma {:induction false} SortByKeySorted<T>(xs: seq<T>, key: T -> int)
    ensures SortedBy(SortByKey(xs, key), key)
    decreases |xs|
  {
    if xs != [] {
      SortByKeySorted(xs[..|xs| - 1], key);
      InsertSorted(SortByKey(xs[..|xs| - 1], key), xs[|xs| - 1], key);
    }
  }

  lemma {:induction false} SortByKeyPermutes<T>(xs: seq<T>, key: T -> int)
    ensures multiset(SortByKey(xs, key)) == multiset(xs)
    decreases |xs|
  {
    if xs != [] {
      var n := |xs| - 1;
      SortByKeyPermutes(xs[..n], key);
      InsertPermutes(SortByKey(xs[..n], key), xs[n], key);
      assert xs == xs[..n] + [xs[n]];
    }
  }

  lemma {:induction false} SortByKeyStable<T>(xs: seq<T>, key: T -> int, k: int)
    ensures WithKey(SortByKey(xs, key), key, k) == WithKey(xs, key, k)
    decreases |xs|
  {
    if xs != [] {
      var n := |xs| - 1;
      var prefix := SortByKey(xs[..n], key);
      calc {
        WithKey(SortByKey(xs, key), key, k);
      ==
        WithKey(Insert(prefix, xs[n], key), key, k);
      == { SortByKeySorted(xs[..n], key); InsertStable(prefix, xs[n], key, k); }
        WithKey(prefix, key, k) + Pick(xs[n], key, k);
      == { SortByKeyStable(xs[..n], key, k); WithKeyOne(xs[n], key, k); }
        WithKey(xs[..n], key, k) + WithKey([xs[n]], key, k);
      == { WithKeyAppend(xs[..n], [xs[n]], key, k); }
        WithKey(xs[..n] + [xs[n]], key, k);
      == { assert xs == xs[..n] + [xs[n]]; }
        WithKey(xs, key, k);
      }
    }
  }

  /** The sort's result: ordered by key, the same elements, and for each
      key the elements with that key in their original order. */
  lemma SortByKeySpec<T>(xs: seq<T>, key: T -> int)
    ensures SortedBy(SortByKey(xs, key), key)
    ensures multiset(SortByKey(xs, key)) == multiset(xs)
    ensures forall k :: WithKey(SortByKey(xs, key), key, k) == WithKey(xs, key, k)
  {
    SortByKeySorted(xs, key);
    SortByKeyPermutes(xs, key);
    forall k ensures WithKey(SortByKey(xs, key), key, k) == WithKey(xs, key, k) {
      SortByKeyStable(xs, key, k);
    }
  }
}
