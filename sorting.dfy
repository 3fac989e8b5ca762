/**
 * Python's `list.sort(key=…, reverse=True)`: a stable sort into non-increasing key order.
 * It is written as insertion into an already sorted prefix, so that being a permutation,
 * being ordered and keeping equal keys in their original order are each a short induction.
 */
module Sorting {

  predicate SortedDesc<T>(s: seq<T>, key: T -> real)
  {
    forall i, j :: 0 <= i < j < |s| ==> key(s[i]) >= key(s[j])
  }

  /** Insert `x` after every element whose key is at least its own. */
  function Insert<T>(s: seq<T>, x: T, key: T -> real): seq<T>
  {
    if s == [] then [x]
    else if key(s[0]) >= key(x) then [s[0]] + Insert(s[1..], x, key)
    else [x] + s
  }

  /** `sorted(s, key=key, reverse=True)`. */
  function SortDesc<T>(s: seq<T>, key: T -> real): seq<T>
  {
    if s == [] then [] else Insert(SortDesc(s[..|s| - 1], key), s[|s| - 1], key)
  }

  /** The elements of `s` whose key is `v`, in their order in `s`. */
  function WithKey<T>(s: seq<T>, key: T -> real, v: real): seq<T>
  {
    if s == [] then []
    else WithKey(s[..|s| - 1], key, v) + (if key(s[|s| - 1]) == v then [s[|s| - 1]] else [])
  }

  lemma {:induction false} InsertPermutes<T>(s: seq<T>, x: T, key: T -> real)
    ensures multiset(Insert(s, x, key)) == multiset(s) + multiset{x}
  {
    if s != [] && key(s[0]) >= key(x) {
      InsertPermutes(s[1..], x, key);
      assert s == [s[0]] + s[1..];
    }
  }

  lemma {:induction false} InsertSorted<T>(s: seq<T>, x: T, key: T -> real)
    requires SortedDesc(s, key)
    ensures SortedDesc(Insert(s, x, key), key)
    ensures forall y :: y in Insert(s, x, key) ==> y in s || y == x
  {
    if s != [] && key(s[0]) >= key(x) {
      var tail := s[1..];
      SortedTail(s, key);
      InsertSorted(tail, x, key);
      var r := Insert(s, x, key);
      var t := Insert(tail, x, key);
      assert r == [s[0]] + t;
      forall y | y in t ensures key(s[0]) >= key(y) {
        if y in tail {
          var j :| 0 <= j < |tail| && tail[j] == y;
          assert s[j + 1] == y;
        }
      }
      forall i, j | 0 <= i < j < |r| ensures key(r[i]) >= key(r[j]) {
        if i > 0 {
          assert r[i] == t[i - 1] && r[j] == t[j - 1];
        } else {
          assert r[j] == t[j - 1];
          assert t[j - 1] in t;
        }
      }
    }
  }

  /** `SortDesc` returns a permutation of its input. */
  lemma {:induction false} SortDescPermutes<T>(s: seq<T>, key: T -> real)
    ensures multiset(SortDesc(s, key)) == multiset(s)
  {
    if s != [] {
      var init := s[..|s| - 1];
      SortDescPermutes(init, key);
      InsertPermutes(SortDesc(init, key), s[|s| - 1], key);
      assert s == init + [s[|s| - 1]];
    }
  }

  /** `SortDesc` returns its input in non-increasing key order. */
  lemma {:induction false} SortDescSorted<T>(s: seq<T>, key: T -> real)
    ensures SortedDesc(SortDesc(s, key), key)
  {
    if s != [] {
      SortDescSorted(s[..|s| - 1], key);
      InsertSorted(SortDesc(s[..|s| - 1], key), s[|s| - 1], key);
    }
  }

  lemma {:induction false} WithKeyConcat<T>(a: seq<T>, b: seq<T>, key: T -> real, v: real)
    ensures WithKey(a + b, key, v) == WithKey(a, key, v) + WithKey(b, key, v)
    decreases |b|
  {
    if b != [] {
      var b' := b[..|b| - 1];
      assert (a + b)[..|a + b| - 1] == a + b';
      WithKeyConcat(a, b', key, v);
    } else {
      assert a + b == a;
    }
  }

  lemma {:induction false} WithKeyNone<T>(s: seq<T>, key: T -> real, v: real)
    requires forall i :: 0 <= i < |s| ==> key(s[i]) != v
    ensures WithKey(s, key, v) == []
  {
    if s != [] {
      WithKeyNone(s[..|s| - 1], key, v);
    }
  }

  lemma {:induction false} WithKeySingle<T>(x: T, key: T -> real, v: real)
    ensures WithKey([x], key, v) == if key(x) == v then [x] else []
  {
    assert [x][..0] == [];
  }

  lemma {:induction false} SortedTail<T>(s: seq<T>, key: T -> real)
    requires s != [] && SortedDesc(s, key)
    ensures SortedDesc(s[1..], key)
  {
    var tail := s[1..];
    forall i, j | 0 <= i < j < |tail| ensures key(tail[i]) >= key(tail[j]) {
      assert tail[i] == s[i + 1] && tail[j] == s[j + 1];
    }
  }

  /** `x` goes in front when its key beats the head's, and then no element of `s` shares it. */
  lemma {:induction false} InsertStableFront<T>(s: seq<T>, x: T, key: T -> real, v: real)
    requires SortedDesc(s, key) && s != [] && key(s[0]) < key(x)
    ensures WithKey([x] + s, key, v) == WithKey(s, key, v) + WithKey([x], key, v)
  {
    WithKeyConcat([x], s, key, v);
    WithKeySingle(x, key, v);
    if key(x) == v {
      forall i | 0 <= i < |s| ensures key(s[i]) != v {
        assert key(s[0]) >= key(s[i]);
      }
      WithKeyNone(s, key, v);
    }
  }

  /** Inserting into a sorted sequence puts `x` after every element with an equal key. */
  lemma {:induction false} InsertStable<T>(s: seq<T>, x: T, key: T -> real, v: real)
    requires SortedDesc(s, key)
    ensures WithKey(Insert(s, x, key), key, v) == WithKey(s, key, v) + WithKey([x], key, v)
  {
    if s == [] {
      assert Insert(s, x, key) == [x];
    } else if key(s[0]) >= key(x) {
      SortedTail(s, key);
      InsertStable(s[1..], x, key, v);
      InsertStableBehind(s, x, key, v);
    } else {
      InsertStableFront(s, x, key, v);
    }
  }

  /** `x` goes behind the head when the head's key is at least its own. */
  lemma {:induction false} InsertStableBehind<T>(s: seq<T>, x: T, key: T -> real, v: real)
    requires s != [] && key(s[0]) >= key(x)
    requires WithKey(Insert(s[1..], x, key), key, v) == WithKey(s[1..], key, v) + WithKey([x], key, v)
    ensures WithKey(Insert(s, x, key), key, v) == WithKey(s, key, v) + WithKey([x], key, v)
  {
    var tail := s[1..];
    var head := WithKey([s[0]], key, v);
    assert Insert(s, x, key) == [s[0]] + Insert(tail, x, key);
    WithKeyConcat([s[0]], Insert(tail, x, key), key, v);
    assert s == [s[0]] + tail;
    WithKeyConcat([s[0]], tail, key, v);
    assert head + (WithKey(tail, key, v) + WithKey([x], key, v))
        == (head + WithKey(tail, key, v)) + WithKey([x], key, v);
  }

  /** Stability: the elements sharing a key appear in the output in their input order. */
  lemma {:induction false} SortDescStable<T>(s: seq<T>, key: T -> real, v: real)
    ensures WithKey(SortDesc(s, key), key, v) == WithKey(s, key, v)
  {
    if s != [] {
      var init := s[..|s| - 1];
      var x := s[|s| - 1];
      SortDescStable(init, key, v);
      SortDescSorted(init, key);
      InsertStable(SortDesc(init, key), x, key, v);
      WithKeySingle(x, key, v);
    }
  }
}
