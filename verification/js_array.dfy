/** Array behaviour the core relies on: `Array.prototype.sort` with a numeric
    comparator `(a, b) => key(a) - key(b)` (stable since ES2019), and the
    "append unless already present" idiom that both the insertion order of an
    object's keys and a `reduce` with `some` produce. */
module JsArray {

  /** A non-empty sequence is its front followed by its last element. */
  lemma LastSplit<T>(s: seq<T>)
    requires s != []
    ensures s == s[..|s| - 1] + [s[|s| - 1]]
    ensures multiset(s) == multiset(s[..|s| - 1]) + multiset{s[|s| - 1]}
  {
    assert s == s[..|s| - 1] + [s[|s| - 1]];
  }

  /** A prefix one longer is the prefix followed by the next element. */
  lemma TakeSnoc<T>(s: seq<T>, i: nat)
    requires i < |s|
    ensures s[..i + 1] == s[..i] + [s[i]]
  {
  }

  lemma TakeAll<T>(s: seq<T>)
    ensures s[..|s|] == s
  {
  }

  lemma AppendSnoc<T>(a: seq<T>, p: seq<T>, c: T)
    ensures a + (p + [c]) == (a + p) + [c]
  {
  }

  /** Dropping the appended element gives the sequence back. */
  lemma SnocFront<T>(s: seq<T>, x: T)
    ensures (s + [x])[..|s|] == s
  {
  }

  predicate NoDup<T(==)>(xs: seq<T>) {
    forall i, j :: 0 <= i < j < |xs| ==> xs[i] != xs[j]
  }

  /** The elements of `xs` in order of first occurrence, each once. */
  function FirstOccurrences<T(==)>(xs: seq<T>): (r: seq<T>)
    ensures NoDup(r)
    ensures forall i :: 0 <= i < |xs| ==> xs[i] in r
    ensures forall i :: 0 <= i < |r| ==> r[i] in xs
  {
    if xs == [] then []
    else
      var p := xs[..|xs| - 1];
      var r0 := FirstOccurrences(p);
      var x := xs[|xs| - 1];
      assert forall i :: 0 <= i < |xs| - 1 ==> xs[i] == p[i];
      if x in r0 then r0 else r0 + [x]
  }

  /** One more element is appended exactly when it has not been seen. */
  lemma FirstOccurrencesSnoc<T>(xs: seq<T>, x: T)
    ensures FirstOccurrences(xs + [x])
         == if x in xs then FirstOccurrences(xs) else FirstOccurrences(xs) + [x]
  {
    assert (xs + [x])[..|xs|] == xs;
    var r0 := FirstOccurrences(xs);
    if x in xs {
      var i :| 0 <= i < |xs| && xs[i] == x;
      assert x in r0;
    }
  }

  /** Whatever is first seen in a prefix keeps its place: the result for a
      prefix is a prefix of the result for the whole. */
  lemma {:induction false} FirstOccurrencesPrefix<T>(xs: seq<T>, k: nat)
    requires k <= |xs|
    ensures |FirstOccurrences(xs[..k])| <= |FirstOccurrences(xs)|
    ensures FirstOccurrences(xs[..k]) == FirstOccurrences(xs)[..|FirstOccurrences(xs[..k])|]
    decreases |xs|
  {
    if k < |xs| {
      var p := xs[..|xs| - 1];
      assert xs[..k] == p[..k];
      FirstOccurrencesPrefix(p, k);
    } else {
      assert xs[..k] == xs;
    }
  }

  /** A duplicate-free sequence has as many elements as its set. */
  lemma {:induction false} NoDupCardinality<T>(xs: seq<T>)
    requires NoDup(xs)
    ensures |set x | x in xs| == |xs|
  {
    if xs != [] {
      var p := xs[..|xs| - 1];
      var x := xs[|xs| - 1];
      NoDupCardinality(p);
      assert x !in p;
      assert (set y | y in xs) == (set y | y in p) + {x};
    }
  }

  /** A duplicate-free sequence holds each value at most once. */
  lemma {:induction false} NoDupCounts<T>(xs: seq<T>)
    requires NoDup(xs)
    ensures forall x :: multiset(xs)[x] <= 1
  {
    if xs != [] {
      var p := xs[..|xs| - 1];
      var y := xs[|xs| - 1];
      assert xs == p + [y];
      NoDupCounts(p);
      assert y !in p;
    }
  }

  /** A sequence holding each value at most once is duplicate-free. */
  lemma CountsNoDup<T>(xs: seq<T>)
    requires forall x :: multiset(xs)[x] <= 1
    ensures NoDup(xs)
  {
    forall i, j | 0 <= i < j < |xs| ensures xs[i] != xs[j] {
      var x := xs[i];
      assert xs == xs[..j] + xs[j..];
      assert x in xs[..j];
      assert xs[j] in xs[j..];
      assert multiset(xs)[x] == multiset(xs[..j])[x] + multiset(xs[j..])[x];
    }
  }

  /** Being duplicate-free survives any reordering. */
  lemma NoDupPermutation<T>(xs: seq<T>, ys: seq<T>)
    requires NoDup(xs) && multiset(xs) == multiset(ys)
    ensures NoDup(ys)
  {
    NoDupCounts(xs);
    CountsNoDup(ys);
  }

  predicate SortedBy<T>(xs: seq<T>, key: T -> int) {
    forall i, j :: 0 <= i < j < |xs| ==> key(xs[i]) <= key(xs[j])
  }

  /** The elements of `xs` whose key is `v`, in order. */
  function WithKey<T>(xs: seq<T>, key: T -> int, v: int): (r: seq<T>)
    ensures |r| <= |xs|
  {
    if xs == [] then []
    else (if key(xs[0]) == v then [xs[0]] else []) + WithKey(xs[1..], key, v)
  }

  /** Places `x` after every element whose key does not exceed its own. */
  function Insert<T>(x: T, s: seq<T>, key: T -> int): (r: seq<T>)
    ensures multiset(r) == multiset(s) + multiset{x}
    ensures |r| == |s| + 1
  {
    if s == [] then [x]
    else if key(s[0]) <= key(x) then
      assert s == [s[0]] + s[1..];
      [s[0]] + Insert(x, s[1..], key)
    else [x] + s
  }

  /** `xs.slice().sort((a, b) => key(a) - key(b))` */
  function SortBy<T>(xs: seq<T>, key: T -> int): (r: seq<T>)
    ensures multiset(r) == multiset(xs)
    ensures |r| == |xs|
  {
    if xs == [] then []
    else
      assert xs == xs[..|xs| - 1] + [xs[|xs| - 1]];
      Insert(xs[|xs| - 1], SortBy(xs[..|xs| - 1], key), key)
  }

  /** Inserting an element no smaller than a bound into a sequence no
      smaller than it keeps everything at or above the bound. */
  lemma {:induction false} InsertBounded<T>(x: T, s: seq<T>, key: T -> int, b: int)
    requires b <= key(x)
    requires forall i :: 0 <= i < |s| ==> b <= key(s[i])
    ensures forall i :: 0 <= i < |Insert(x, s, key)| ==> b <= key(Insert(x, s, key)[i])
  {
    if s != [] && key(s[0]) <= key(x) {
      InsertBounded(x, s[1..], key, b);
    }
  }

  lemma {:induction false} InsertSorted<T>(x: T, s: seq<T>, key: T -> int)
    requires SortedBy(s, key)
    ensures SortedBy(Insert(x, s, key), key)
  {
    if s != [] && key(s[0]) <= key(x) {
      InsertSorted(x, s[1..], key);
      InsertBounded(x, s[1..], key, key(s[0]));
    }
  }

  /** The sort puts the keys in non-decreasing order. */
  lemma {:induction false} SortBySorted<T>(xs: seq<T>, key: T -> int)
    ensures SortedBy(SortBy(xs, key), key)
  {
    if xs != [] {
      SortBySorted(xs[..|xs| - 1], key);
      InsertSorted(xs[|xs| - 1], SortBy(xs[..|xs| - 1], key), key);
    }
  }

  /** Concatenation seen from the front of its non-empty left operand. */
  lemma ConsAppend<T>(a: seq<T>, b: seq<T>)
    requires a != []
    ensures (a + b)[0] == a[0] && (a + b)[1..] == a[1..] + b
  {
  }

  lemma Associative<T>(x: seq<T>, y: seq<T>, z: seq<T>)
    ensures x + (y + z) == (x + y) + z
  {
  }

  lemma WithKeyCons<T>(x: T, r: seq<T>, key: T -> int, v: int)
    ensures WithKey([x] + r, key, v) == (if key(x) == v then [x] else []) + WithKey(r, key, v)
  {
    assert ([x] + r)[1..] == r;
  }

  lemma {:induction false} WithKeyAppend<T>(a: seq<T>, b: seq<T>, key: T -> int, v: int)
    ensures WithKey(a + b, key, v) == WithKey(a, key, v) + WithKey(b, key, v)
  {
    if a == [] {
      assert a + b == b;
    } else {
      var h := if key(a[0]) == v then [a[0]] else [];
      var x, y := WithKey(a[1..], key, v), WithKey(b, key, v);
      calc {
        WithKey(a + b, key, v);
        { assert a + b == [a[0]] + (a[1..] + b); }
        WithKey([a[0]] + (a[1..] + b), key, v);
        { WithKeyCons(a[0], a[1..] + b, key, v); }
        h + WithKey(a[1..] + b, key, v);
        { WithKeyAppend(a[1..], b, key, v); }
        h + (x + y);
        { Associative(h, x, y); }
        (h + x) + y;
      }
    }
  }

  lemma {:induction false} InsertStable<T>(x: T, s: seq<T>, key: T -> int, v: int)
    requires SortedBy(s, key)
    ensures WithKey(Insert(x, s, key), key, v)
         == WithKey(s, key, v) + (if key(x) == v then [x] else [])
  {
    var tail := if key(x) == v then [x] else [];
    if s == [] {
      assert WithKey([x], key, v) == tail by {
        WithKeyCons(x, [], key, v);
      }
    } else if key(s[0]) <= key(x) {
      var head := if key(s[0]) == v then [s[0]] else [];
      assert SortedBy(s[1..], key);
      calc {
        WithKey(Insert(x, s, key), key, v);
        WithKey([s[0]] + Insert(x, s[1..], key), key, v);
        { WithKeyCons(s[0], Insert(x, s[1..], key), key, v); }
        head + WithKey(Insert(x, s[1..], key), key, v);
        { InsertStable(x, s[1..], key, v); }
        head + (WithKey(s[1..], key, v) + tail);
        { Associative(head, WithKey(s[1..], key, v), tail); }
        (head + WithKey(s[1..], key, v)) + tail;
      }
    } else {
      InsertFirst(x, s, key, v);
    }
  }

  /** An element placed before a sorted sequence whose keys all exceed its
      own comes last among the elements of its key. */
  lemma InsertFirst<T>(x: T, s: seq<T>, key: T -> int, v: int)
    requires SortedBy(s, key) && s != [] && key(x) < key(s[0])
    ensures WithKey([x] + s, key, v) == WithKey(s, key, v) + (if key(x) == v then [x] else [])
  {
    WithKeyCons(x, s, key, v);
    if key(x) == v {
      WithKeyNone(s, key, v);
    }
  }

  lemma {:induction false} WithKeyNone<T>(s: seq<T>, key: T -> int, v: int)
    requires forall i :: 0 <= i < |s| ==> key(s[i]) > v
    ensures WithKey(s, key, v) == []
  {
    if s != [] {
      WithKeyNone(s[1..], key, v);
    }
  }

  /** The sort is stable: the elements sharing a key keep their input order. */
  lemma {:induction false} SortByStable<T>(xs: seq<T>, key: T -> int, v: int)
    ensures WithKey(SortBy(xs, key), key, v) == WithKey(xs, key, v)
  {
    if xs != [] {
      var p := xs[..|xs| - 1];
      var x := xs[|xs| - 1];
      var tail := if key(x) == v then [x] else [];
      assert xs == p + [x];
      assert WithKey([x], key, v) == tail by {
        assert [x][1..] == [];
      }
      calc {
        WithKey(SortBy(xs, key), key, v);
        WithKey(Insert(x, SortBy(p, key), key), key, v);
        { SortBySorted(p, key); InsertStable(x, SortBy(p, key), key, v); }
        WithKey(SortBy(p, key), key, v) + tail;
        { SortByStable(p, key, v); }
        WithKey(p, key, v) + tail;
        { WithKeyAppend(p, [x], key, v); }
        WithKey(xs, key, v);
      }
    }
  }
}
