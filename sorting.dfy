/** The stable sort the application gets from `Array.prototype.sort` with a comparator
    that orders by one key (a number or a string) ascending or descending, and returns 0
    for equal keys. */
module Sorting {
  import opened Common

  /** A value a comparator orders by. */
  datatype Key = Num(n: real) | Str(s: string)

  /** JavaScript's `<` on strings: lexicographic by character code. */
  predicate LexLess(a: string, b: string)
    decreases |a|
  {
    if a == [] then b != []
    else if b == [] then false
    else if a[0] != b[0] then a[0] < b[0]
    else LexLess(a[1..], b[1..])
  }

  lemma {:induction false} LexIrreflexive(a: string)
    ensures !LexLess(a, a)
    decreases |a|
  {
    if a != [] {
      LexIrreflexive(a[1..]);
    }
  }

  lemma {:induction false} LexTransitive(a: string, b: string, c: string)
    requires LexLess(a, b) && LexLess(b, c)
    ensures LexLess(a, c)
    decreases |a|
  {
    if a != [] && b != [] && c != [] && a[0] == b[0] && b[0] == c[0] {
      LexTransitive(a[1..], b[1..], c[1..]);
    }
  }

  lemma {:induction false} LexTrichotomy(a: string, b: string)
    ensures a == b || LexLess(a, b) || LexLess(b, a)
    decreases |a|
  {
    if a != [] && b != [] && a[0] == b[0] {
      LexTrichotomy(a[1..], b[1..]);
      if a[1..] == b[1..] {
        assert a == [a[0]] + a[1..] && b == [b[0]] + b[1..];
      }
    }
  }

  /** Numbers sort before strings; the application never compares a number with a string. */
  predicate KeyLess(a: Key, b: Key) {
    match (a, b)
    case (Num(x), Num(y)) => x < y
    case (Str(x), Str(y)) => LexLess(x, y)
    case (Num(_), Str(_)) => true
    case (Str(_), Num(_)) => false
  }

  /** KeyLess is a strict total order. */
  lemma KeyLessOrder(a: Key, b: Key, c: Key)
    ensures !KeyLess(a, a)
    ensures KeyLess(a, b) && KeyLess(b, c) ==> KeyLess(a, c)
    ensures a == b || KeyLess(a, b) || KeyLess(b, a)
  {
    if a.Str? {
      LexIrreflexive(a.s);
    }
    if a.Str? && b.Str? {
      LexTrichotomy(a.s, b.s);
    }
    if a.Str? && b.Str? && c.Str? && LexLess(a.s, b.s) && LexLess(b.s, c.s) {
      LexTransitive(a.s, b.s, c.s);
    }
  }

  /** `a` may stay in front of `b` in the requested direction. */
  predicate InOrder(a: Key, b: Key, desc: bool) {
    if desc then !KeyLess(a, b) else !KeyLess(b, a)
  }

  lemma InOrderTotal(a: Key, b: Key, desc: bool)
    ensures InOrder(a, b, desc) || InOrder(b, a, desc)
    ensures InOrder(a, b, desc) && InOrder(b, a, desc) <==> a == b
  {
    KeyLessOrder(a, b, a);
  }

  lemma InOrderTransitive(a: Key, b: Key, c: Key, desc: bool)
    requires InOrder(a, b, desc) && InOrder(b, c, desc)
    ensures InOrder(a, c, desc)
  {
    KeyLessOrder(a, b, c);
    KeyLessOrder(c, a, b);
    KeyLessOrder(b, c, a);
    KeyLessOrder(a, c, b);
    KeyLessOrder(c, b, a);
    KeyLessOrder(b, a, c);
  }

  ghost predicate Sorted<T>(r: seq<T>, key: T -> Key, desc: bool) {
    forall i, j :: 0 <= i < j < |r| ==> InOrder(key(r[i]), key(r[j]), desc)
  }

  /** The elements of `s` whose key is `k`, in their order in `s`. */
  function WithKey<T>(s: seq<T>, key: T -> Key, k: Key): seq<T> {
    Filter(s, HasKey(key, k))
  }

  function HasKey<T>(key: T -> Key, k: Key): T -> bool {
    y => key(y) == k
  }

  /** Places `x` after every element at the front of `r` that may precede it. */
  function Insert<T>(r: seq<T>, x: T, key: T -> Key, desc: bool): seq<T>
    decreases |r|
  {
    if r == [] then [x]
    else if !InOrder(key(r[0]), key(x), desc) then [x] + r
    else [r[0]] + Insert(r[1..], x, key, desc)
  }

  lemma {:induction false} InsertPermutes<T>(r: seq<T>, x: T, key: T -> Key, desc: bool)
    ensures multiset(Insert(r, x, key, desc)) == multiset(r) + multiset{x}
    decreases |r|
  {
    if r != [] && InOrder(key(r[0]), key(x), desc) {
      InsertPermutes(r[1..], x, key, desc);
      assert r == [r[0]] + r[1..];
    }
  }

  /** Every element after the first of a sorted sequence may follow the first. */
  lemma HeadPrecedes<T>(r: seq<T>, key: T -> Key, desc: bool, e: T)
    requires Sorted(r, key, desc) && r != [] && e in multiset(r[1..])
    ensures InOrder(key(r[0]), key(e), desc)
  {
    var j :| 0 <= j < |r[1..]| && r[1..][j] == e;
    assert r[j + 1] == e;
  }

  lemma {:induction false} InsertSorted<T>(r: seq<T>, x: T, key: T -> Key, desc: bool)
    requires Sorted(r, key, desc)
    ensures Sorted(Insert(r, x, key, desc), key, desc)
    decreases |r|
  {
    if r == [] {
    } else if !InOrder(key(r[0]), key(x), desc) {
      InOrderTotal(key(r[0]), key(x), desc);
      PrependSorted(r, x, key, desc);
    } else {
      var t := Insert(r[1..], x, key, desc);
      InsertSorted(r[1..], x, key, desc);
      InsertPermutes(r[1..], x, key, desc);
      forall e | e in t ensures InOrder(key(r[0]), key(e), desc) {
        assert e in multiset(t);
        if e != x {
          HeadPrecedes(r, key, desc, e);
        }
      }
      ConsSorted(r[0], t, key, desc);
    }
  }

  /** An element that may precede the head of a sorted sequence may precede all of it. */
  lemma PrependSorted<T>(r: seq<T>, x: T, key: T -> Key, desc: bool)
    requires Sorted(r, key, desc) && r != [] && InOrder(key(x), key(r[0]), desc)
    ensures Sorted([x] + r, key, desc)
  {
    var q := [x] + r;
    forall i, j | 0 <= i < j < |q| ensures InOrder(key(q[i]), key(q[j]), desc) {
      if i == 0 {
        if j > 1 {
          InOrderTransitive(key(x), key(r[0]), key(r[j - 1]), desc);
        }
      } else {
        assert q[i] == r[i - 1] && q[j] == r[j - 1];
      }
    }
  }

  lemma ConsSorted<T>(h: T, t: seq<T>, key: T -> Key, desc: bool)
    requires Sorted(t, key, desc) && forall e :: e in t ==> InOrder(key(h), key(e), desc)
    ensures Sorted([h] + t, key, desc)
  {
    var q := [h] + t;
    forall i, j | 0 <= i < j < |q| ensures InOrder(key(q[i]), key(q[j]), desc) {
      if i == 0 {
        assert q[j] == t[j - 1];
      } else {
        assert q[i] == t[i - 1] && q[j] == t[j - 1];
      }
    }
  }

  /** Insertion sort: a stable sort of `s` by `key`, ascending or descending. */
  function SortBy<T>(s: seq<T>, key: T -> Key, desc: bool): (r: seq<T>)
    ensures multiset(r) == multiset(s)
    ensures Sorted(r, key, desc)
    decreases |s|
  {
    if s == [] then []
    else
      var init, x := s[..|s| - 1], s[|s| - 1];
      assert s == init + [x];
      var sortedInit := SortBy(init, key, desc);
      InsertPermutes(sortedInit, x, key, desc);
      InsertSorted(sortedInit, x, key, desc);
      Insert(sortedInit, x, key, desc)
  }

  lemma {:induction false} InsertWithKey<T>(r: seq<T>, x: T, key: T -> Key, desc: bool, k: Key)
    requires Sorted(r, key, desc)
    ensures WithKey(Insert(r, x, key, desc), key, k) == WithKey(r, key, k) + (if key(x) == k then [x] else [])
    decreases |r|
  {
    if r == [] {
      FilterCons(x, [], HasKey(key, k));
    } else if !InOrder(key(r[0]), key(x), desc) {
      InsertInFront(r, x, key, desc, k);
    } else {
      SortedTail(r, key, desc);
      InsertWithKey(r[1..], x, key, desc, k);
      InsertBehindHead(r, x, key, desc, k);
    }
  }

  lemma SortedTail<T>(r: seq<T>, key: T -> Key, desc: bool)
    requires Sorted(r, key, desc) && r != []
    ensures Sorted(r[1..], key, desc)
  {
    forall i, j | 0 <= i < j < |r[1..]| ensures InOrder(key(r[1..][i]), key(r[1..][j]), desc) {
      assert r[1..][i] == r[i + 1] && r[1..][j] == r[j + 1];
    }
  }

  /** When `x` goes in front, it is the only element of the result with its key. */
  lemma InsertInFront<T>(r: seq<T>, x: T, key: T -> Key, desc: bool, k: Key)
    requires Sorted(r, key, desc) && r != [] && !InOrder(key(r[0]), key(x), desc)
    ensures WithKey(Insert(r, x, key, desc), key, k) == WithKey(r, key, k) + (if key(x) == k then [x] else [])
  {
    var p := HasKey(key, k);
    assert Insert(r, x, key, desc) == [x] + r;
    FilterCons(x, r, p);
    if key(x) == k {
      NoneShareKey(r, x, key, desc);
      FilterNone(r, p);
    }
  }

  /** When `x` goes behind the head, the head's contribution is unchanged. */
  lemma InsertBehindHead<T>(r: seq<T>, x: T, key: T -> Key, desc: bool, k: Key)
    requires r != [] && InOrder(key(r[0]), key(x), desc)
    requires WithKey(Insert(r[1..], x, key, desc), key, k) == WithKey(r[1..], key, k) + (if key(x) == k then [x] else [])
    ensures WithKey(Insert(r, x, key, desc), key, k) == WithKey(r, key, k) + (if key(x) == k then [x] else [])
  {
    var p := HasKey(key, k);
    var t := Insert(r[1..], x, key, desc);
    var head: seq<T> := if p(r[0]) then [r[0]] else [];
    var extra: seq<T> := if key(x) == k then [x] else [];
    assert WithKey(Insert(r, x, key, desc), key, k) == head + Filter(t, p) by {
      assert Insert(r, x, key, desc) == [r[0]] + t;
      FilterCons(r[0], t, p);
    }
    FilterHead(r, p);
    ConcatAssoc(head, Filter(r[1..], p), extra);
  }

  /** An element that must precede the head of a sorted sequence shares its key with no
      element of it. */
  lemma NoneShareKey<T>(r: seq<T>, x: T, key: T -> Key, desc: bool)
    requires Sorted(r, key, desc) && r != [] && !InOrder(key(r[0]), key(x), desc)
    ensures forall j :: 0 <= j < |r| ==> key(r[j]) != key(x)
  {
    InOrderTotal(key(r[0]), key(x), desc);
    forall j | 0 <= j < |r| ensures key(r[j]) != key(x) {
      if j > 0 {
        assert InOrder(key(r[0]), key(r[j]), desc);
      }
    }
  }

  /** Elements with equal keys leave the sort in the order they entered it. */
  lemma {:induction false} SortByStable<T>(s: seq<T>, key: T -> Key, desc: bool, k: Key)
    ensures WithKey(SortBy(s, key, desc), key, k) == WithKey(s, key, k)
    decreases |s|
  {
    if s != [] {
      var init, x := s[..|s| - 1], s[|s| - 1];
      var p := HasKey(key, k);
      var sortedInit := SortBy(init, key, desc);
      assert SortBy(s, key, desc) == Insert(sortedInit, x, key, desc);
      SortByStable(init, key, desc, k);
      InsertWithKey(sortedInit, x, key, desc, k);
      assert Filter([x], p) == if key(x) == k then [x] else [];
      SplitLast(s);
      FilterAppend(init, [x], p);
      calc {
        WithKey(SortBy(s, key, desc), key, k);
        WithKey(Insert(sortedInit, x, key, desc), key, k);
        WithKey(sortedInit, key, k) + Filter([x], p);
        Filter(init, p) + Filter([x], p);
        Filter(init + [x], p);
      }
    }
  }

  /** The first `n` elements (`Array.prototype.slice(0, n)`). */
  function Take<T>(s: seq<T>, n: nat): (r: seq<T>)
    ensures |r| == if n < |s| then n else |s|
    ensures r == s[..|r|]
  {
    if n < |s| then s[..n] else s
  }
}
