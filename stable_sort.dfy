/**
  The stable sort that `Array.prototype.sort` performs (ECMAScript 2019 and
  later require stability).  A comparator of the form `(a, b) => k(a) - k(b)`
  orders by the integer key `k` ascending; `(a, b) => k(b) - k(a)` is the same
  sort by the key `-k`.  Elements with equal keys keep their input order.
*/
module StableSort {

  /** The elements of `s` whose key is `v`, in the order they occur in `s`. */
  function KeyClass<T>(s: seq<T>, key: T -> int, v: int): (r: seq<T>)
    ensures |r| <= |s|
  {
    if s == [] then []
    else (if key(s[0]) == v then [s[0]] else []) + KeyClass(s[1..], key, v)
  }

  /** `s` is non-decreasing by `key`. */
  ghost predicate SortedBy<T>(s: seq<T>, key: T -> int)
  {
    forall i, j :: 0 <= i < j < |s| ==> key(s[i]) <= key(s[j])
  }

  /** `r` is a stable sort of `s`: sorted, and every key class kept in input order. */
  ghost predicate IsStableSortOf<T>(r: seq<T>, s: seq<T>, key: T -> int)
  {
    && SortedBy(r, key)
    && |r| == |s|
    && forall v :: KeyClass(r, key, v) == KeyClass(s, key, v)
  }

  /** Inserts `x` in front of the first element whose key is not smaller. */
  function Insert<T>(x: T, s: seq<T>, key: T -> int): (r: seq<T>)
    ensures |r| == |s| + 1
    ensures multiset(r) == multiset(s) + multiset{x}
  {
    if s == [] || key(x) <= key(s[0]) then [x] + s
    else
      assert s == [s[0]] + s[1..];
      [s[0]] + Insert(x, s[1..], key)
  }

  /** Stable insertion sort by `key`, ascending. */
  function SortBy<T>(s: seq<T>, key: T -> int): (r: seq<T>)
    ensures |r| == |s|
    ensures multiset(r) == multiset(s)
  {
    if s == [] then []
    else
      assert s == [s[0]] + s[1..];
      Insert(s[0], SortBy(s[1..], key), key)
  }

  lemma KeyClassCons<T>(x: T, s: seq<T>, key: T -> int, v: int)
    ensures KeyClass([x] + s, key, v) == (if key(x) == v then [x] else []) + KeyClass(s, key, v)
  {
    assert ([x] + s)[1..] == s;
  }

  lemma {:induction false} InsertSorted<T>(x: T, s: seq<T>, key: T -> int)
    requires SortedBy(s, key)
    ensures SortedBy(Insert(x, s, key), key)
  {
    if s == [] || key(x) <= key(s[0]) {
      var r := [x] + s;
      forall i, j | 0 <= i < j < |r| ensures key(r[i]) <= key(r[j]) {
        if i == 0 {
          assert r[j] == s[j - 1];
          assert key(s[0]) <= key(s[j - 1]);
        } else {
          assert r[i] == s[i - 1] && r[j] == s[j - 1];
        }
      }
    } else {
      var u := s[1..];
      InsertSorted(x, u, key);
      var t := Insert(x, u, key);
      forall j | 0 <= j < |t| ensures key(s[0]) <= key(t[j]) {
        assert t[j] in multiset(t);
        if t[j] != x {
          assert t[j] in multiset(u);
          var k :| 0 <= k < |u| && u[k] == t[j];
          assert s[k + 1] == t[j];
        }
      }
      var r := [s[0]] + t;
      assert Insert(x, s, key) == r;
      forall i, j | 0 <= i < j < |r| ensures key(r[i]) <= key(r[j]) {
        if i == 0 {
          assert r[j] == t[j - 1];
        } else {
          assert r[i] == t[i - 1] && r[j] == t[j - 1];
        }
      }
    }
  }

  lemma {:induction false} InsertKeyClass<T>(x: T, s: seq<T>, key: T -> int, v: int)
    ensures KeyClass(Insert(x, s, key), key, v) == KeyClass([x] + s, key, v)
  {
    if s == [] || key(x) <= key(s[0]) {
    } else {
      var t := s[1..];
      assert s == [s[0]] + t;
      KeyClassCons(s[0], Insert(x, t, key), key, v);
      InsertKeyClass(x, t, key, v);
      KeyClassCons(x, t, key, v);
      KeyClassCons(x, s, key, v);
      KeyClassCons(s[0], t, key, v);
    }
  }

  /** The result of `SortBy` is sorted. */
  lemma {:induction false} SortBySorted<T>(s: seq<T>, key: T -> int)
    ensures SortedBy(SortBy(s, key), key)
  {
    if s != [] {
      SortBySorted(s[1..], key);
      InsertSorted(s[0], SortBy(s[1..], key), key);
    }
  }

  /** `SortBy` is stable: each key class comes out in input order. */
  lemma {:induction false} SortByStable<T>(s: seq<T>, key: T -> int, v: int)
    ensures KeyClass(SortBy(s, key), key, v) == KeyClass(s, key, v)
  {
    if s != [] {
      SortByStable(s[1..], key, v);
      InsertKeyClass(s[0], SortBy(s[1..], key), key, v);
      KeyClassCons(s[0], SortBy(s[1..], key), key, v);
      KeyClassCons(s[0], s[1..], key, v);
      assert s == [s[0]] + s[1..];
    }
  }

  /** `SortBy` meets the full specification of a stable sort. */
  lemma SortByIsStableSort<T>(s: seq<T>, key: T -> int)
    ensures IsStableSortOf(SortBy(s, key), s, key)
  {
    SortBySorted(s, key);
    forall v ensures KeyClass(SortBy(s, key), key, v) == KeyClass(s, key, v) {
      SortByStable(s, key, v);
    }
  }

  lemma {:induction false} KeyClassNonEmpty<T>(s: seq<T>, key: T -> int, i: int)
    requires 0 <= i < |s|
    ensures KeyClass(s, key, key(s[i])) != []
  {
    if i > 0 {
      KeyClassNonEmpty(s[1..], key, i - 1);
      KeyClassCons(s[0], s[1..], key, key(s[i]));
      assert s == [s[0]] + s[1..];
    }
  }

  lemma {:induction false} KeyClassMembers<T>(s: seq<T>, key: T -> int, v: int, x: T)
    requires x in KeyClass(s, key, v)
    ensures x in s && key(x) == v
  {
    if s != [] {
      if x != s[0] || key(s[0]) != v {
        KeyClassMembers(s[1..], key, v, x);
      }
    }
  }

  /** The head of the key class of `v` is the first element of `s` with key `v`. */
  lemma {:induction false} KeyClassHead<T>(s: seq<T>, key: T -> int, v: int) returns (i: nat)
    requires KeyClass(s, key, v) != []
    ensures i < |s| && key(s[i]) == v && KeyClass(s, key, v)[0] == s[i]
    ensures forall j :: 0 <= j < i ==> key(s[j]) != v
  {
    if key(s[0]) == v {
      i := 0;
    } else {
      var k := KeyClassHead(s[1..], key, v);
      i := k + 1;
    }
  }

  /** In a sorted sequence the head has the minimal key. */
  lemma SortedHeadMinimal<T>(s: seq<T>, key: T -> int, v: int)
    requires SortedBy(s, key) && s != []
    requires KeyClass(s, key, v) != []
    ensures key(s[0]) <= v
  {
    var i := KeyClassHead(s, key, v);
    assert i == 0 || key(s[0]) <= key(s[i]);
  }

  /** Sorted sequences with the same key classes start with the same element. */
  lemma SameHead<T>(a: seq<T>, b: seq<T>, key: T -> int)
    requires SortedBy(a, key) && SortedBy(b, key) && a != [] && b != []
    requires forall v :: KeyClass(a, key, v) == KeyClass(b, key, v)
    ensures a[0] == b[0]
  {
    var ma, mb := key(a[0]), key(b[0]);
    KeyClassNonEmpty(a, key, 0);
    KeyClassNonEmpty(b, key, 0);
    assert KeyClass(b, key, ma) != [];
    assert KeyClass(a, key, mb) != [];
    SortedHeadMinimal(b, key, ma);
    SortedHeadMinimal(a, key, mb);
    var ja := KeyClassHead(a, key, ma);
    var jb := KeyClassHead(b, key, ma);
    assert ja == 0 && jb == 0;
  }

  /** Removing a common head keeps the key classes equal. */
  lemma SameTailClasses<T>(a: seq<T>, b: seq<T>, key: T -> int, v: int)
    requires a != [] && b != [] && a[0] == b[0]
    requires KeyClass(a, key, v) == KeyClass(b, key, v)
    ensures KeyClass(a[1..], key, v) == KeyClass(b[1..], key, v)
  {
    assert a == [a[0]] + a[1..];
    assert b == [b[0]] + b[1..];
    KeyClassCons(a[0], a[1..], key, v);
    KeyClassCons(b[0], b[1..], key, v);
    var p := if key(a[0]) == v then [a[0]] else [];
    var ka, kb := KeyClass(a[1..], key, v), KeyClass(b[1..], key, v);
    assert p + ka == p + kb;
    assert ka == (p + ka)[|p|..];
    assert kb == (p + kb)[|p|..];
  }

  /** Two sorted sequences with the same key classes are equal. */
  lemma {:induction false} StableSortUnique<T>(a: seq<T>, b: seq<T>, key: T -> int)
    requires SortedBy(a, key) && SortedBy(b, key)
    requires forall v :: KeyClass(a, key, v) == KeyClass(b, key, v)
    ensures a == b
    decreases |a| + |b|
  {
    if a == [] && b == [] {
    } else if a == [] {
      KeyClassNonEmpty(b, key, 0);
    } else if b == [] {
      KeyClassNonEmpty(a, key, 0);
    } else {
      SameHead(a, b, key);
      forall v ensures KeyClass(a[1..], key, v) == KeyClass(b[1..], key, v) {
        SameTailClasses(a, b, key, v);
      }
      StableSortUnique(a[1..], b[1..], key);
      assert a == [a[0]] + a[1..];
      assert b == [b[0]] + b[1..];
    }
  }

  /** Any stable sort of `s` by `key` is exactly `SortBy(s, key)`. */
  lemma StableSortIsSortBy<T>(r: seq<T>, s: seq<T>, key: T -> int)
    requires IsStableSortOf(r, s, key)
    ensures r == SortBy(s, key)
  {
    SortByIsStableSort(s, key);
    StableSortUnique(r, SortBy(s, key), key);
  }

  /** An element of `s` sits in its key class. */
  lemma {:induction false} KeyClassPos<T>(s: seq<T>, key: T -> int, i: nat) returns (p: nat)
    requires i < |s|
    ensures p < |KeyClass(s, key, key(s[i]))| && KeyClass(s, key, key(s[i]))[p] == s[i]
  {
    var v := key(s[i]);
    assert s == [s[0]] + s[1..];
    KeyClassCons(s[0], s[1..], key, v);
    if i == 0 {
      p := 0;
    } else {
      var p' := KeyClassPos(s[1..], key, i - 1);
      p := if key(s[0]) == v then p' + 1 else p';
    }
  }

  /** Two elements of `s` with the same key sit in their key class in the same order. */
  lemma {:induction false} KeyClassOrder<T>(s: seq<T>, key: T -> int, i: nat, j: nat) returns (p: nat, q: nat)
    requires i < j < |s| && key(s[i]) == key(s[j])
    ensures p < q < |KeyClass(s, key, key(s[i]))|
    ensures KeyClass(s, key, key(s[i]))[p] == s[i] && KeyClass(s, key, key(s[i]))[q] == s[j]
  {
    var v := key(s[i]);
    assert s == [s[0]] + s[1..];
    KeyClassCons(s[0], s[1..], key, v);
    if i == 0 {
      var q' := KeyClassPos(s[1..], key, j - 1);
      p, q := 0, q' + 1;
    } else {
      var p', q' := KeyClassOrder(s[1..], key, i - 1, j - 1);
      if key(s[0]) == v {
        p, q := p' + 1, q' + 1;
      } else {
        p, q := p', q';
      }
    }
  }

  /** A member of a key class is an element of `s`. */
  lemma {:induction false} KeyClassSource<T>(s: seq<T>, key: T -> int, v: int, p: nat) returns (a: nat)
    requires p < |KeyClass(s, key, v)|
    ensures a < |s| && s[a] == KeyClass(s, key, v)[p]
  {
    assert s == [s[0]] + s[1..];
    KeyClassCons(s[0], s[1..], key, v);
    if key(s[0]) == v && p == 0 {
      a := 0;
    } else {
      var a' := KeyClassSource(s[1..], key, v, if key(s[0]) == v then p - 1 else p);
      a := a' + 1;
    }
  }

  /** Members of a key class come from `s` in the same order. */
  lemma {:induction false} KeyClassSources<T>(s: seq<T>, key: T -> int, v: int, p: nat, q: nat) returns (a: nat, b: nat)
    requires p < q < |KeyClass(s, key, v)|
    ensures a < b < |s| && s[a] == KeyClass(s, key, v)[p] && s[b] == KeyClass(s, key, v)[q]
  {
    assert s == [s[0]] + s[1..];
    KeyClassCons(s[0], s[1..], key, v);
    if key(s[0]) == v && p == 0 {
      var b' := KeyClassSource(s[1..], key, v, q - 1);
      a, b := 0, b' + 1;
    } else {
      var d := if key(s[0]) == v then 1 else 0;
      var a', b' := KeyClassSources(s[1..], key, v, p - d, q - d);
      a, b := a' + 1, b' + 1;
    }
  }

  /**
    Stability pointwise: two elements that `SortBy` puts in order with equal
    keys come from positions of `s` in that same order.
  */
  lemma TiesKeepInputOrder<T>(s: seq<T>, key: T -> int, i: nat, j: nat) returns (a: nat, b: nat)
    requires i < j < |s| && key(SortBy(s, key)[i]) == key(SortBy(s, key)[j])
    ensures a < b < |s| && s[a] == SortBy(s, key)[i] && s[b] == SortBy(s, key)[j]
  {
    var r := SortBy(s, key);
    var v := key(r[i]);
    var p, q := KeyClassOrder(r, key, i, j);
    SortByStable(s, key, v);
    a, b := KeyClassSources(s, key, v, p, q);
  }

  /**
    `SortBy(s, key)[0]` is the first element of `s` whose key is minimal:
    this is what `[...s].sort(cmp)[0]` yields.
  */
  lemma HeadIsFirstMinimal<T>(s: seq<T>, key: T -> int) returns (i: nat)
    requires s != []
    ensures i < |s| && SortBy(s, key)[0] == s[i]
    ensures forall j :: 0 <= j < |s| ==> key(s[i]) <= key(s[j])
    ensures forall j :: 0 <= j < i ==> key(s[i]) < key(s[j])
  {
    var r := SortBy(s, key);
    SortByIsStableSort(s, key);
    var v := key(r[0]);
    forall j | 0 <= j < |s| ensures v <= key(s[j]) {
      assert s[j] in multiset(r);
      var k :| 0 <= k < |r| && r[k] == s[j];
      assert k == 0 || key(r[0]) <= key(r[k]);
    }
    KeyClassNonEmpty(r, key, 0);
    var i0 := KeyClassHead(r, key, v);
    assert i0 == 0;
    i := KeyClassHead(s, key, v);
  }
}
