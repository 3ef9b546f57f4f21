/** `Array.prototype.filter` on sequences, and the facts the components rely on. */
module Seqs {

  /** `s.filter(p)`: the elements satisfying `p`, in order. */
  function Filter<T(!new)>(s: seq<T>, p: T -> bool): (r: seq<T>)
    ensures |r| <= |s|
    ensures forall x {:trigger x in r} :: x in r <==> x in s && p(x)
    ensures forall x {:trigger multiset(r)[x]} :: multiset(r)[x] == if p(x) then multiset(s)[x] else 0
  {
    if s == [] then []
    else
      assert s == [s[0]] + s[1..];
      (if p(s[0]) then [s[0]] else []) + Filter(s[1..], p)
  }

  /** Filtering distributes over concatenation: order is kept. */
  lemma {:induction false} FilterAppend<T(!new)>(a: seq<T>, b: seq<T>, p: T -> bool)
    ensures Filter(a + b, p) == Filter(a, p) + Filter(b, p)
    decreases |a|
  {
    if a == [] {
      FilterAppendNil(a, b, p);
    } else {
      FilterAppend(a[1..], b, p);
      FilterAppendCons(a, b, p);
    }
  }

  lemma FilterAppendNil<T(!new)>(a: seq<T>, b: seq<T>, p: T -> bool)
    requires a == []
    ensures Filter(a + b, p) == Filter(a, p) + Filter(b, p)
  {
    assert a + b == b;
  }

  /** The inductive step of `FilterAppend`, one equation at a time. */
  lemma FilterAppendCons<T(!new)>(a: seq<T>, b: seq<T>, p: T -> bool)
    requires a != []
    requires Filter(a[1..] + b, p) == Filter(a[1..], p) + Filter(b, p)
    ensures Filter(a + b, p) == Filter(a, p) + Filter(b, p)
  {
    var h := if p(a[0]) then [a[0]] else [];
    calc {
      Filter(a + b, p);
      { FilterCons(a + b, p); assert (a + b)[0] == a[0]; }
      h + Filter((a + b)[1..], p);
      { assert (a + b)[1..] == a[1..] + b; }
      h + Filter(a[1..] + b, p);
      h + (Filter(a[1..], p) + Filter(b, p));
      { AppendAssoc(h, Filter(a[1..], p), Filter(b, p)); }
      (h + Filter(a[1..], p)) + Filter(b, p);
      { FilterCons(a, p); }
      Filter(a, p) + Filter(b, p);
    }
  }

  /** Concatenation is associative (proved apart, away from the facts about `Filter`). */
  lemma AppendAssoc<T>(x: seq<T>, y: seq<T>, z: seq<T>)
    ensures x + (y + z) == (x + y) + z
  {
  }

  /** One unfolding of `Filter`. */
  lemma FilterCons<T(!new)>(s: seq<T>, p: T -> bool)
    requires s != []
    ensures Filter(s, p) == (if p(s[0]) then [s[0]] else []) + Filter(s[1..], p)
  {
  }

  /** Filtering a non-empty sequence: filter all but the last, then keep the last if it passes. */
  lemma FilterSnoc<T(!new)>(s: seq<T>, p: T -> bool)
    requires s != []
    ensures Filter(s, p) == Filter(s[..|s| - 1], p) + (if p(s[|s| - 1]) then [s[|s| - 1]] else [])
  {
    var init, x := s[..|s| - 1], s[|s| - 1];
    assert s == init + [x];
    FilterAppend(init, [x], p);
    FilterOne(x, p);
  }

  lemma FilterOne<T(!new)>(x: T, p: T -> bool)
    ensures Filter([x], p) == if p(x) then [x] else []
  {
    assert [x][1..] == [];
  }

  /** A filter every element passes changes nothing. */
  lemma {:induction false} FilterAll<T(!new)>(s: seq<T>, p: T -> bool)
    requires forall i :: 0 <= i < |s| ==> p(s[i])
    ensures Filter(s, p) == s
  {
    if s != [] {
      FilterAll(s[1..], p);
    }
  }

  /** Two filters in a row are one filter by the conjunction. */
  lemma {:induction false} FilterFilter<T(!new)>(s: seq<T>, p: T -> bool, q: T -> bool, pq: T -> bool)
    requires forall x :: pq(x) == (p(x) && q(x))
    ensures Filter(Filter(s, p), q) == Filter(s, pq)
  {
    if s != [] {
      FilterFilter(s[1..], p, q, pq);
      var x := Filter(s, p);
      if p(s[0]) {
        assert x == [s[0]] + Filter(s[1..], p);
        assert x[0] == s[0] && x[1..] == Filter(s[1..], p);
        assert Filter(x, q) == (if q(s[0]) then [s[0]] else []) + Filter(x[1..], q);
      } else {
        assert x == Filter(s[1..], p);
      }
    }
  }

  /** Filters that agree on every element give the same result. */
  lemma {:induction false} FilterSame<T(!new)>(s: seq<T>, p: T -> bool, q: T -> bool)
    requires forall i :: 0 <= i < |s| ==> p(s[i]) == q(s[i])
    ensures Filter(s, p) == Filter(s, q)
  {
    if s != [] {
      FilterSame(s[1..], p, q);
    }
  }

  /** Strictly increasing positions of `s` holding the elements of `r`, in order. */
  ghost predicate IsIndexing<T>(idx: seq<nat>, s: seq<T>, r: seq<T>)
  {
    && |idx| == |r|
    && (forall k :: 0 <= k < |idx| ==> idx[k] < |s| && s[idx[k]] == r[k])
    && (forall k, l :: 0 <= k < l < |idx| ==> idx[k] < idx[l])
  }

  lemma PrependIndexing<T>(s: seq<T>, tail: seq<T>, rest: seq<nat>, keep: bool) returns (idx: seq<nat>)
    requires s != [] && IsIndexing(rest, s[1..], tail)
    ensures IsIndexing(idx, s, (if keep then [s[0]] else []) + tail)
  {
    var shifted := seq(|rest|, k requires 0 <= k < |rest| => rest[k] + 1);
    forall k | 0 <= k < |shifted| ensures shifted[k] < |s| && s[shifted[k]] == tail[k] {
      assert s[rest[k] + 1] == s[1..][rest[k]];
    }
    var r := (if keep then [s[0]] else []) + tail;
    if keep {
      idx := [0] + shifted;
      forall k | 0 <= k < |idx| ensures idx[k] < |s| && s[idx[k]] == r[k] {
        if k > 0 {
          assert idx[k] == shifted[k - 1] && r[k] == tail[k - 1];
        }
      }
    } else {
      idx := shifted;
    }
  }

  /**
    The result of a filter is a subsequence: its elements sit at strictly
    increasing positions of the input.
  */
  lemma {:induction false} FilterIndices<T(!new)>(s: seq<T>, p: T -> bool) returns (idx: seq<nat>)
    ensures IsIndexing(idx, s, Filter(s, p))
  {
    if s == [] {
      idx := [];
    } else {
      var rest := FilterIndices(s[1..], p);
      idx := PrependIndexing(s, Filter(s[1..], p), rest, p(s[0]));
    }
  }

  /** An element at two positions occurs at least twice. */
  lemma TwiceInMultiset<T>(s: seq<T>, i: nat, j: nat)
    requires i < j < |s| && s[i] == s[j]
    ensures multiset(s)[s[i]] >= 2
  {
    assert s == s[..j] + [s[j]] + s[j + 1..];
    assert s[..j][i] == s[i];
    assert s[i] in multiset(s[..j]);
  }

  /** No element occurs twice. */
  ghost predicate Distinct<T>(s: seq<T>)
  {
    forall i, j :: 0 <= i < j < |s| ==> s[i] != s[j]
  }

  /** An element of a sequence without repetitions occurs once. */
  lemma DistinctOnce<T>(s: seq<T>, a: nat)
    requires Distinct(s) && a < |s|
    ensures multiset(s)[s[a]] == 1
  {
    assert s == s[..a] + [s[a]] + s[a + 1..];
    assert s[a] !in s[..a] by {
      forall k | 0 <= k < a ensures s[..a][k] != s[a] {
        assert s[k] != s[a];
      }
    }
    assert s[a] !in s[a + 1..] by {
      forall k | a < k < |s| ensures s[k] != s[a] {
        assert s[k] != s[a];
      }
    }
  }

  /** A permutation of a sequence without repetitions has none. */
  lemma PermutationDistinct<T>(s: seq<T>, r: seq<T>)
    requires Distinct(s) && multiset(r) == multiset(s)
    ensures Distinct(r)
  {
    forall i, j | 0 <= i < j < |r| ensures r[i] != r[j] {
      if r[i] == r[j] {
        TwiceInMultiset(r, i, j);
        assert r[i] in multiset(s);
        var a :| 0 <= a < |s| && s[a] == r[i];
        DistinctOnce(s, a);
      }
    }
  }
}
