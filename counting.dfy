/**
  Frequency counters.  The source counts with `acc[k] = (acc[k] || 0) + 1`
  into a plain object and reads it back with `Object.entries`, which lists
  (non-integer-like) keys in insertion order.  Such a counter is modelled as an
  association list of (key, count) pairs in insertion order.
*/
module Counting {
  import opened Wrappers
  import opened StableSort

  type Counts<K> = seq<(K, nat)>

  /** The keys of a counter, in its order (`Object.keys`). */
  function Keys<K>(es: Counts<K>): (r: seq<K>)
    ensures |r| == |es|
    ensures forall i :: 0 <= i < |es| ==> r[i] == es[i].0
  {
    if es == [] then [] else [es[0].0] + Keys(es[1..])
  }

  /** `acc[k] || 0`: the count stored for `k`, 0 when absent. */
  function Get<K(==)>(es: Counts<K>, k: K): nat
  {
    if es == [] then 0 else if es[0].0 == k then es[0].1 else Get(es[1..], k)
  }

  /** `acc[k] = (acc[k] || 0) + 1`: an existing key is updated where it is, a new key goes last. */
  function Bump<K(==)>(es: Counts<K>, k: K): Counts<K>
  {
    if es == [] then [(k, 1)]
    else if es[0].0 == k then [(k, es[0].1 + 1)] + es[1..]
    else [es[0]] + Bump(es[1..], k)
  }

  /** Counting every element of `xs`, left to right. */
  function CountAll<K(==)>(xs: seq<K>): Counts<K>
  {
    if xs == [] then [] else Bump(CountAll(xs[..|xs| - 1]), xs[|xs| - 1])
  }

  /** Total of all counts. */
  function SumCounts<K>(es: Counts<K>): nat
  {
    if es == [] then 0 else es[0].1 + SumCounts(es[1..])
  }

  ghost predicate DistinctKeys<K>(es: Counts<K>)
  {
    forall i, j :: 0 <= i < j < |es| ==> es[i].0 != es[j].0
  }

  /** Position of the first occurrence of `k` in `xs`. */
  function FirstIndex<K(==)>(xs: seq<K>, k: K): (i: nat)
    requires k in xs
    ensures i < |xs| && xs[i] == k
    ensures forall j :: 0 <= j < i ==> xs[j] != k
  {
    if xs[0] == k then 0 else 1 + FirstIndex(xs[1..], k)
  }

  /** The keys of `es` are ordered by their first occurrence in `xs`. */
  ghost predicate InFirstOccurrenceOrder<K>(es: Counts<K>, xs: seq<K>)
  {
    && (forall i :: 0 <= i < |es| ==> es[i].0 in xs)
    && (forall i, j :: 0 <= i < j < |es| ==> FirstIndex(xs, es[i].0) < FirstIndex(xs, es[j].0))
  }

  /**
    `k` is the first-encountered most frequent element of `xs`: no element
    occurs more often, and every element occurring as often first occurs later.
  */
  ghost predicate IsFirstMode<K>(xs: seq<K>, k: K)
  {
    && k in xs
    && (forall y :: y in xs ==> multiset(xs)[y] <= multiset(xs)[k])
    && (forall y :: y in xs && multiset(xs)[y] == multiset(xs)[k] ==> FirstIndex(xs, k) <= FirstIndex(xs, y))
  }

  lemma {:induction false} GetAt<K>(es: Counts<K>, i: nat)
    requires DistinctKeys(es) && i < |es|
    ensures Get(es, es[i].0) == es[i].1
  {
    if i > 0 {
      GetAt(es[1..], i - 1);
    }
  }

  lemma {:induction false} GetAbsent<K>(es: Counts<K>, k: K)
    requires k !in Keys(es)
    ensures Get(es, k) == 0
  {
    if es != [] {
      assert Keys(es)[0] == es[0].0;
      assert forall y :: y in Keys(es[1..]) ==> y in Keys(es) by {
        assert Keys(es) == [es[0].0] + Keys(es[1..]);
      }
      GetAbsent(es[1..], k);
    }
  }

  lemma {:induction false} BumpGet<K>(es: Counts<K>, k: K, y: K)
    ensures Get(Bump(es, k), y) == Get(es, y) + (if y == k then 1 else 0)
  {
    if es != [] && es[0].0 != k {
      BumpGet(es[1..], k, y);
      assert ([es[0]] + Bump(es[1..], k))[1..] == Bump(es[1..], k);
    } else if es != [] {
      assert ([(k, es[0].1 + 1)] + es[1..])[1..] == es[1..];
    }
  }

  lemma {:induction false} BumpSum<K>(es: Counts<K>, k: K)
    ensures SumCounts(Bump(es, k)) == SumCounts(es) + 1
  {
    if es == [] {
    } else if es[0].0 == k {
      assert ([(k, es[0].1 + 1)] + es[1..])[1..] == es[1..];
    } else {
      BumpSum(es[1..], k);
      assert ([es[0]] + Bump(es[1..], k))[1..] == Bump(es[1..], k);
    }
  }

  /** Bumping a present key keeps every key where it is; bumping a new key appends it. */
  lemma {:induction false} BumpShape<K>(es: Counts<K>, k: K)
    ensures k in Keys(es) ==> |Bump(es, k)| == |es| && Keys(Bump(es, k)) == Keys(es)
    ensures k !in Keys(es) ==> Bump(es, k) == es + [(k, 1)]
  {
    if es != [] {
      assert Keys(es) == [es[0].0] + Keys(es[1..]);
      if es[0].0 != k {
        BumpShape(es[1..], k);
        var t := Bump(es[1..], k);
        assert Keys([es[0]] + t) == [es[0].0] + Keys(t);
      } else {
        var t := [(k, es[0].1 + 1)] + es[1..];
        assert Keys(t) == [k] + Keys(es[1..]);
      }
    }
  }

  lemma {:induction false} FirstIndexSnoc<K>(xs: seq<K>, x: K, k: K)
    requires k in xs + [x]
    ensures k in xs ==> FirstIndex(xs + [x], k) == FirstIndex(xs, k)
    ensures k !in xs ==> FirstIndex(xs + [x], k) == |xs|
  {
    assert forall m :: 0 <= m < |xs| ==> (xs + [x])[m] == xs[m];
  }

  lemma CountAllSnoc<K>(p: seq<K>, x: K)
    ensures CountAll(p + [x]) == Bump(CountAll(p), x)
  {
    assert (p + [x])[..|p|] == p;
  }

  lemma {:induction false} CountAllGet<K>(xs: seq<K>)
    ensures forall k :: Get(CountAll(xs), k) == multiset(xs)[k]
  {
    if xs != [] {
      var p, x := xs[..|xs| - 1], xs[|xs| - 1];
      assert xs == p + [x];
      CountAllSnoc(p, x);
      CountAllGet(p);
      forall k ensures Get(CountAll(xs), k) == multiset(xs)[k] {
        BumpGet(CountAll(p), x, k);
      }
    }
  }

  lemma {:induction false} CountAllKeys<K>(xs: seq<K>)
    ensures forall k :: k in Keys(CountAll(xs)) <==> k in xs
  {
    if xs != [] {
      var p, x := xs[..|xs| - 1], xs[|xs| - 1];
      assert xs == p + [x];
      CountAllSnoc(p, x);
      CountAllKeys(p);
      var es := CountAll(p);
      BumpShape(es, x);
      if x !in Keys(es) {
        assert Keys(es + [(x, 1)]) == Keys(es) + [x];
      }
    }
  }

  lemma {:induction false} CountAllOrdered<K>(xs: seq<K>)
    ensures InFirstOccurrenceOrder(CountAll(xs), xs)
  {
    if xs != [] {
      var p, x := xs[..|xs| - 1], xs[|xs| - 1];
      assert xs == p + [x];
      CountAllSnoc(p, x);
      CountAllOrdered(p);
      CountAllKeys(p);
      BumpShape(CountAll(p), x);
      OrderedStep(p, x, CountAll(p), Bump(CountAll(p), x));
    }
  }

  /** The inductive step of `CountAllOrdered`, over an abstract counter and its bumped copy. */
  lemma OrderedStep<K>(p: seq<K>, x: K, es: Counts<K>, r: Counts<K>)
    requires InFirstOccurrenceOrder(es, p)
    requires forall k :: k in Keys(es) <==> k in p
    requires x in Keys(es) ==> |r| == |es| && Keys(r) == Keys(es)
    requires x !in Keys(es) ==> r == es + [(x, 1)]
    ensures InFirstOccurrenceOrder(r, p + [x])
  {
    var xs := p + [x];
    assert forall i :: 0 <= i < |es| ==> es[i].0 == Keys(es)[i];
    forall i | 0 <= i < |es| ensures FirstIndex(xs, es[i].0) == FirstIndex(p, es[i].0) {
      FirstIndexSnoc(p, x, es[i].0);
    }
    if x in Keys(es) {
      assert forall i :: 0 <= i < |r| ==> r[i].0 == Keys(r)[i];
    } else {
      FirstIndexSnoc(p, x, x);
    }
  }

  lemma OrderedDistinct<K>(es: Counts<K>, xs: seq<K>)
    requires InFirstOccurrenceOrder(es, xs)
    ensures DistinctKeys(es)
  {
  }

  lemma {:induction false} CountAllSum<K>(xs: seq<K>)
    ensures SumCounts(CountAll(xs)) == |xs|
  {
    if xs != [] {
      var p, x := xs[..|xs| - 1], xs[|xs| - 1];
      CountAllSnoc(p, x);
      assert xs == p + [x];
      CountAllSum(p);
      BumpSum(CountAll(p), x);
    }
  }

  /** What a counter built by `CountAll` holds: exact counts, distinct keys, first-occurrence order. */
  lemma CountAllSpec<K>(xs: seq<K>)
    ensures DistinctKeys(CountAll(xs))
    ensures forall k :: Get(CountAll(xs), k) == multiset(xs)[k]
    ensures forall k :: k in Keys(CountAll(xs)) <==> k in xs
    ensures forall i :: 0 <= i < |CountAll(xs)| ==> 0 < CountAll(xs)[i].1 == multiset(xs)[CountAll(xs)[i].0]
    ensures InFirstOccurrenceOrder(CountAll(xs), xs)
    ensures SumCounts(CountAll(xs)) == |xs|
  {
    var es := CountAll(xs);
    CountAllGet(xs);
    CountAllKeys(xs);
    CountAllOrdered(xs);
    OrderedDistinct(es, xs);
    CountAllSum(xs);
    forall i | 0 <= i < |es| ensures 0 < es[i].1 == multiset(xs)[es[i].0] {
      GetAt(es, i);
    }
  }

  /** `sort((a, b) => b[1] - a[1])` orders by this key. */
  function NegCount<K>(e: (K, nat)): int
  {
    -(e.1 as int)
  }

  /**
    `Object.entries(counts).sort((a, b) => b[1] - a[1])[0]`: the entry that a
    stable sort by descending count puts first, or none for an empty counter.
  */
  function Top<K>(es: Counts<K>): (r: Option<(K, nat)>)
    ensures r.None? <==> es == []
    ensures r.Some? ==> r.value in es
  {
    if es == [] then None
    else
      var s := SortBy(es, NegCount);
      assert s[0] in multiset(s);
      Some(s[0])
  }

  /** An element listed by a counter's keys has an entry. */
  lemma EntryOf<K>(xs: seq<K>, es: Counts<K>, y: K) returns (j: nat)
    requires forall k :: k in Keys(es) <==> k in xs
    requires y in xs
    ensures j < |es| && es[j].0 == y
  {
    assert y in Keys(es);
    j :| 0 <= j < |es| && Keys(es)[j] == y;
  }

  /** An entry of a counter after which no entry has a larger count, and before which all are smaller, names the first mode. */
  lemma FirstMaximalEntryIsFirstMode<K>(xs: seq<K>, es: Counts<K>, i: nat)
    requires i < |es|
    requires forall k :: k in Keys(es) <==> k in xs
    requires forall j :: 0 <= j < |es| ==> es[j].1 == multiset(xs)[es[j].0]
    requires InFirstOccurrenceOrder(es, xs)
    requires forall j :: 0 <= j < |es| ==> es[j].1 <= es[i].1
    requires forall j :: 0 <= j < i ==> es[j].1 < es[i].1
    ensures IsFirstMode(xs, es[i].0)
  {
    var k := es[i].0;
    assert k in xs;
    forall y | y in xs ensures multiset(xs)[y] <= multiset(xs)[k] {
      var j := EntryOf(xs, es, y);
      assert es[j].1 <= es[i].1;
    }
    forall y | y in xs && multiset(xs)[y] == multiset(xs)[k] ensures FirstIndex(xs, k) <= FirstIndex(xs, y) {
      var j := EntryOf(xs, es, y);
      assert es[j].1 == es[i].1;
      assert j >= i;
      if j > i {
        assert FirstIndex(xs, es[i].0) < FirstIndex(xs, es[j].0);
      }
    }
  }

  /** The top entry of a counter built from `xs` is the first-encountered mode of `xs`, with its count. */
  lemma TopIsFirstMode<K>(xs: seq<K>)
    requires xs != []
    ensures Top(CountAll(xs)).Some?
    ensures IsFirstMode(xs, Top(CountAll(xs)).value.0)
    ensures Top(CountAll(xs)).value.1 == multiset(xs)[Top(CountAll(xs)).value.0]
  {
    var es := CountAll(xs);
    CountAllSpec(xs);
    assert xs[0] in Keys(es);
    var i := HeadIsFirstMinimal(es, NegCount);
    assert Top(es) == Some(es[i]);
    assert forall j :: 0 <= j < |es| ==> NegCount(es[i]) <= NegCount(es[j]);
    FirstMaximalEntryIsFirstMode(xs, es, i);
  }

  /** There is only one first-encountered mode. */
  lemma FirstModeUnique<K>(xs: seq<K>, a: K, b: K)
    requires IsFirstMode(xs, a) && IsFirstMode(xs, b)
    ensures a == b
  {
    assert FirstIndex(xs, a) == FirstIndex(xs, b);
  }

  /**
    The top entry of the counter of `xs` is `k` with a count passing the test
    `a * count > b` exactly when `k` is the first-encountered mode and passes it.
  */
  lemma TopIff<K>(xs: seq<K>, k: K, a: int, b: int)
    requires xs != []
    ensures var top := Top(CountAll(xs));
      (top.Some? && top.value.0 == k && a * top.value.1 > b) <==> IsFirstMode(xs, k) && a * multiset(xs)[k] > b
  {
    TopIsFirstMode(xs);
    if IsFirstMode(xs, k) {
      FirstModeUnique(xs, k, Top(CountAll(xs)).value.0);
    }
  }
}
