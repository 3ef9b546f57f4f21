/**
  The timeline view (`src/components/log/timeline-view.tsx`): the entries
  are grouped by calendar day and the days are listed newest first.  The ISO
  day string `new Date(date).toISOString().split("T")[0]` is the UTC day
  number of the timestamp; two timestamps give the same string exactly when
  they give the same day number, and later days give later strings.
*/
module Timeline {
  import opened Types
  import opened Seqs
  import opened StableSort

  const DayMs: int := 24 * 60 * 60 * 1000

  /** The UTC day of a timestamp (Dafny's division rounds down, as the calendar does). */
  function DayKey(date: Timestamp): int
  {
    date / DayMs
  }

  function OnDay(d: int): LogEntry -> bool
  {
    (log: LogEntry) => DayKey(log.date) == d
  }

  /** `groupedLogs[d]`: the entries of day `d`, pushed in input order. */
  function DayGroup(logs: seq<LogEntry>, d: int): seq<LogEntry>
  {
    if logs == [] then []
    else DayGroup(logs[..|logs| - 1], d) + (if DayKey(logs[|logs| - 1].date) == d then [logs[|logs| - 1]] else [])
  }

  /** A day's group is the filter of the entries by that day. */
  lemma {:induction false} DayGroupIsFilter(logs: seq<LogEntry>, d: int)
    ensures DayGroup(logs, d) == Filter(logs, OnDay(d))
  {
    if logs != [] {
      DayGroupIsFilter(logs[..|logs| - 1], d);
      FilterSnoc(logs, OnDay(d));
    }
  }

  /** `Object.keys(groupedLogs)`: the days in order of first appearance. */
  function DayKeys(logs: seq<LogEntry>): seq<int>
  {
    if logs == [] then []
    else
      var keys := DayKeys(logs[..|logs| - 1]);
      var d := DayKey(logs[|logs| - 1].date);
      if d in keys then keys else keys + [d]
  }

  /** The listed days are distinct and are exactly the days of the entries. */
  lemma {:induction false} DayKeysSpec(logs: seq<LogEntry>)
    ensures Distinct(DayKeys(logs))
    ensures forall d :: d in DayKeys(logs) <==> exists i :: 0 <= i < |logs| && DayKey(logs[i].date) == d
  {
    if logs != [] {
      var p := logs[..|logs| - 1];
      DayKeysSpec(p);
      forall d ensures d in DayKeys(logs) <==> exists i :: 0 <= i < |logs| && DayKey(logs[i].date) == d {
        if exists i :: 0 <= i < |p| && DayKey(p[i].date) == d {
          var i :| 0 <= i < |p| && DayKey(p[i].date) == d;
          assert logs[i] == p[i];
        }
        if exists i :: 0 <= i < |logs| && DayKey(logs[i].date) == d {
          var i :| 0 <= i < |logs| && DayKey(logs[i].date) == d;
          if i < |p| {
            assert p[i] == logs[i];
          }
        }
      }
    }
  }

  lemma DayGroupSnoc(logs: seq<LogEntry>, i: nat, d: int)
    requires i < |logs|
    ensures DayGroup(logs[..i + 1], d) == DayGroup(logs[..i], d) + (if DayKey(logs[i].date) == d then [logs[i]] else [])
  {
    assert logs[..i + 1][..i] == logs[..i];
  }

  lemma DayKeysSnoc(logs: seq<LogEntry>, i: nat)
    requires i < |logs|
    ensures var keys := DayKeys(logs[..i]); var d := DayKey(logs[i].date);
      DayKeys(logs[..i + 1]) == if d in keys then keys else keys + [d]
  {
    assert logs[..i + 1][..i] == logs[..i];
  }

  /** A day on which nothing was logged has an empty group. */
  lemma {:induction false} EmptyGroup(logs: seq<LogEntry>, d: int)
    requires d !in DayKeys(logs)
    ensures DayGroup(logs, d) == []
  {
    if logs != [] {
      var p := logs[..|logs| - 1];
      assert d !in DayKeys(p) && d != DayKey(logs[|logs| - 1].date);
      EmptyGroup(p, d);
    }
  }

  /**
    The `groupedLogs` loop: each entry is pushed onto the list of its day,
    a new list being started the first time a day is seen.
  */
  method GroupByDay(logs: seq<LogEntry>) returns (groupedLogs: map<int, seq<LogEntry>>, keys: seq<int>)
    ensures keys == DayKeys(logs)
    ensures forall d :: d in groupedLogs <==> d in keys
    ensures forall d :: d in groupedLogs ==> groupedLogs[d] == DayGroup(logs, d)
  {
    groupedLogs := map[];
    keys := [];
    var i := 0;
    while i < |logs|
      invariant 0 <= i <= |logs|
      invariant keys == DayKeys(logs[..i])
      invariant forall d :: d in groupedLogs <==> d in keys
      invariant forall d :: d in groupedLogs ==> groupedLogs[d] == DayGroup(logs[..i], d)
    {
      var date := DayKey(logs[i].date);
      DayKeysSnoc(logs, i);
      if date !in groupedLogs {
        EmptyGroup(logs[..i], date);
        groupedLogs := groupedLogs[date := []];
        keys := keys + [date];
      }
      groupedLogs := groupedLogs[date := groupedLogs[date] + [logs[i]]];
      forall d | d in groupedLogs ensures groupedLogs[d] == DayGroup(logs[..i + 1], d) {
        DayGroupSnoc(logs, i, d);
      }
      i := i + 1;
    }
    assert logs[..i] == logs;
  }

  /** Every entry is in the group of its own day and in no other, as often as it occurs. */
  lemma GroupMembership(logs: seq<LogEntry>, d: int)
    ensures forall x :: x in DayGroup(logs, d) <==> x in logs && DayKey(x.date) == d
    ensures forall x :: multiset(DayGroup(logs, d))[x] == if DayKey(x.date) == d then multiset(logs)[x] else 0
  {
    DayGroupIsFilter(logs, d);
  }

  /** Within a group the entries keep their input order. */
  lemma GroupOrder(logs: seq<LogEntry>, d: int)
    ensures exists idx :: IsIndexing(idx, logs, DayGroup(logs, d))
  {
    var idx := FilterIndices(logs, OnDay(d));
    DayGroupIsFilter(logs, d);
    assert IsIndexing(idx, logs, DayGroup(logs, d));
  }

  /** The total size of the groups of `keys`. */
  function GroupSizes(keys: seq<int>, logs: seq<LogEntry>): nat
  {
    if keys == [] then 0 else GroupSizes(keys[..|keys| - 1], logs) + |DayGroup(logs, keys[|keys| - 1])|
  }

  /** One more entry adds one to the total exactly when its day is among `keys`. */
  lemma {:induction false} GroupSizesSnoc(keys: seq<int>, logs: seq<LogEntry>, x: LogEntry)
    requires Distinct(keys)
    ensures GroupSizes(keys, logs + [x]) == GroupSizes(keys, logs) + (if DayKey(x.date) in keys then 1 else 0)
  {
    if keys != [] {
      var init := keys[..|keys| - 1];
      var k := keys[|keys| - 1];
      assert Distinct(init);
      GroupSizesSnoc(init, logs, x);
      assert (logs + [x])[..|logs|] == logs;
      assert DayKey(x.date) in keys <==> DayKey(x.date) in init || DayKey(x.date) == k;
      assert k !in init;
    }
  }

  /** The group sizes add up to the number of entries. */
  lemma {:induction false} GroupSizesSum(logs: seq<LogEntry>)
    ensures GroupSizes(DayKeys(logs), logs) == |logs|
  {
    if logs != [] {
      var p := logs[..|logs| - 1];
      var x := logs[|logs| - 1];
      var keys := DayKeys(p);
      var d := DayKey(x.date);
      GroupSizesSum(p);
      DayKeysSpec(p);
      assert logs == p + [x];
      GroupSizesSnoc(keys, p, x);
      if d !in keys {
        assert DayKeys(logs) == keys + [d];
        assert (keys + [d])[..|keys|] == keys;
        EmptyGroup(p, d);
        assert (p + [x])[..|p|] == p;
      }
    }
  }

  function NegDay(d: int): int
  {
    -d
  }

  /** `Object.keys(groupedLogs).sort((a, b) => dateB - dateA)`. */
  function SortedDates(keys: seq<int>): seq<int>
  {
    SortBy(keys, NegDay)
  }

  /** The days are listed once each, newest first. */
  lemma SortedDatesSpec(logs: seq<LogEntry>)
    ensures var r := SortedDates(DayKeys(logs));
      && multiset(r) == multiset(DayKeys(logs))
      && (forall d :: d in r <==> exists i :: 0 <= i < |logs| && DayKey(logs[i].date) == d)
      && (forall i, j :: 0 <= i < j < |r| ==> r[i] > r[j])
  {
    var keys := DayKeys(logs);
    var r := SortedDates(keys);
    DayKeysSpec(logs);
    SortBySorted(keys, NegDay);
    PermutationDistinct(keys, r);
    forall d ensures d in r <==> d in keys {
      assert d in r <==> d in multiset(r);
    }
    forall i, j | 0 <= i < j < |r| ensures r[i] > r[j] {
      assert NegDay(r[i]) <= NegDay(r[j]);
    }
  }
}
