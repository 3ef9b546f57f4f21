/**
  The activity-distribution pie (`src/components/dashboard/work-type-chart.tsx`):
  the entries are counted by work type, and one slice per work type of the
  table, in table order, is drawn for the types that occur.
*/
module WorkTypeChart {
  import opened Types
  import opened Constants
  import opened Counting
  import opened Seqs

  /** A slice: the type's translation key, its count, its emoji. */
  datatype Slice = Slice(name: string, value: nat, emoji: Glyph)

  /** `logs.reduce((acc, log) => { acc[log.workType] = (acc[log.workType] || 0) + 1 ... }, {})`. */
  function WorkTypeCounts(logs: seq<LogEntry>): Counts<WorkType>
  {
    CountAll(WorkTypesOf(logs))
  }

  /** Each work type is counted as often as entries of that type occur. */
  lemma WorkTypeCountsSpec(logs: seq<LogEntry>)
    ensures forall w :: Get(WorkTypeCounts(logs), w) == multiset(WorkTypesOf(logs))[w]
    ensures forall w :: w in Keys(WorkTypeCounts(logs)) <==> w in WorkTypesOf(logs)
  {
    CountAllSpec(WorkTypesOf(logs));
  }

  /** `{ name: type.label, value: workTypeCounts[type.value] || 0, emoji: type.emoji }`. */
  function SliceFor(option: WorkTypeOption, counts: Counts<WorkType>): Slice
  {
    Slice(option.labelKey, Get(counts, option.value), option.emoji)
  }

  /** `WORK_TYPES.map(...)`: one slice per table row, in table order. */
  function AllSlices(options: seq<WorkTypeOption>, counts: Counts<WorkType>): (r: seq<Slice>)
    ensures |r| == |options| && forall i :: 0 <= i < |options| ==> r[i] == SliceFor(options[i], counts)
  {
    if options == [] then [] else [SliceFor(options[0], counts)] + AllSlices(options[1..], counts)
  }

  /** `(item) => item.value > 0`. */
  function IsShown(s: Slice): bool
  {
    s.value > 0
  }

  /** `chartData`. */
  function ChartData(logs: seq<LogEntry>): seq<Slice>
  {
    Filter(AllSlices(WorkTypes, WorkTypeCounts(logs)), IsShown)
  }

  function SumValues(ss: seq<Slice>): nat
  {
    if ss == [] then 0 else ss[0].value + SumValues(ss[1..])
  }

  lemma {:induction false} FilterShownSum(ss: seq<Slice>)
    ensures SumValues(Filter(ss, IsShown)) == SumValues(ss)
  {
    if ss != [] {
      FilterShownSum(ss[1..]);
      var f := Filter(ss[1..], IsShown);
      if IsShown(ss[0]) {
        assert Filter(ss, IsShown) == [ss[0]] + f;
        assert ([ss[0]] + f)[1..] == f;
      } else {
        assert Filter(ss, IsShown) == f;
      }
    }
  }

  /** The six counts of a list of work types add up to its length. */
  lemma {:induction false} SixCounts(ws: seq<WorkType>)
    ensures var m := multiset(ws);
      m[Work] + m[Learning] + m[Personal] + m[Health] + m[Social] + m[Leisure] == |ws|
  {
    if ws != [] {
      SixCounts(ws[1..]);
      assert ws == [ws[0]] + ws[1..];
      var m, m' := multiset(ws), multiset(ws[1..]);
      assert m == multiset{ws[0]} + m';
      assert forall w :: m[w] == m'[w] + (if w == ws[0] then 1 else 0);
    }
  }

  lemma SixSlicesSum(counts: Counts<WorkType>)
    ensures SumValues(AllSlices(WorkTypes, counts))
      == Get(counts, Work) + Get(counts, Learning) + Get(counts, Personal)
       + Get(counts, Health) + Get(counts, Social) + Get(counts, Leisure)
  {
    var ss := AllSlices(WorkTypes, counts);
    assert ss[0].value == Get(counts, Work) && ss[1].value == Get(counts, Learning);
    assert ss[2].value == Get(counts, Personal) && ss[3].value == Get(counts, Health);
    assert ss[4].value == Get(counts, Social) && ss[5].value == Get(counts, Leisure);
    assert SumValues(ss[6..]) == 0;
    assert SumValues(ss[5..]) == ss[5].value + SumValues(ss[6..]);
    assert SumValues(ss[4..]) == ss[4].value + SumValues(ss[5..]);
    assert SumValues(ss[3..]) == ss[3].value + SumValues(ss[4..]);
    assert SumValues(ss[2..]) == ss[2].value + SumValues(ss[3..]);
    assert SumValues(ss[1..]) == ss[1].value + SumValues(ss[2..]);
  }

  /** The slice values add up to the number of entries, every entry having one of the six types. */
  lemma ChartDataSum(logs: seq<LogEntry>)
    ensures SumValues(ChartData(logs)) == |logs|
  {
    var counts := WorkTypeCounts(logs);
    FilterShownSum(AllSlices(WorkTypes, counts));
    SixSlicesSum(counts);
    CountAllSpec(WorkTypesOf(logs));
    SixCounts(WorkTypesOf(logs));
  }

  /** The chart has exactly the slices of the work types that occur, each with a positive count. */
  lemma ChartDataMembers(logs: seq<LogEntry>)
    ensures var r := ChartData(logs);
      && (forall i :: 0 <= i < |WorkTypes| ==>
            (SliceFor(WorkTypes[i], WorkTypeCounts(logs)) in r <==> multiset(WorkTypesOf(logs))[WorkTypes[i].value] > 0))
      && (forall k :: 0 <= k < |r| ==> r[k].value > 0)
  {
    var counts := WorkTypeCounts(logs);
    var all := AllSlices(WorkTypes, counts);
    var r := ChartData(logs);
    WorkTypeCountsSpec(logs);
    forall i | 0 <= i < |WorkTypes| ensures SliceFor(WorkTypes[i], counts) in r <==> multiset(WorkTypesOf(logs))[WorkTypes[i].value] > 0 {
      assert all[i] == SliceFor(WorkTypes[i], counts);
    }
    forall k | 0 <= k < |r| ensures r[k].value > 0 {
      assert r[k] in r;
    }
  }

  /** The slices appear in table order, so no work type gets two slices. */
  lemma ChartDataOrder(logs: seq<LogEntry>)
    ensures var r := ChartData(logs);
      && (exists idx :: IsIndexing(idx, AllSlices(WorkTypes, WorkTypeCounts(logs)), r))
      && (forall k, l :: 0 <= k < l < |r| ==> r[k].name != r[l].name)
  {
    var all := AllSlices(WorkTypes, WorkTypeCounts(logs));
    var r := ChartData(logs);
    var idx := FilterIndices(all, IsShown);
    LabelsDistinct();
    forall k, l | 0 <= k < l < |r| ensures r[k].name != r[l].name {
      assert r[k] == all[idx[k]] && r[l] == all[idx[l]];
    }
  }

  lemma LabelsDistinct()
    ensures forall i, j :: 0 <= i < j < |WorkTypes| ==> WorkTypes[i].labelKey != WorkTypes[j].labelKey
  {
    WorkTypesTable();
    forall i, j | 0 <= i < j < |WorkTypes| ensures WorkTypes[i].labelKey != WorkTypes[j].labelKey {
      var a, b := WorkTypes[i].value, WorkTypes[j].value;
      if WorkTypes[i].labelKey == WorkTypes[j].labelKey {
        var prefix := "workType.";
        assert (prefix + WorkTypeName(a))[|prefix|..] == WorkTypeName(a);
        assert (prefix + WorkTypeName(b))[|prefix|..] == WorkTypeName(b);
        NamesRoundTrip(Sad, a, En);
        NamesRoundTrip(Sad, b, En);
      }
    }
  }
}
