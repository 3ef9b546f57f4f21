/**
  The search, filter and sort of the log list (`src/components/log/log-list.tsx`,
  and the same chain in `src/app/logs/page.tsx`).  The comparators
  `a - b` and `b - a` become ascending sort keys `k` and `-k` of one stable sort.
*/
module LogList {
  import opened Types
  import opened Text
  import opened Seqs
  import opened StableSort

  datatype MoodFilter = AllMoods | OnlyMood(mood: Mood)
  datatype TypeFilter = AllTypes | OnlyType(workType: WorkType)
  datatype SortField = ByDate | ByEnergy | ByMeaning
  /** `sortOrder`: anything but `"asc"` sorts descending. */
  datatype SortOrder = Asc | Desc

  datatype Query = Query(searchTerm: string, moodFilter: MoodFilter, typeFilter: TypeFilter, sortBy: SortField, sortOrder: SortOrder)

  /** Case-insensitive substring search on title or description. */
  predicate MatchesSearch(log: LogEntry, term: string)
  {
    Contains(Lower(log.title), Lower(term)) || Contains(Lower(log.description), Lower(term))
  }

  predicate MatchesMood(log: LogEntry, f: MoodFilter)
  {
    f.AllMoods? || log.mood == f.mood
  }

  predicate MatchesType(log: LogEntry, f: TypeFilter)
  {
    f.AllTypes? || log.workType == f.workType
  }

  /** The filter callback: search match, mood match and type match. */
  predicate Matches(log: LogEntry, q: Query)
  {
    MatchesSearch(log, q.searchTerm) && MatchesMood(log, q.moodFilter) && MatchesType(log, q.typeFilter)
  }

  /** The compared quantity: the date's timestamp, the energy level or the meaning level. */
  function FieldValue(log: LogEntry, field: SortField): int
  {
    match field
    case ByDate => log.date
    case ByEnergy => log.energyLevel
    case ByMeaning => log.meaningLevel
  }

  /** The ascending key equivalent to the comparator for `sortBy` and `sortOrder`. */
  function SortKey(log: LogEntry, field: SortField, order: SortOrder): int
  {
    if order == Asc then FieldValue(log, field) else -FieldValue(log, field)
  }

  // The filter callbacks as function values.
  function SearchPred(term: string): LogEntry -> bool { (log: LogEntry) => MatchesSearch(log, term) }
  function MoodIs(m: Mood): LogEntry -> bool { (log: LogEntry) => log.mood == m }
  function TypeIs(w: WorkType): LogEntry -> bool { (log: LogEntry) => log.workType == w }
  function SearchMoodPred(term: string, mf: MoodFilter): LogEntry -> bool
  {
    (log: LogEntry) => MatchesSearch(log, term) && MatchesMood(log, mf)
  }
  function QueryPred(q: Query): LogEntry -> bool { (log: LogEntry) => Matches(log, q) }

  /** The entries that pass the filter callback, in input order. */
  function Selected(logs: seq<LogEntry>, q: Query): seq<LogEntry>
  {
    Filter(logs, QueryPred(q))
  }

  /** `filteredLogs`: the entries that match `q`, stably sorted as `q` asks. */
  function FilteredLogs(logs: seq<LogEntry>, q: Query): seq<LogEntry>
  {
    SortBy(Selected(logs, q), (log: LogEntry) => SortKey(log, q.sortBy, q.sortOrder))
  }

  /** The empty search term matches every entry, because every string includes "". */
  lemma EmptySearchMatchesAll(log: LogEntry)
    ensures MatchesSearch(log, "")
  {
    assert Lower("") == "";
    ContainsEmpty(Lower(log.title));
  }

  /** An entry is listed iff it is in the input and matches, as often as it occurs there. */
  lemma FilteredLogsMembers(logs: seq<LogEntry>, q: Query)
    ensures var r := FilteredLogs(logs, q);
      && |r| <= |logs|
      && (forall x :: x in r <==> x in logs && Matches(x, q))
      && (forall x :: multiset(r)[x] == if Matches(x, q) then multiset(logs)[x] else 0)
  {
    var s := Selected(logs, q);
    var r := FilteredLogs(logs, q);
    assert multiset(r) == multiset(s);
    forall x ensures x in r <==> x in s {
      assert x in r <==> x in multiset(r);
      assert x in s <==> x in multiset(s);
    }
  }

  /** With an empty search term and both filters at "all", the list is a permutation of the input. */
  lemma NoFilterIsPermutation(logs: seq<LogEntry>, field: SortField, order: SortOrder)
    ensures var r := FilteredLogs(logs, Query("", AllMoods, AllTypes, field, order));
      |r| == |logs| && multiset(r) == multiset(logs)
  {
    var q := Query("", AllMoods, AllTypes, field, order);
    forall i | 0 <= i < |logs| ensures Matches(logs[i], q) {
      EmptySearchMatchesAll(logs[i]);
    }
    FilterAll(logs, QueryPred(q));
  }

  /** The search stage of the logs page, skipped for an empty term, keeps exactly the search matches. */
  lemma SearchStage(logs: seq<LogEntry>, term: string)
    ensures (if term != "" then Filter(logs, SearchPred(term)) else logs) == Filter(logs, SearchPred(term))
  {
    if term == "" {
      forall i | 0 <= i < |logs| ensures SearchPred(term)(logs[i]) {
        EmptySearchMatchesAll(logs[i]);
      }
      FilterAll(logs, SearchPred(term));
    }
  }

  /** The mood stage, skipped for "all", then keeps the search matches of that mood. */
  lemma MoodStage(logs: seq<LogEntry>, term: string, mf: MoodFilter)
    ensures var s := Filter(logs, SearchPred(term));
      (if mf != AllMoods then Filter(s, MoodIs(mf.mood)) else s) == Filter(logs, SearchMoodPred(term, mf))
  {
    var s := Filter(logs, SearchPred(term));
    var mm := (log: LogEntry) => MatchesMood(log, mf);
    FilterFilter(logs, SearchPred(term), mm, SearchMoodPred(term, mf));
    if mf != AllMoods {
      FilterSame(s, MoodIs(mf.mood), mm);
    } else {
      FilterAll(s, mm);
    }
  }

  /** The type stage, skipped for "all", then leaves exactly the entries the log list selects. */
  lemma TypeStage(logs: seq<LogEntry>, q: Query)
    ensures var s := Filter(logs, SearchMoodPred(q.searchTerm, q.moodFilter));
      (if q.typeFilter != AllTypes then Filter(s, TypeIs(q.typeFilter.workType)) else s) == Selected(logs, q)
  {
    var s := Filter(logs, SearchMoodPred(q.searchTerm, q.moodFilter));
    var mt := (log: LogEntry) => MatchesType(log, q.typeFilter);
    FilterFilter(logs, SearchMoodPred(q.searchTerm, q.moodFilter), mt, QueryPred(q));
    if q.typeFilter != AllTypes {
      FilterSame(s, TypeIs(q.typeFilter.workType), mt);
    } else {
      FilterAll(s, mt);
    }
  }

  /** The list is non-decreasing by the chosen field when ascending, non-increasing otherwise. */
  lemma FilteredLogsSorted(logs: seq<LogEntry>, q: Query)
    ensures var r := FilteredLogs(logs, q);
      forall i, j :: 0 <= i < j < |r| ==>
        if q.sortOrder == Asc then FieldValue(r[i], q.sortBy) <= FieldValue(r[j], q.sortBy)
        else FieldValue(r[i], q.sortBy) >= FieldValue(r[j], q.sortBy)
  {
    var key := (log: LogEntry) => SortKey(log, q.sortBy, q.sortOrder);
    SortBySorted(Selected(logs, q), key);
    var r := FilteredLogs(logs, q);
    forall i, j | 0 <= i < j < |r|
      ensures if q.sortOrder == Asc then FieldValue(r[i], q.sortBy) <= FieldValue(r[j], q.sortBy)
        else FieldValue(r[i], q.sortBy) >= FieldValue(r[j], q.sortBy)
    {
      assert key(r[i]) <= key(r[j]);
    }
  }

  /** The entries whose field equals `v`, in order. */
  function WithValue(s: seq<LogEntry>, field: SortField, v: int): seq<LogEntry>
  {
    KeyClass(s, (log: LogEntry) => FieldValue(log, field), v)
  }

  lemma {:induction false} KeyClassOfSortKey(s: seq<LogEntry>, field: SortField, order: SortOrder, v: int)
    ensures KeyClass(s, (log: LogEntry) => SortKey(log, field, order), if order == Asc then v else -v) == WithValue(s, field, v)
  {
    if s != [] {
      KeyClassOfSortKey(s[1..], field, order, v);
    }
  }

  /**
    The sort is stable in both directions: the entries that share a field
    value appear in the list in the order they had in the input.
  */
  lemma FilteredLogsStable(logs: seq<LogEntry>, q: Query, v: int)
    ensures WithValue(FilteredLogs(logs, q), q.sortBy, v) == WithValue(Selected(logs, q), q.sortBy, v)
  {
    var key := (log: LogEntry) => SortKey(log, q.sortBy, q.sortOrder);
    var k := if q.sortOrder == Asc then v else -v;
    SortByStable(Selected(logs, q), key, k);
    KeyClassOfSortKey(FilteredLogs(logs, q), q.sortBy, q.sortOrder, v);
    KeyClassOfSortKey(Selected(logs, q), q.sortBy, q.sortOrder, v);
  }

  /** Sorting by meaning in descending order puts an entry of meaning 5 before one of meaning 2. */
  lemma MeaningDescendingExample(a: LogEntry, b: LogEntry)
    requires a.energyLevel == 3 && a.meaningLevel == 5
    requires b.energyLevel == 1 && b.meaningLevel == 2
    ensures FilteredLogs([a, b], Query("", AllMoods, AllTypes, ByMeaning, Desc)) == [a, b]
  {
    var q := Query("", AllMoods, AllTypes, ByMeaning, Desc);
    EmptySearchMatchesAll(a);
    EmptySearchMatchesAll(b);
    assert Selected([a, b], q) == [a, b] by {
      FilterAll([a, b], QueryPred(q));
    }
    var key := (log: LogEntry) => SortKey(log, ByMeaning, Desc);
    assert SortBy([b], key) == [b];
    assert Insert(a, [b], key) == [a, b];
  }
}
