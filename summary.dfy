/**
  The weekly summary card (`src/components/dashboard/summary-stats.tsx`): the
  entries of the last seven days, the average energy and meaning, the most
  common mood and work type, the most meaningful entry and the
  recommendation.  `now` is the caller's clock reading in milliseconds.
*/
module Summary {
  import opened Wrappers
  import opened Types
  import opened Seqs
  import opened StableSort
  import opened Counting

  /** `7 * 24 * 60 * 60 * 1000`. */
  const WeekMs: int := 7 * 24 * 60 * 60 * 1000

  /** `new Date(log.date) >= sevenDaysAgo`. */
  function InWindow(now: Timestamp): LogEntry -> bool
  {
    (log: LogEntry) => log.date >= now - WeekMs
  }

  /** `logs.filter((log) => new Date(log.date) >= sevenDaysAgo)`. */
  function RecentLogs(logs: seq<LogEntry>, now: Timestamp): seq<LogEntry>
  {
    Filter(logs, InWindow(now))
  }

  /** The window keeps exactly the entries dated at most seven days before `now`, in order and as often as before. */
  lemma RecentLogsSpec(logs: seq<LogEntry>, now: Timestamp) returns (idx: seq<nat>)
    ensures IsIndexing(idx, logs, RecentLogs(logs, now))
    ensures |RecentLogs(logs, now)| <= |logs|
    ensures forall x :: x in RecentLogs(logs, now) <==> x in logs && x.date >= now - 604800000
    ensures forall x :: multiset(RecentLogs(logs, now))[x] == if x.date >= now - 604800000 then multiset(logs)[x] else 0
    ensures (forall i :: 0 <= i < |logs| ==> logs[i].date >= now - 604800000) ==> RecentLogs(logs, now) == logs
  {
    if forall i :: 0 <= i < |logs| ==> logs[i].date >= now - WeekMs {
      FilterAll(logs, InWindow(now));
    }
    idx := FilterIndices(logs, InWindow(now));
  }

  function EnergySum(logs: seq<LogEntry>): int
  {
    if logs == [] then 0 else EnergySum(logs[..|logs| - 1]) + logs[|logs| - 1].energyLevel
  }

  function MeaningSum(logs: seq<LogEntry>): int
  {
    if logs == [] then 0 else MeaningSum(logs[..|logs| - 1]) + logs[|logs| - 1].meaningLevel
  }

  /** Every level is between 1 and 5, so a sum of n levels is between n and 5n. */
  lemma {:induction false} SumBounds(logs: seq<LogEntry>)
    ensures |logs| <= EnergySum(logs) <= 5 * |logs|
    ensures |logs| <= MeaningSum(logs) <= 5 * |logs|
  {
    if logs != [] {
      SumBounds(logs[..|logs| - 1]);
    }
  }

  /** `count ? sum / count : 0`. */
  function Average(sum: int, count: nat): (r: real)
    ensures count == 0 ==> r == 0.0
    ensures count > 0 ==> r * (count as real) == sum as real
  {
    if count == 0 then 0.0 else (sum as real) / (count as real)
  }

  function AverageEnergy(recent: seq<LogEntry>): real
  {
    Average(EnergySum(recent), |recent|)
  }

  function AverageMeaning(recent: seq<LogEntry>): real
  {
    Average(MeaningSum(recent), |recent|)
  }

  lemma ScaleMono(u: real, v: real, k: real)
    requires k > 0.0
    ensures u <= v <==> u * k <= v * k
  {
    if u <= v {
      assert (v - u) * k >= 0.0;
    } else {
      assert (u - v) * k > 0.0;
    }
  }

  lemma RealBounded(a: real, n: real, s: real)
    requires n > 0.0 && a * n == s && n <= s <= 5.0 * n
    ensures 1.0 <= a <= 5.0
  {
    ScaleMono(1.0, a, n);
    ScaleMono(a, 5.0, n);
  }

  lemma RealAbove(a: real, n: real, s: real)
    requires n > 0.0 && a * n == s
    ensures a > 3.5 <==> 2.0 * s > 7.0 * n
  {
    ScaleMono(a, 3.5, n);
  }

  /** An average of n levels, n > 0, lies between 1 and 5. */
  lemma AverageInRange(sum: int, count: nat)
    requires count > 0 && count <= sum <= 5 * count
    ensures 1.0 <= Average(sum, count) <= 5.0
  {
    RealBounded(Average(sum, count), count as real, sum as real);
  }

  /** Both averages are 0 for an empty window and lie in [1, 5] otherwise. */
  lemma AveragesSpec(recent: seq<LogEntry>)
    ensures recent == [] ==> AverageEnergy(recent) == 0.0 && AverageMeaning(recent) == 0.0
    ensures recent != [] ==> 1.0 <= AverageEnergy(recent) <= 5.0 && 1.0 <= AverageMeaning(recent) <= 5.0
  {
    if recent != [] {
      SumBounds(recent);
      AverageInRange(EnergySum(recent), |recent|);
      AverageInRange(MeaningSum(recent), |recent|);
    }
  }

  /** `Object.entries(moodCounts).sort((a, b) => b[1] - a[1])[0]?.[0] || "neutral"`. */
  function MostCommonMood(recent: seq<LogEntry>): Mood
  {
    var top := Top(CountAll(MoodsOf(recent)));
    if top.Some? then top.value.0 else Neutral
  }

  /** The same for work types, with default "work". */
  function MostCommonWorkType(recent: seq<LogEntry>): WorkType
  {
    var top := Top(CountAll(WorkTypesOf(recent)));
    if top.Some? then top.value.0 else Work
  }

  /** The most common mood is neutral for an empty window and otherwise the first-encountered mode. */
  lemma MostCommonMoodSpec(recent: seq<LogEntry>)
    ensures recent == [] ==> MostCommonMood(recent) == Neutral
    ensures recent != [] ==> IsFirstMode(MoodsOf(recent), MostCommonMood(recent))
  {
    if recent != [] {
      TopIsFirstMode(MoodsOf(recent));
    }
  }

  /** The most common work type is work for an empty window and otherwise the first-encountered mode. */
  lemma MostCommonWorkTypeSpec(recent: seq<LogEntry>)
    ensures recent == [] ==> MostCommonWorkType(recent) == Work
    ensures recent != [] ==> IsFirstMode(WorkTypesOf(recent), MostCommonWorkType(recent))
  {
    if recent != [] {
      TopIsFirstMode(WorkTypesOf(recent));
    }
  }

  /** `(a, b) => b.meaningLevel - a.meaningLevel` orders by this key. */
  function NegMeaning(log: LogEntry): int
  {
    -(log.meaningLevel as int)
  }

  /** `[...recentLogs].sort((a, b) => b.meaningLevel - a.meaningLevel)[0]`. */
  function HighestMeaningLog(recent: seq<LogEntry>): Option<LogEntry>
  {
    if recent == [] then None else Some(SortBy(recent, NegMeaning)[0])
  }

  /**
    The most meaningful entry is absent exactly for an empty window; otherwise
    it is the first entry of the window whose meaning level no entry exceeds.
  */
  lemma HighestMeaningLogSpec(recent: seq<LogEntry>)
    ensures HighestMeaningLog(recent).None? <==> recent == []
    ensures HighestMeaningLog(recent).Some? ==>
      exists i :: 0 <= i < |recent| && recent[i] == HighestMeaningLog(recent).value
        && (forall j :: 0 <= j < |recent| ==> recent[j].meaningLevel <= recent[i].meaningLevel)
        && (forall j :: 0 <= j < i ==> recent[j].meaningLevel < recent[i].meaningLevel)
  {
    if recent != [] {
      var i := HeadIsFirstMinimal(recent, NegMeaning);
      assert forall j :: 0 <= j < |recent| ==> NegMeaning(recent[i]) <= NegMeaning(recent[j]);
      assert forall j :: 0 <= j < i ==> NegMeaning(recent[i]) < NegMeaning(recent[j]);
    }
  }

  datatype Recommendation = KeepItUp | FocusOnMeaning

  /** `avgMeaningLevel > 3.5 ? ... : ...`. */
  function RecommendationFor(avgMeaning: real): Recommendation
  {
    if avgMeaning > 3.5 then KeepItUp else FocusOnMeaning
  }

  /** The encouraging recommendation is shown exactly when 2 * (sum of meaning) > 7 * (number of entries). */
  lemma RecommendationIff(recent: seq<LogEntry>)
    ensures RecommendationFor(AverageMeaning(recent)) == KeepItUp <==> 2 * MeaningSum(recent) > 7 * |recent|
  {
    if recent != [] {
      RealAbove(AverageMeaning(recent), |recent| as real, MeaningSum(recent) as real);
    } else {
      SumBounds(recent);
    }
  }

  /** What the card shows. */
  datatype WeeklySummary = WeeklySummary(
    totalLogs: nat,
    avgEnergy: real,
    avgMeaning: real,
    commonMood: Mood,
    commonWorkType: WorkType,
    mostMeaningful: Option<LogEntry>,
    recommendation: Recommendation)

  /** Every statistic of the card, computed from the same seven-day window. */
  function Summarize(logs: seq<LogEntry>, now: Timestamp): WeeklySummary
  {
    var recent := RecentLogs(logs, now);
    var avgMeaning := AverageMeaning(recent);
    WeeklySummary(|recent|, AverageEnergy(recent), avgMeaning, MostCommonMood(recent),
                  MostCommonWorkType(recent), HighestMeaningLog(recent), RecommendationFor(avgMeaning))
  }

  /**
    With no entry in the window the card shows zero entries, zero averages,
    neutral and work, no most meaningful entry and the focus recommendation;
    otherwise the averages are in [1, 5] and a most meaningful entry from the
    window is shown.
  */
  lemma SummarizeSpec(logs: seq<LogEntry>, now: Timestamp)
    ensures var s := Summarize(logs, now);
      var recent := RecentLogs(logs, now);
      && s.totalLogs == |recent|
      && (recent == [] ==> s == WeeklySummary(0, 0.0, 0.0, Neutral, Work, None, FocusOnMeaning))
      && (recent != [] ==>
            1.0 <= s.avgEnergy <= 5.0 && 1.0 <= s.avgMeaning <= 5.0 && s.mostMeaningful.Some? && s.mostMeaningful.value in recent)
  {
    var recent := RecentLogs(logs, now);
    AveragesSpec(recent);
    MostCommonMoodSpec(recent);
    MostCommonWorkTypeSpec(recent);
    HighestMeaningLogSpec(recent);
  }
}
