/**
  The insight generator (`src/components/dashboard/ai-insights.tsx`).  Insights
  are tags; the translated sentences they are rendered with are not modelled.
  `dayOfWeek` stands for `new Date(date).getDay()` in local time; a value
  outside 0..6 stands for the NaN of an unparseable date.
*/
module Insights {
  import opened Wrappers
  import opened Types
  import opened Counting

  datatype Insight =
    | NotEnoughData
    | DominantMood(mood: Mood)
    | DominantWorkType(workType: WorkType)
    | PositiveCorrelation
    | NegativeCorrelation
    | WeekendHappier
    | General

  /** `logs.reduce((sum, log) => sum + (energy - 3) * (meaning - 3), 0)`. */
  function CorrelationSum(logs: seq<LogEntry>): int
  {
    if logs == [] then 0
    else CorrelationSum(logs[..|logs| - 1]) + (logs[|logs| - 1].energyLevel - 3) * (logs[|logs| - 1].meaningLevel - 3)
  }

  /** The moods of the entries logged on day `d` of the week, in order. */
  function MoodsOnDay(logs: seq<LogEntry>, dayOfWeek: int -> int, d: int): seq<Mood>
  {
    if logs == [] then []
    else MoodsOnDay(logs[..|logs| - 1], dayOfWeek, d)
         + (if dayOfWeek(logs[|logs| - 1].date) == d then [logs[|logs| - 1].mood] else [])
  }

  /** `weekdayMoods[d] || []`. */
  function MoodsAt(byDay: map<int, seq<Mood>>, d: int): seq<Mood>
  {
    if d in byDay then byDay[d] else []
  }

  predicate IsPositive(m: Mood)
  {
    m == Excited || m == Happy
  }

  /** `moods.filter((mood) => mood === "excited" || mood === "happy").length`. */
  function PositiveCount(ms: seq<Mood>): (c: nat)
    ensures c <= |ms|
    ensures c == multiset(ms)[Excited] + multiset(ms)[Happy]
  {
    if ms == [] then 0
    else
      assert ms == [ms[0]] + ms[1..];
      (if IsPositive(ms[0]) then 1 else 0) + PositiveCount(ms[1..])
  }

  /** `length || 1`. */
  function AtLeastOne(n: nat): (r: nat)
    ensures r > 0 && (n > 0 ==> r == n)
  {
    if n == 0 then 1 else n
  }

  /** `positive / (length || 1)`. */
  function PositiveFraction(ms: seq<Mood>): real
  {
    (PositiveCount(ms) as real) / (AtLeastOne(|ms|) as real)
  }

  function WeekendMoods(logs: seq<LogEntry>, dayOfWeek: int -> int): seq<Mood>
  {
    MoodsOnDay(logs, dayOfWeek, 0) + MoodsOnDay(logs, dayOfWeek, 6)
  }

  function WeekdayMoods(logs: seq<LogEntry>, dayOfWeek: int -> int): seq<Mood>
  {
    MoodsOnDay(logs, dayOfWeek, 1) + MoodsOnDay(logs, dayOfWeek, 2) + MoodsOnDay(logs, dayOfWeek, 3)
    + MoodsOnDay(logs, dayOfWeek, 4) + MoodsOnDay(logs, dayOfWeek, 5)
  }

  // The four rules, each giving at most one insight.

  /** The dominant mood is reported when its count is more than half of `total`. */
  function MoodRule(moods: seq<Mood>, total: nat): (r: seq<Insight>)
    ensures |r| <= 1 && forall i :: 0 <= i < |r| ==> r[i].DominantMood?
  {
    var dominantMood := Top(CountAll(moods));
    if dominantMood.Some? && 2 * dominantMood.value.1 > total then [DominantMood(dominantMood.value.0)] else []
  }

  /** The dominant work type is reported when its count is more than two fifths of `total`. */
  function WorkTypeRule(workTypes: seq<WorkType>, total: nat): (r: seq<Insight>)
    ensures |r| <= 1 && forall i :: 0 <= i < |r| ==> r[i].DominantWorkType?
  {
    var dominantWorkType := Top(CountAll(workTypes));
    if dominantWorkType.Some? && 5 * dominantWorkType.value.1 > 2 * total then [DominantWorkType(dominantWorkType.value.0)] else []
  }

  /** The mean `sum / total` above 1 or below -1, multiplied out. */
  function CorrelationRule(sum: int, total: nat): (r: seq<Insight>)
    ensures |r| <= 1 && forall i :: 0 <= i < |r| ==> r[i] == PositiveCorrelation || r[i] == NegativeCorrelation
  {
    if sum > total then [PositiveCorrelation]
    else if sum < -(total as int) then [NegativeCorrelation]
    else []
  }

  /**
    The weekend condition in integers: at least two weekend entries, and
    p / A > q / D + 0.3 multiplied out, with p of A weekend moods and q of D
    weekday moods positive (A and D at least 1).
  */
  predicate WeekendIsHappier(weekend: seq<Mood>, weekday: seq<Mood>)
  {
    var a, d := AtLeastOne(|weekend|), AtLeastOne(|weekday|);
    10 * PositiveCount(weekend) * d > (10 * PositiveCount(weekday) + 3 * d) * a && |weekend| >= 2
  }

  function WeekendRule(weekend: seq<Mood>, weekday: seq<Mood>): (r: seq<Insight>)
    ensures |r| <= 1 && forall i :: 0 <= i < |r| ==> r[i] == WeekendHappier
  {
    if WeekendIsHappier(weekend, weekday) then [WeekendHappier] else []
  }

  function RuleInsights(logs: seq<LogEntry>, dayOfWeek: int -> int): seq<Insight>
  {
    MoodRule(MoodsOf(logs), |logs|) + WorkTypeRule(WorkTypesOf(logs), |logs|)
    + CorrelationRule(CorrelationSum(logs), |logs|) + WeekendRule(WeekendMoods(logs, dayOfWeek), WeekdayMoods(logs, dayOfWeek))
  }

  /** The general filler is appended when fewer than three rules fired. */
  function WithFiller(rules: seq<Insight>): seq<Insight>
  {
    rules + (if |rules| < 3 then [General] else [])
  }

  /** The insights the effect sets for `logs`. */
  function GetInsights(logs: seq<LogEntry>, dayOfWeek: int -> int): seq<Insight>
  {
    if |logs| < 3 then [NotEnoughData] else WithFiller(RuleInsights(logs, dayOfWeek))
  }

  lemma MoodsOfSnoc(logs: seq<LogEntry>, i: nat)
    requires i < |logs|
    ensures MoodsOf(logs[..i + 1]) == MoodsOf(logs[..i]) + [logs[i].mood]
    ensures WorkTypesOf(logs[..i + 1]) == WorkTypesOf(logs[..i]) + [logs[i].workType]
  {
    assert logs[..i + 1][..i] == logs[..i];
  }

  lemma MoodsOnDaySnoc(logs: seq<LogEntry>, dayOfWeek: int -> int, i: nat, d: int)
    requires i < |logs|
    ensures MoodsOnDay(logs[..i + 1], dayOfWeek, d)
      == MoodsOnDay(logs[..i], dayOfWeek, d) + (if dayOfWeek(logs[i].date) == d then [logs[i].mood] else [])
  {
    assert logs[..i + 1][..i] == logs[..i];
  }

  /** `logs.forEach((log) => { moodCounts[log.mood] = (moodCounts[log.mood] || 0) + 1 })`. */
  method CountMoods(logs: seq<LogEntry>) returns (moodCounts: Counts<Mood>)
    ensures moodCounts == CountAll(MoodsOf(logs))
  {
    moodCounts := [];
    var i := 0;
    while i < |logs|
      invariant 0 <= i <= |logs|
      invariant moodCounts == CountAll(MoodsOf(logs[..i]))
    {
      MoodsOfSnoc(logs, i);
      CountAllSnoc(MoodsOf(logs[..i]), logs[i].mood);
      moodCounts := Bump(moodCounts, logs[i].mood);
      i := i + 1;
    }
    assert logs[..i] == logs;
  }

  /** The same count of `work_type`. */
  method CountWorkTypes(logs: seq<LogEntry>) returns (workTypeCounts: Counts<WorkType>)
    ensures workTypeCounts == CountAll(WorkTypesOf(logs))
  {
    workTypeCounts := [];
    var i := 0;
    while i < |logs|
      invariant 0 <= i <= |logs|
      invariant workTypeCounts == CountAll(WorkTypesOf(logs[..i]))
    {
      MoodsOfSnoc(logs, i);
      CountAllSnoc(WorkTypesOf(logs[..i]), logs[i].workType);
      workTypeCounts := Bump(workTypeCounts, logs[i].workType);
      i := i + 1;
    }
    assert logs[..i] == logs;
  }

  /** The `weekdayMoods` loop: each entry's mood is pushed onto the list of its day of the week. */
  method GroupMoodsByDay(logs: seq<LogEntry>, dayOfWeek: int -> int) returns (weekdayMoods: map<int, seq<Mood>>)
    ensures forall d :: MoodsAt(weekdayMoods, d) == MoodsOnDay(logs, dayOfWeek, d)
  {
    weekdayMoods := map[];
    var i := 0;
    while i < |logs|
      invariant 0 <= i <= |logs|
      invariant forall d :: MoodsAt(weekdayMoods, d) == MoodsOnDay(logs[..i], dayOfWeek, d)
    {
      var day := dayOfWeek(logs[i].date);
      if day !in weekdayMoods {
        weekdayMoods := weekdayMoods[day := []];
      }
      weekdayMoods := weekdayMoods[day := weekdayMoods[day] + [logs[i].mood]];
      forall d ensures MoodsAt(weekdayMoods, d) == MoodsOnDay(logs[..i + 1], dayOfWeek, d) {
        MoodsOnDaySnoc(logs, dayOfWeek, i, d);
      }
      i := i + 1;
    }
    assert logs[..i] == logs;
  }

  lemma GroupsGiveWeekLists(byDay: map<int, seq<Mood>>, logs: seq<LogEntry>, dayOfWeek: int -> int)
    requires forall d :: MoodsAt(byDay, d) == MoodsOnDay(logs, dayOfWeek, d)
    ensures MoodsAt(byDay, 0) + MoodsAt(byDay, 6) == WeekendMoods(logs, dayOfWeek)
    ensures MoodsAt(byDay, 1) + MoodsAt(byDay, 2) + MoodsAt(byDay, 3) + MoodsAt(byDay, 4) + MoodsAt(byDay, 5)
      == WeekdayMoods(logs, dayOfWeek)
  {
  }

  lemma FinalStep(logs: seq<LogEntry>, dayOfWeek: int -> int)
    requires |logs| >= 3
    ensures GetInsights(logs, dayOfWeek) == WithFiller(RuleInsights(logs, dayOfWeek))
  {
  }

  /** The weekend rule gives its insight exactly when the comparison holds. */
  lemma WeekendRuleOf(weekend: seq<Mood>, weekday: seq<Mood>, happier: bool)
    requires happier == WeekendIsHappier(weekend, weekday)
    ensures WeekendRule(weekend, weekday) == if happier then [WeekendHappier] else []
  {
  }

  /**
    The time-pattern check: group the moods by day, collect the weekend
    (days 0 and 6) and weekday (days 1 to 5) lists, and compare them.
  */
  method CompareWeekendMoods(logs: seq<LogEntry>, dayOfWeek: int -> int) returns (happier: bool)
    ensures happier == WeekendIsHappier(WeekendMoods(logs, dayOfWeek), WeekdayMoods(logs, dayOfWeek))
  {
    var weekdayMoods := GroupMoodsByDay(logs, dayOfWeek);
    var weekendMoods := MoodsAt(weekdayMoods, 0) + MoodsAt(weekdayMoods, 6);
    var weekdayMoodsList := MoodsAt(weekdayMoods, 1) + MoodsAt(weekdayMoods, 2) + MoodsAt(weekdayMoods, 3)
                            + MoodsAt(weekdayMoods, 4) + MoodsAt(weekdayMoods, 5);
    GroupsGiveWeekLists(weekdayMoods, logs, dayOfWeek);
    var weekendPositive := PositiveFraction(weekendMoods);
    var weekdayPositive := PositiveFraction(weekdayMoodsList);
    WeekendComparison(weekendMoods, weekdayMoodsList);
    happier := weekendPositive > weekdayPositive + 0.3 && |weekendMoods| >= 2;
  }

  /** The mood-pattern check: the insight it pushes, if any. */
  method CheckMoodPattern(logs: seq<LogEntry>) returns (pushed: seq<Insight>)
    requires logs != []
    ensures pushed == MoodRule(MoodsOf(logs), |logs|)
  {
    var moodCounts := CountMoods(logs);
    var totalLogs := |logs|;
    var dominantMood := Top(moodCounts);
    pushed := [];
    if dominantMood.Some? {
      HalfThreshold(dominantMood.value.1, totalLogs);
      if (dominantMood.value.1 as real) / (totalLogs as real) > 0.5 {
        pushed := [DominantMood(dominantMood.value.0)];
      }
    }
  }

  /** The work-type-pattern check: the insight it pushes, if any. */
  method CheckWorkTypePattern(logs: seq<LogEntry>) returns (pushed: seq<Insight>)
    requires logs != []
    ensures pushed == WorkTypeRule(WorkTypesOf(logs), |logs|)
  {
    var workTypeCounts := CountWorkTypes(logs);
    var totalLogs := |logs|;
    var dominantWorkType := Top(workTypeCounts);
    pushed := [];
    if dominantWorkType.Some? {
      TwoFifthsThreshold(dominantWorkType.value.1, totalLogs);
      if (dominantWorkType.value.1 as real) / (totalLogs as real) > 0.4 {
        pushed := [DominantWorkType(dominantWorkType.value.0)];
      }
    }
  }

  /** The first three checks, pushed in order: mood, work type, correlation. */
  method CheckFirstPatterns(logs: seq<LogEntry>) returns (newInsights: seq<Insight>)
    requires logs != []
    ensures newInsights == MoodRule(MoodsOf(logs), |logs|) + WorkTypeRule(WorkTypesOf(logs), |logs|)
      + CorrelationRule(CorrelationSum(logs), |logs|)
  {
    newInsights := CheckMoodPattern(logs);
    var workTypeInsight := CheckWorkTypePattern(logs);
    newInsights := newInsights + workTypeInsight;

    var energyMeaningCorrelation := (CorrelationSum(logs) as real) / (|logs| as real);
    UnitThresholds(CorrelationSum(logs), |logs|);
    if energyMeaningCorrelation > 1.0 {
      newInsights := newInsights + [PositiveCorrelation];
    } else if energyMeaningCorrelation < -1.0 {
      newInsights := newInsights + [NegativeCorrelation];
    }
  }

  /** The time-pattern check: the insight it pushes, if any. */
  method CheckTimePattern(logs: seq<LogEntry>, dayOfWeek: int -> int) returns (pushed: seq<Insight>)
    ensures pushed == WeekendRule(WeekendMoods(logs, dayOfWeek), WeekdayMoods(logs, dayOfWeek))
  {
    var weekendHappier := CompareWeekendMoods(logs, dayOfWeek);
    pushed := [];
    if weekendHappier {
      pushed := [WeekendHappier];
    }
    WeekendRuleOf(WeekendMoods(logs, dayOfWeek), WeekdayMoods(logs, dayOfWeek), weekendHappier);
  }

  /** The effect: the rules are pushed in their fixed order, then the filler if fewer than three fired. */
  method ComputeInsights(logs: seq<LogEntry>, dayOfWeek: int -> int) returns (insights: seq<Insight>)
    ensures insights == GetInsights(logs, dayOfWeek)
  {
    if |logs| < 3 {
      return [NotEnoughData];
    }
    var newInsights := CheckFirstPatterns(logs);

    var weekendInsight := CheckTimePattern(logs, dayOfWeek);
    newInsights := newInsights + weekendInsight;
    FinalStep(logs, dayOfWeek);

    if |newInsights| < 3 {
      newInsights := newInsights + [General];
    }
    insights := newInsights;
  }

  // ------------------------------------------------------------ properties

  lemma MulMono(u: real, v: real, k: real)
    requires k > 0.0
    ensures u > v <==> u * k > v * k
  {
    if u > v {
      assert (u - v) * k > 0.0;
    } else {
      assert (v - u) * k >= 0.0;
    }
  }

  /** Dividing by a positive number and comparing is comparing with the scaled bound. */
  lemma DivCompare(c: real, n: real, t: real)
    requires n > 0.0
    ensures c / n > t <==> c > t * n
    ensures c / n < t <==> c < t * n
  {
    var q := c / n;
    assert q * n == c;
    MulMono(q, t, n);
    MulMono(t, q, n);
  }

  /** `c / n > 0.5` in exact arithmetic is `2c > n`. */
  lemma HalfThreshold(c: int, n: int)
    requires n > 0
    ensures (c as real) / (n as real) > 0.5 <==> 2 * c > n
  {
    DivCompare(c as real, n as real, 0.5);
  }

  /** `c / n > 0.4` in exact arithmetic is `5c > 2n`. */
  lemma TwoFifthsThreshold(c: int, n: int)
    requires n > 0
    ensures (c as real) / (n as real) > 0.4 <==> 5 * c > 2 * n
  {
    DivCompare(c as real, n as real, 0.4);
  }

  /** `S / n > 1` is `S > n` and `S / n < -1` is `S < -n`. */
  lemma UnitThresholds(c: int, n: int)
    requires n > 0
    ensures (c as real) / (n as real) > 1.0 <==> c > n
    ensures (c as real) / (n as real) < -1.0 <==> c < -n
  {
    DivCompare(c as real, n as real, 1.0);
    DivCompare(c as real, n as real, -1.0);
  }

  /** `p / a > q / d + 0.3` multiplied out. */
  lemma FractionComparison(p: nat, a: nat, q: nat, d: nat)
    requires a > 0 && d > 0
    ensures (p as real) / (a as real) > (q as real) / (d as real) + 0.3 <==> 10 * p * d > (10 * q + 3 * d) * a
  {
    var x := (p as real) / (a as real);
    var y := (q as real) / (d as real);
    assert x * (a as real) == p as real;
    assert y * (d as real) == q as real;
    var k := 10.0 * (a as real) * (d as real);
    MulMono(x, y + 0.3, k);
    assert x * k == 10.0 * (x * (a as real)) * (d as real);
    assert (y + 0.3) * k == 10.0 * (y * (d as real)) * (a as real) + 3.0 * (a as real) * (d as real);
    assert ((10 * p * d) as real) == 10.0 * (p as real) * (d as real);
    assert (((10 * q + 3 * d) * a) as real) == 10.0 * (q as real) * (a as real) + 3.0 * (a as real) * (d as real);
  }

  /** The source's comparison of positive shares is the integer weekend condition. */
  lemma WeekendComparison(weekend: seq<Mood>, weekday: seq<Mood>)
    ensures WeekendIsHappier(weekend, weekday)
      <==> PositiveFraction(weekend) > PositiveFraction(weekday) + 0.3 && |weekend| >= 2
  {
    var p, a, q, d := PositiveCount(weekend), AtLeastOne(|weekend|), PositiveCount(weekday), AtLeastOne(|weekday|);
    FractionComparison(p, a, q, d);
    assert PositiveFraction(weekend) == (p as real) / (a as real);
    assert PositiveFraction(weekday) == (q as real) / (d as real);
  }

  /** Where an insight can come from. */
  lemma InsightsMembers(logs: seq<LogEntry>, dayOfWeek: int -> int, x: Insight)
    requires |logs| >= 3
    ensures var rules := RuleInsights(logs, dayOfWeek);
      x in GetInsights(logs, dayOfWeek) <==> x in rules || (x == General && |rules| < 3)
    ensures x in RuleInsights(logs, dayOfWeek) <==>
      || x in MoodRule(MoodsOf(logs), |logs|)
      || x in WorkTypeRule(WorkTypesOf(logs), |logs|)
      || x in CorrelationRule(CorrelationSum(logs), |logs|)
      || x in WeekendRule(WeekendMoods(logs, dayOfWeek), WeekdayMoods(logs, dayOfWeek))
  {
  }

  /** The dominant-mood rule fires iff the first-encountered mode of the moods covers more than half of `total`. */
  lemma MoodRuleIff(moods: seq<Mood>, total: nat, m: Mood)
    requires moods != []
    ensures DominantMood(m) in MoodRule(moods, total) <==> IsFirstMode(moods, m) && 2 * multiset(moods)[m] > total
  {
    TopIff(moods, m, 2, total);
  }

  /** The dominant-work-type rule fires iff the first-encountered mode covers more than two fifths of `total`. */
  lemma WorkTypeRuleIff(workTypes: seq<WorkType>, total: nat, w: WorkType)
    requires workTypes != []
    ensures DominantWorkType(w) in WorkTypeRule(workTypes, total) <==> IsFirstMode(workTypes, w) && 5 * multiset(workTypes)[w] > 2 * total
  {
    TopIff(workTypes, w, 5, 2 * total);
  }

  /** With fewer than three entries the only insight is that there is not enough data. */
  lemma FewLogsInsight(logs: seq<LogEntry>, dayOfWeek: int -> int)
    requires |logs| < 3
    ensures GetInsights(logs, dayOfWeek) == [NotEnoughData]
  {
  }

  /** An insight of a rule that is not the filler is in the output exactly when that rule gave it. */
  lemma RuleMember(mr: seq<Insight>, wr: seq<Insight>, cr: seq<Insight>, we: seq<Insight>, x: Insight)
    requires x != General
    ensures x in WithFiller(mr + wr + cr + we) <==> x in mr || x in wr || x in cr || x in we
  {
  }

  lemma MoodFromPieces(moods: seq<Mood>, total: nat, m: Mood, wr: seq<Insight>, cr: seq<Insight>, we: seq<Insight>)
    requires moods != []
    requires DominantMood(m) !in wr && DominantMood(m) !in cr && DominantMood(m) !in we
    ensures DominantMood(m) in WithFiller(MoodRule(moods, total) + wr + cr + we)
      <==> IsFirstMode(moods, m) && 2 * multiset(moods)[m] > total
  {
    RuleMember(MoodRule(moods, total), wr, cr, we, DominantMood(m));
    MoodRuleIff(moods, total, m);
  }

  lemma WorkTypeFromPieces(workTypes: seq<WorkType>, total: nat, w: WorkType, mr: seq<Insight>, cr: seq<Insight>, we: seq<Insight>)
    requires workTypes != []
    requires DominantWorkType(w) !in mr && DominantWorkType(w) !in cr && DominantWorkType(w) !in we
    ensures DominantWorkType(w) in WithFiller(mr + WorkTypeRule(workTypes, total) + cr + we)
      <==> IsFirstMode(workTypes, w) && 5 * multiset(workTypes)[w] > 2 * total
  {
    RuleMember(mr, WorkTypeRule(workTypes, total), cr, we, DominantWorkType(w));
    WorkTypeRuleIff(workTypes, total, w);
  }

  /** The mood rule, stated on the whole output. */
  lemma DominantMoodIff(logs: seq<LogEntry>, dayOfWeek: int -> int, m: Mood)
    requires |logs| >= 3
    ensures DominantMood(m) in GetInsights(logs, dayOfWeek)
      <==> IsFirstMode(MoodsOf(logs), m) && 2 * multiset(MoodsOf(logs))[m] > |logs|
  {
    var wr := WorkTypeRule(WorkTypesOf(logs), |logs|);
    var cr := CorrelationRule(CorrelationSum(logs), |logs|);
    var we := WeekendRule(WeekendMoods(logs, dayOfWeek), WeekdayMoods(logs, dayOfWeek));
    assert DominantMood(m) !in wr && DominantMood(m) !in cr && DominantMood(m) !in we;
    MoodFromPieces(MoodsOf(logs), |logs|, m, wr, cr, we);
  }

  /** The work-type rule, stated on the whole output. */
  lemma DominantWorkTypeIff(logs: seq<LogEntry>, dayOfWeek: int -> int, w: WorkType)
    requires |logs| >= 3
    ensures DominantWorkType(w) in GetInsights(logs, dayOfWeek)
      <==> IsFirstMode(WorkTypesOf(logs), w) && 5 * multiset(WorkTypesOf(logs))[w] > 2 * |logs|
  {
    var mr := MoodRule(MoodsOf(logs), |logs|);
    var cr := CorrelationRule(CorrelationSum(logs), |logs|);
    var we := WeekendRule(WeekendMoods(logs, dayOfWeek), WeekdayMoods(logs, dayOfWeek));
    assert DominantWorkType(w) !in mr && DominantWorkType(w) !in cr && DominantWorkType(w) !in we;
    WorkTypeFromPieces(WorkTypesOf(logs), |logs|, w, mr, cr, we);
  }

  lemma CorrelationFromPieces(sum: int, total: nat, mr: seq<Insight>, wr: seq<Insight>, we: seq<Insight>)
    requires PositiveCorrelation !in mr && PositiveCorrelation !in wr && PositiveCorrelation !in we
    requires NegativeCorrelation !in mr && NegativeCorrelation !in wr && NegativeCorrelation !in we
    ensures var r := WithFiller(mr + wr + CorrelationRule(sum, total) + we);
      && (PositiveCorrelation in r <==> sum > total)
      && (NegativeCorrelation in r <==> sum < -(total as int))
  {
    RuleMember(mr, wr, CorrelationRule(sum, total), we, PositiveCorrelation);
    RuleMember(mr, wr, CorrelationRule(sum, total), we, NegativeCorrelation);
  }

  /**
    With S the sum of (energy - 3) * (meaning - 3): the positive-correlation
    insight appears iff S > n, the negative one iff S < -n, never both.
  */
  lemma CorrelationIff(logs: seq<LogEntry>, dayOfWeek: int -> int)
    requires |logs| >= 3
    ensures PositiveCorrelation in GetInsights(logs, dayOfWeek) <==> CorrelationSum(logs) > |logs|
    ensures NegativeCorrelation in GetInsights(logs, dayOfWeek) <==> CorrelationSum(logs) < -|logs|
    ensures !(PositiveCorrelation in GetInsights(logs, dayOfWeek) && NegativeCorrelation in GetInsights(logs, dayOfWeek))
  {
    var mr, wr := MoodRule(MoodsOf(logs), |logs|), WorkTypeRule(WorkTypesOf(logs), |logs|);
    var we := WeekendRule(WeekendMoods(logs, dayOfWeek), WeekdayMoods(logs, dayOfWeek));
    OtherRulesNoCorrelation(MoodsOf(logs), WorkTypesOf(logs), |logs|, WeekendMoods(logs, dayOfWeek), WeekdayMoods(logs, dayOfWeek));
    CorrelationFromPieces(CorrelationSum(logs), |logs|, mr, wr, we);
  }

  /** The mood, work-type and weekend rules never give a correlation insight. */
  lemma OtherRulesNoCorrelation(moods: seq<Mood>, workTypes: seq<WorkType>, total: nat, weekend: seq<Mood>, weekday: seq<Mood>)
    ensures var mr, wr, we := MoodRule(moods, total), WorkTypeRule(workTypes, total), WeekendRule(weekend, weekday);
      && PositiveCorrelation !in mr && PositiveCorrelation !in wr && PositiveCorrelation !in we
      && NegativeCorrelation !in mr && NegativeCorrelation !in wr && NegativeCorrelation !in we
  {
  }

  lemma WeekendFromPieces(weekend: seq<Mood>, weekday: seq<Mood>, mr: seq<Insight>, wr: seq<Insight>, cr: seq<Insight>)
    requires WeekendHappier !in mr && WeekendHappier !in wr && WeekendHappier !in cr
    ensures WeekendHappier in WithFiller(mr + wr + cr + WeekendRule(weekend, weekday))
      <==> |weekend| >= 2 && PositiveFraction(weekend) > PositiveFraction(weekday) + 0.3
  {
    RuleMember(mr, wr, cr, WeekendRule(weekend, weekday), WeekendHappier);
    WeekendComparison(weekend, weekday);
  }

  /**
    The weekend insight appears iff the share of positive moods over the
    weekend entries exceeds the weekday share by more than 0.3, in exact
    arithmetic, and there are at least two weekend entries.
  */
  lemma WeekendIff(logs: seq<LogEntry>, dayOfWeek: int -> int)
    requires |logs| >= 3
    ensures var we := WeekendMoods(logs, dayOfWeek);
      var wd := WeekdayMoods(logs, dayOfWeek);
      (WeekendHappier in GetInsights(logs, dayOfWeek)
       <==> |we| >= 2 && PositiveFraction(we) > PositiveFraction(wd) + 0.3)
  {
    var mr, wr := MoodRule(MoodsOf(logs), |logs|), WorkTypeRule(WorkTypesOf(logs), |logs|);
    var cr := CorrelationRule(CorrelationSum(logs), |logs|);
    assert WeekendHappier !in mr && WeekendHappier !in wr && WeekendHappier !in cr;
    WeekendFromPieces(WeekendMoods(logs, dayOfWeek), WeekdayMoods(logs, dayOfWeek), mr, wr, cr);
  }

  /** Position of an insight in the fixed order. */
  function Rank(x: Insight): nat
  {
    match x
    case NotEnoughData => 0
    case DominantMood(_) => 1
    case DominantWorkType(_) => 2
    case PositiveCorrelation => 3
    case NegativeCorrelation => 3
    case WeekendHappier => 4
    case General => 5
  }

  ghost predicate StrictlyRanked(s: seq<Insight>)
  {
    forall i, j :: 0 <= i < j < |s| ==> Rank(s[i]) < Rank(s[j])
  }

  lemma AppendRanked(a: seq<Insight>, b: seq<Insight>)
    requires StrictlyRanked(a) && StrictlyRanked(b)
    requires forall i, j :: 0 <= i < |a| && 0 <= j < |b| ==> Rank(a[i]) < Rank(b[j])
    ensures StrictlyRanked(a + b)
  {
    var c := a + b;
    forall i, j | 0 <= i < j < |c| ensures Rank(c[i]) < Rank(c[j]) {
      if j < |a| {
      } else if i >= |a| {
        assert c[i] == b[i - |a|] && c[j] == b[j - |a|];
      } else {
        assert c[i] == a[i] && c[j] == b[j - |a|];
      }
    }
  }

  /**
    From three entries on, there are one to four insights, each rule
    contributes at most one, in the order mood, work type, correlation,
    weekend, and the general filler comes last exactly when fewer than three
    rules fired.
  */
  lemma InsightsShape(logs: seq<LogEntry>, dayOfWeek: int -> int)
    requires |logs| >= 3
    ensures var r := GetInsights(logs, dayOfWeek);
      && 1 <= |r| <= 4
      && NotEnoughData !in r
      && StrictlyRanked(r)
      && (General in r ==> r[|r| - 1] == General && |r| <= 3)
      && (General !in r ==> |r| >= 3)
  {
    FillerShape(MoodRule(MoodsOf(logs), |logs|), WorkTypeRule(WorkTypesOf(logs), |logs|),
      CorrelationRule(CorrelationSum(logs), |logs|), WeekendRule(WeekendMoods(logs, dayOfWeek), WeekdayMoods(logs, dayOfWeek)));
  }

  /** The four rule outputs together: at most four insights, strictly ranked, none of them a filler. */
  lemma RulesShape(m: seq<Insight>, w: seq<Insight>, c: seq<Insight>, we: seq<Insight>)
    requires |m| <= 1 && forall i :: 0 <= i < |m| ==> m[i].DominantMood?
    requires |w| <= 1 && forall i :: 0 <= i < |w| ==> w[i].DominantWorkType?
    requires |c| <= 1 && forall i :: 0 <= i < |c| ==> c[i] == PositiveCorrelation || c[i] == NegativeCorrelation
    requires |we| <= 1 && forall i :: 0 <= i < |we| ==> we[i] == WeekendHappier
    ensures var rules := m + w + c + we;
      && |rules| <= 4
      && StrictlyRanked(rules)
      && forall i :: 0 <= i < |rules| ==> 1 <= Rank(rules[i]) <= 4
  {
    AppendRanked(m, w);
    AppendRanked(m + w, c);
    AppendRanked(m + w + c, we);
  }

  /** Appending the filler to strictly ranked rule insights. */
  lemma FillerOn(rules: seq<Insight>)
    requires |rules| <= 4 && StrictlyRanked(rules)
    requires forall i :: 0 <= i < |rules| ==> 1 <= Rank(rules[i]) <= 4
    ensures var r := WithFiller(rules);
      && 1 <= |r| <= 4
      && NotEnoughData !in r
      && StrictlyRanked(r)
      && (General in r ==> r[|r| - 1] == General && |r| <= 3)
      && (General !in r ==> |r| >= 3)
  {
    assert General !in rules && NotEnoughData !in rules;
    if |rules| < 3 {
      AppendRanked(rules, [General]);
      assert WithFiller(rules) == rules + [General];
    } else {
      assert WithFiller(rules) == rules;
    }
  }

  /** The shape argument, on the four rule outputs. */
  lemma FillerShape(m: seq<Insight>, w: seq<Insight>, c: seq<Insight>, we: seq<Insight>)
    requires |m| <= 1 && forall i :: 0 <= i < |m| ==> m[i].DominantMood?
    requires |w| <= 1 && forall i :: 0 <= i < |w| ==> w[i].DominantWorkType?
    requires |c| <= 1 && forall i :: 0 <= i < |c| ==> c[i] == PositiveCorrelation || c[i] == NegativeCorrelation
    requires |we| <= 1 && forall i :: 0 <= i < |we| ==> we[i] == WeekendHappier
    ensures var r := WithFiller(m + w + c + we);
      && 1 <= |r| <= 4
      && NotEnoughData !in r
      && StrictlyRanked(r)
      && (General in r ==> r[|r| - 1] == General && |r| <= 3)
      && (General !in r ==> |r| >= 3)
  {
    RulesShape(m, w, c, we);
    FillerOn(m + w + c + we);
  }

  lemma {:induction false} TwoCounts(s: seq<Mood>, a: Mood, b: Mood)
    requires a != b
    ensures multiset(s)[a] + multiset(s)[b] <= |s|
  {
    if s != [] {
      TwoCounts(s[1..], a, b);
      assert s == [s[0]] + s[1..];
    }
  }

  /** Five entries, four of them happy: the dominant-mood insight names happy. */
  lemma FourHappyOfFive(logs: seq<LogEntry>, dayOfWeek: int -> int)
    requires |logs| == 5 && multiset(MoodsOf(logs))[Happy] == 4
    ensures DominantMood(Happy) in GetInsights(logs, dayOfWeek)
  {
    var ms := MoodsOf(logs);
    TopIsFirstMode(ms);
    var t := Top(CountAll(ms)).value.0;
    assert Happy in ms;
    if t != Happy {
      TwoCounts(ms, t, Happy);
    }
    DominantMoodIff(logs, dayOfWeek, Happy);
  }

  lemma {:induction false} CorrelationOfFives(logs: seq<LogEntry>)
    requires forall i :: 0 <= i < |logs| ==> logs[i].energyLevel == 5 && logs[i].meaningLevel == 5
    ensures CorrelationSum(logs) == 4 * |logs|
  {
    if logs != [] {
      CorrelationOfFives(logs[..|logs| - 1]);
    }
  }

  /** Three or more entries all at energy 5 and meaning 5: the positive-correlation insight appears. */
  lemma AllFivesArePositive(logs: seq<LogEntry>, dayOfWeek: int -> int)
    requires |logs| >= 3
    requires forall i :: 0 <= i < |logs| ==> logs[i].energyLevel == 5 && logs[i].meaningLevel == 5
    ensures PositiveCorrelation in GetInsights(logs, dayOfWeek)
  {
    CorrelationOfFives(logs);
    CorrelationIff(logs, dayOfWeek);
  }
}
