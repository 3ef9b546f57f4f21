/**
  The mood-trend line chart (`src/components/dashboard/mood-chart.tsx`): the
  entries sorted by date, each mood drawn at a height from 0 (sad) to 5
  (excited), and the axis labels mapping a height back to its mood.
*/
module MoodChart {
  import opened Wrappers
  import opened Types
  import opened StableSort

  /** `new Date(log.date).getTime()`. */
  function DateKey(log: LogEntry): int
  {
    log.date
  }

  /** `[...logs].sort((a, b) => dateA - dateB)`: a stable sort of a copy, by date ascending. */
  function SortedLogs(logs: seq<LogEntry>): seq<LogEntry>
  {
    SortBy(logs, DateKey)
  }

  /** The sorted copy holds the same entries, by date ascending, entries of equal date in input order. */
  lemma SortedLogsSpec(logs: seq<LogEntry>)
    ensures multiset(SortedLogs(logs)) == multiset(logs)
    ensures forall i, j :: 0 <= i < j < |SortedLogs(logs)| ==> SortedLogs(logs)[i].date <= SortedLogs(logs)[j].date
    ensures IsStableSortOf(SortedLogs(logs), logs, DateKey)
  {
    SortByIsStableSort(logs, DateKey);
  }

  /** `moodToValue`. */
  function MoodToValue(m: Mood): nat
  {
    match m
    case Excited => 5
    case Happy => 4
    case Neutral => 3
    case Tired => 2
    case Frustrated => 1
    case Sad => 0
  }

  /** `moodLabels` of the axis tick and tooltip formatters. */
  const MoodLabels: seq<string> := ["sad", "frustrated", "tired", "neutral", "happy", "excited"]

  /**
    Every mood is drawn at a height in 0..5 and labelled back with its own
    literal; distinct moods get distinct heights, and every height labels a
    mood drawn there.
  */
  lemma MoodValueRoundTrip()
    ensures forall m :: MoodToValue(m) < |MoodLabels| && MoodLabels[MoodToValue(m)] == MoodName(m)
    ensures forall m1, m2 :: MoodToValue(m1) == MoodToValue(m2) ==> m1 == m2
    ensures forall v :: 0 <= v < |MoodLabels| ==>
      ParseMood(MoodLabels[v]).Some? && MoodToValue(ParseMood(MoodLabels[v]).value) == v
  {
    forall m ensures MoodToValue(m) < |MoodLabels| && MoodLabels[MoodToValue(m)] == MoodName(m) {
    }
    forall m1, m2 | MoodToValue(m1) == MoodToValue(m2) ensures m1 == m2 {
      NamesRoundTrip(m1, Work, En);
      NamesRoundTrip(m2, Work, En);
    }
  }

  /** A point of the line: date, height, mood and title. */
  datatype MoodPoint = MoodPoint(date: Timestamp, mood: nat, moodLabel: Mood, title: string)

  function PointOf(log: LogEntry): MoodPoint
  {
    MoodPoint(log.date, MoodToValue(log.mood), log.mood, log.title)
  }

  /** `sortedLogs.map(...)`. */
  function Points(logs: seq<LogEntry>): (r: seq<MoodPoint>)
    ensures |r| == |logs| && forall i :: 0 <= i < |logs| ==> r[i] == PointOf(logs[i])
  {
    if logs == [] then [] else [PointOf(logs[0])] + Points(logs[1..])
  }

  function ChartData(logs: seq<LogEntry>): seq<MoodPoint>
  {
    Points(SortedLogs(logs))
  }

  /** One point per entry, in date order, carrying the entry's title and the height of its mood. */
  lemma ChartDataSpec(logs: seq<LogEntry>)
    ensures |ChartData(logs)| == |logs|
    ensures forall i :: 0 <= i < |logs| ==>
      ChartData(logs)[i].title == SortedLogs(logs)[i].title && ChartData(logs)[i].moodLabel == SortedLogs(logs)[i].mood
      && ChartData(logs)[i].mood <= 5 && ChartData(logs)[i].mood == MoodToValue(SortedLogs(logs)[i].mood)
    ensures forall i, j :: 0 <= i < j < |logs| ==> ChartData(logs)[i].date <= ChartData(logs)[j].date
  {
    SortedLogsSpec(logs);
  }
}
