/**
  The dashboard's energy-versus-meaning scatter chart
  (`src/components/dashboard/energy-meaning-matrix.tsx`): one point per entry
  on axes whose domain is [0, 6].
*/
module EnergyMeaningMatrix {
  import opened Types
  import opened Constants
  import opened Utils

  /** A scatter point; `date` stands for its locale date string. */
  datatype ScatterPoint = ScatterPoint(x: int, y: int, z: int, title: string, mood: Mood, moodEmoji: Glyph, date: Timestamp)

  const AxisMin: int := 0
  const AxisMax: int := 6

  function PointOf(log: LogEntry): ScatterPoint
  {
    ScatterPoint(log.energyLevel, log.meaningLevel, 1, log.title, log.mood, MoodEmoji(MoodName(log.mood)), log.date)
  }

  /** `logs.map(...)`. */
  function ChartData(logs: seq<LogEntry>): (r: seq<ScatterPoint>)
    ensures |r| == |logs| && forall i :: 0 <= i < |logs| ==> r[i] == PointOf(logs[i])
  {
    if logs == [] then [] else [PointOf(logs[0])] + ChartData(logs[1..])
  }

  /**
    One point per entry, in order: energy across, meaning up, unit size, the
    entry's title and mood with that mood's emoji, and every point strictly
    inside both axis domains.
  */
  lemma ChartDataSpec(logs: seq<LogEntry>)
    ensures |ChartData(logs)| == |logs|
    ensures forall i :: 0 <= i < |logs| ==>
      var p := ChartData(logs)[i];
      && p.x == logs[i].energyLevel && p.y == logs[i].meaningLevel && p.z == 1
      && p.title == logs[i].title && p.mood == logs[i].mood && p.moodEmoji == MoodGlyph(logs[i].mood)
      && AxisMin < p.x < AxisMax && AxisMin < p.y < AxisMax
  {
    forall i | 0 <= i < |logs| ensures ChartData(logs)[i].moodEmoji == MoodGlyph(logs[i].mood) {
      MoodLookupsOfKnownValues(logs[i].mood);
    }
  }
}
