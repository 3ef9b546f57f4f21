/**
  The data model shared by every component: the closed mood and work-type
  enumerations, the 1-5 levels, a log entry, a matrix item, a word-cloud word
  and the interface language.  Timestamps are integers (milliseconds since the
  epoch); the ISO strings of the application stand for them.
*/
module Types {
  import opened Wrappers
  import opened Seqs

  datatype Mood = Excited | Happy | Neutral | Tired | Frustrated | Sad

  datatype WorkType = Work | Learning | Personal | Health | Social | Leisure

  datatype Language = En | Vi

  /** An energy or meaning rating: exactly the integers 1 to 5. */
  type Level = v: int | 1 <= v <= 5 witness 3

  /** Milliseconds since the epoch. */
  type Timestamp = int

  /** The string literal of a mood, as stored. */
  function MoodName(m: Mood): string
  {
    match m
    case Excited => "excited"
    case Happy => "happy"
    case Neutral => "neutral"
    case Tired => "tired"
    case Frustrated => "frustrated"
    case Sad => "sad"
  }

  /** Recognises a mood literal. */
  function ParseMood(s: string): (r: Option<Mood>)
    ensures r.Some? ==> MoodName(r.value) == s
    ensures r.None? ==> forall m :: MoodName(m) != s
  {
    if s == "excited" then Some(Excited)
    else if s == "happy" then Some(Happy)
    else if s == "neutral" then Some(Neutral)
    else if s == "tired" then Some(Tired)
    else if s == "frustrated" then Some(Frustrated)
    else if s == "sad" then Some(Sad)
    else None
  }

  function WorkTypeName(w: WorkType): string
  {
    match w
    case Work => "work"
    case Learning => "learning"
    case Personal => "personal"
    case Health => "health"
    case Social => "social"
    case Leisure => "leisure"
  }

  function ParseWorkType(s: string): (r: Option<WorkType>)
    ensures r.Some? ==> WorkTypeName(r.value) == s
    ensures r.None? ==> forall w :: WorkTypeName(w) != s
  {
    if s == "work" then Some(Work)
    else if s == "learning" then Some(Learning)
    else if s == "personal" then Some(Personal)
    else if s == "health" then Some(Health)
    else if s == "social" then Some(Social)
    else if s == "leisure" then Some(Leisure)
    else None
  }

  function LanguageName(l: Language): string
  {
    match l
    case En => "en"
    case Vi => "vi"
  }

  function ParseLanguage(s: string): (r: Option<Language>)
    ensures r.Some? ==> LanguageName(r.value) == s
    ensures r.None? ==> forall l :: LanguageName(l) != s
  {
    if s == "en" then Some(En) else if s == "vi" then Some(Vi) else None
  }

  /** The literal types are exactly their literals: parsing inverts naming. */
  lemma NamesRoundTrip(m: Mood, w: WorkType, l: Language)
    ensures ParseMood(MoodName(m)) == Some(m)
    ensures ParseWorkType(WorkTypeName(w)) == Some(w)
    ensures ParseLanguage(LanguageName(l)) == Some(l)
  {
  }

  /**
    A log entry.  Fields spelled `energy_level` in some components and
    `energyLevel` in others are one field here.
  */
  datatype LogEntry = LogEntry(
    id: string,
    title: string,
    description: string,
    mood: Mood,
    workType: WorkType,
    energyLevel: Level,
    meaningLevel: Level,
    date: Timestamp,
    createdAt: Timestamp,
    updatedAt: Timestamp,
    userId: string)

  /** A point of the energy/meaning matrix. */
  datatype MatrixItem = MatrixItem(x: int, y: int, id: string, title: string, mood: Mood, date: Timestamp)

  /** A word of the word cloud with its frequency. */
  datatype Word = Word(text: string, value: int)

  /** The moods of the entries, in order. */
  function MoodsOf(logs: seq<LogEntry>): (r: seq<Mood>)
    ensures |r| == |logs| && forall i :: 0 <= i < |logs| ==> r[i] == logs[i].mood
  {
    if logs == [] then [] else MoodsOf(logs[..|logs| - 1]) + [logs[|logs| - 1].mood]
  }

  /** The work types of the entries, in order. */
  function WorkTypesOf(logs: seq<LogEntry>): (r: seq<WorkType>)
    ensures |r| == |logs| && forall i :: 0 <= i < |logs| ==> r[i] == logs[i].workType
  {
    if logs == [] then [] else WorkTypesOf(logs[..|logs| - 1]) + [logs[|logs| - 1].workType]
  }

  /** `logs.find((log) => log.id === id)`: the first entry with that id. */
  function FindById(logs: seq<LogEntry>, id: string): (r: Option<LogEntry>)
    ensures r.None? <==> forall i :: 0 <= i < |logs| ==> logs[i].id != id
    ensures r.Some? ==> exists i :: 0 <= i < |logs| && logs[i] == r.value && r.value.id == id
                                    && forall j :: 0 <= j < i ==> logs[j].id != id
  {
    if logs == [] then None
    else if logs[0].id == id then Some(logs[0])
    else
      var r := FindById(logs[1..], id);
      assert forall i :: 1 <= i < |logs| ==> logs[i] == logs[1..][i - 1];
      r
  }

  /** `logs.filter((log) => log.id !== id)`: the entries with another id, in order. */
  function WithoutId(logs: seq<LogEntry>, id: string): seq<LogEntry>
  {
    Filter(logs, (log: LogEntry) => log.id != id)
  }

  /**
    Removing an id removes exactly the entries with that id, keeps every other
    entry as often as before, and leaves nothing to find under that id.
  */
  lemma WithoutIdSpec(logs: seq<LogEntry>, id: string)
    ensures forall x :: x in WithoutId(logs, id) <==> x in logs && x.id != id
    ensures forall x: LogEntry :: x.id != id ==> multiset(WithoutId(logs, id))[x] == multiset(logs)[x]
    ensures FindById(WithoutId(logs, id), id).None?
    ensures (forall i :: 0 <= i < |logs| ==> logs[i].id != id) ==> WithoutId(logs, id) == logs
  {
    var r := WithoutId(logs, id);
    assert forall i :: 0 <= i < |r| ==> r[i] in r;
    if forall i :: 0 <= i < |logs| ==> logs[i].id != id {
      FilterAll(logs, (log: LogEntry) => log.id != id);
    }
  }
}
