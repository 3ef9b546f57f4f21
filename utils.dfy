/**
  The helpers of `src/lib/utils.ts`: table lookups with fallbacks, the
  relative-time buckets, keyword extraction, word frequencies and the top
  words.
*/
module Utils {
  import opened Wrappers
  import opened Types
  import opened Constants
  import opened Text
  import opened StableSort
  import opened Counting
  import opened Seqs

  // ---------------------------------------------------------------- lookups

  /** `MOODS.find((m) => m.value === mood)`. */
  function FindMoodOption(table: seq<MoodOption>, mood: string): (r: Option<MoodOption>)
    ensures r.Some? ==> r.value in table && MoodName(r.value.value) == mood
    ensures r.None? ==> forall o :: o in table ==> MoodName(o.value) != mood
  {
    if table == [] then None
    else if MoodName(table[0].value) == mood then Some(table[0])
    else FindMoodOption(table[1..], mood)
  }

  /** `WORK_TYPES.find((w) => w.value === workType)`. */
  function FindWorkTypeOption(table: seq<WorkTypeOption>, workType: string): (r: Option<WorkTypeOption>)
    ensures r.Some? ==> r.value in table && WorkTypeName(r.value.value) == workType
    ensures r.None? ==> forall o :: o in table ==> WorkTypeName(o.value) != workType
  {
    if table == [] then None
    else if WorkTypeName(table[0].value) == workType then Some(table[0])
    else FindWorkTypeOption(table[1..], workType)
  }

  /**
    The fallbacks of `getMoodEmoji` and `getWorkTypeEmoji` are written as
    literals, but they are the same characters as the neutral and the work
    emoji of the option tables.
  */
  const FallbackMoodGlyph := MoodGlyph(Neutral)
  const FallbackWorkTypeGlyph := WorkTypeGlyph(Work)

  /** `getMoodEmoji`: the table's emoji for a mood literal, the fallback glyph otherwise. */
  function MoodEmoji(mood: string): Glyph
  {
    match FindMoodOption(Moods, mood)
    case Some(o) => o.emoji
    case None => FallbackMoodGlyph
  }

  /** `getWorkTypeEmoji`. */
  function WorkTypeEmoji(workType: string): Glyph
  {
    match FindWorkTypeOption(WorkTypes, workType)
    case Some(o) => o.emoji
    case None => FallbackWorkTypeGlyph
  }

  const FallbackColor := "bg-gray-500 dark:bg-gray-600 text-white"

  /** The `moodColors` table. */
  function MoodColor(m: Mood): string
  {
    match m
    case Excited => "bg-accent text-accent-foreground"
    case Happy => "bg-secondary text-secondary-foreground"
    case Neutral => "bg-primary text-primary-foreground"
    case Tired => "bg-highlight text-highlight-foreground"
    case Frustrated => "bg-orange-500 dark:bg-orange-600 text-white"
    case Sad => "bg-red-500 dark:bg-red-600 text-white"
  }

  /** The `workTypeColors` table. */
  function WorkTypeColor(w: WorkType): string
  {
    match w
    case Work => "bg-primary text-primary-foreground"
    case Learning => "bg-secondary text-secondary-foreground"
    case Personal => "bg-accent text-accent-foreground"
    case Health => "bg-red-500 dark:bg-red-600 text-white"
    case Social => "bg-highlight text-highlight-foreground"
    case Leisure => "bg-pink-500 dark:bg-pink-600 text-white"
  }

  /** `getColorByMood`: `moodColors[mood] || fallback`. */
  function ColorByMood(mood: string): string
  {
    match ParseMood(mood)
    case Some(m) => MoodColor(m)
    case None => FallbackColor
  }

  /** `getColorByWorkType`. */
  function ColorByWorkType(workType: string): string
  {
    match ParseWorkType(workType)
    case Some(w) => WorkTypeColor(w)
    case None => FallbackColor
  }

  lemma MoodNameInjective(a: Mood, b: Mood)
    requires MoodName(a) == MoodName(b)
    ensures a == b
  {
    NamesRoundTrip(a, Work, En);
    NamesRoundTrip(b, Work, En);
  }

  lemma WorkTypeNameInjective(a: WorkType, b: WorkType)
    requires WorkTypeName(a) == WorkTypeName(b)
    ensures a == b
  {
    NamesRoundTrip(Neutral, a, En);
    NamesRoundTrip(Neutral, b, En);
  }

  /** The mood lookups give the table entry of a mood literal. */
  lemma MoodLookupsOfKnownValues(m: Mood)
    ensures MoodEmoji(MoodName(m)) == MoodGlyph(m)
    ensures ColorByMood(MoodName(m)) == MoodColor(m) != FallbackColor
  {
    MoodsTable();
    assert m in MoodValues();
    var i :| 0 <= i < |MoodValues()| && MoodValues()[i] == m;
    assert Moods[i] in Moods;
    var om := FindMoodOption(Moods, MoodName(m));
    assert om.Some?;
    MoodNameInjective(om.value.value, m);
    var k :| 0 <= k < |Moods| && Moods[k] == om.value;
    NamesRoundTrip(m, Work, En);
  }

  /** The work-type lookups give the table entry of a work-type literal. */
  lemma WorkTypeLookupsOfKnownValues(w: WorkType)
    ensures WorkTypeEmoji(WorkTypeName(w)) == WorkTypeGlyph(w)
    ensures ColorByWorkType(WorkTypeName(w)) == WorkTypeColor(w) != FallbackColor
  {
    WorkTypesTable();
    assert w in WorkTypeValues();
    var i :| 0 <= i < |WorkTypeValues()| && WorkTypeValues()[i] == w;
    assert WorkTypes[i] in WorkTypes;
    var ow := FindWorkTypeOption(WorkTypes, WorkTypeName(w));
    assert ow.Some?;
    WorkTypeNameInjective(ow.value.value, w);
    var k :| 0 <= k < |WorkTypes| && WorkTypes[k] == ow.value;
    NamesRoundTrip(Neutral, w, En);
  }

  /** Each lookup gives its fixed fallback for a string that is not a literal of its type. */
  lemma LookupsOfUnknownValues(s: string)
    ensures ParseMood(s).None? ==> MoodEmoji(s) == FallbackMoodGlyph && ColorByMood(s) == FallbackColor
    ensures ParseWorkType(s).None? ==> WorkTypeEmoji(s) == FallbackWorkTypeGlyph && ColorByWorkType(s) == FallbackColor
    ensures ParseMood(s).None? ==> MoodEmoji(s) == MoodEmoji("neutral")
    ensures ParseWorkType(s).None? ==> WorkTypeEmoji(s) == WorkTypeEmoji("work")
  {
    MoodLookupsOfKnownValues(Neutral);
    WorkTypeLookupsOfKnownValues(Work);
  }

  // ---------------------------------------------------------- relative time

  datatype TimeUnit = Minute | Hour | Day

  /** What `getRelativeTime` shows; `Absolute` is the `formatDate` fallback. */
  datatype RelativeTime = JustNow | Ago(count: nat, unit: TimeUnit) | Absolute(date: Timestamp)

  function UnitSeconds(u: TimeUnit): nat
  {
    match u
    case Minute => 60
    case Hour => 3600
    case Day => 86400
  }

  /**
    `getRelativeTime(date)` with the current instant `now` as a parameter.
    The elapsed whole seconds `d` are `floor((now - past) / 1000)`.
  */
  function GetRelativeTime(past: Timestamp, now: Timestamp): (r: RelativeTime)
    ensures var d := (now - past) / 1000;
      && (r == JustNow <==> d < 60)
      && (r.Ago? ==> r.count * UnitSeconds(r.unit) <= d < (r.count + 1) * UnitSeconds(r.unit) && r.count >= 1)
      && (r.Ago? && r.unit == Minute <==> 60 <= d < 3600)
      && (r.Ago? && r.unit == Hour <==> 3600 <= d < 86400)
      && (r.Ago? && r.unit == Day <==> 86400 <= d < 604800)
      && (r.Absolute? <==> 604800 <= d)
      && (r.Absolute? ==> r.date == past)
  {
    var d := (now - past) / 1000;
    if d < 60 then JustNow
    else if d < 3600 then Ago(d / 60, Minute)
    else if d < 86400 then Ago(d / 3600, Hour)
    else if d < 604800 then Ago(d / 86400, Day)
    else Absolute(past)
  }

  function UnitName(u: TimeUnit): string
  {
    match u
    case Minute => "minute"
    case Hour => "hour"
    case Day => "day"
  }

  /**
    The text shown for a relative time: `${n} minute${n > 1 ? "s" : ""} ago`
    and so on; none for the `formatDate` fallback, whose text is not modelled.
  */
  function Phrase(r: RelativeTime): (p: Option<string>)
    ensures r.Absolute? <==> p.None?
    ensures r.JustNow? ==> p == Some("just now")
    ensures r.Ago? ==> p == Some(NatToString(r.count) + " " + UnitName(r.unit) + (if r.count > 1 then "s" else "") + " ago")
  {
    match r
    case JustNow => Some("just now")
    case Ago(n, u) => Some(NatToString(n) + " " + UnitName(u) + (if n > 1 then "s" else "") + " ago")
    case Absolute(_) => None
  }

  /** The count shown is never 0 and stays below the next unit: 1-59 minutes, 1-23 hours, 1-6 days. */
  lemma RelativeTimeBounds(past: Timestamp, now: Timestamp)
    ensures var r := GetRelativeTime(past, now);
      r.Ago? ==> 1 <= r.count && (r.unit == Minute ==> r.count < 60) && (r.unit == Hour ==> r.count < 24) && (r.unit == Day ==> r.count < 7)
  {
    var r := GetRelativeTime(past, now);
    var d := (now - past) / 1000;
    if r.Ago? {
      if r.unit == Hour {
        assert r.count * 3600 <= d < 86400;
      } else if r.unit == Day {
        assert r.count * 86400 <= d < 604800;
      }
    }
  }

  // --------------------------------------------------------------- keywords

  // The `commonWords` list of `extractKeywords`, in its order, in six groups.
  const ArticlesAndPrepositions: seq<string> := ["a", "an", "the", "and", "or", "but", "in", "on", "at", "to", "for", "with", "about", "of", "by"]
  const FormsOfBe: seq<string> := ["is", "was", "were", "am", "are", "been", "being", "be"]
  const Pronouns: seq<string> := ["i", "you", "he", "she", "it", "we", "they", "my", "your", "his", "her", "its", "our", "their"]
  const Demonstratives: seq<string> := ["this", "that", "these", "those"]
  const Auxiliaries: seq<string> := ["do", "does", "did", "doing", "done", "have", "has", "had", "having", "can", "could", "will", "would", "shall", "should", "may", "might", "must"]
  const Adverbs: seq<string> := ["very", "too", "so", "quite", "rather"]

  const CommonWords: seq<string> := ArticlesAndPrepositions + FormsOfBe + Pronouns + Demonstratives + Auxiliaries + Adverbs

  /** The filter of `extractKeywords`: longer than two characters and not a common word. */
  predicate IsKeyword(w: string)
  {
    |w| > 2 && w !in CommonWords
  }

  /** `.filter(...)` of `extractKeywords`: the keyword tokens, in token order. */
  function KeepKeywords(tokens: seq<string>): (r: seq<string>)
    ensures r == Filter(tokens, IsKeyword)
    ensures |r| <= |tokens|
  {
    if tokens == [] then []
    else (if IsKeyword(tokens[0]) then [tokens[0]] else []) + KeepKeywords(tokens[1..])
  }

  /** The whitespace-separated tokens of the lower-cased text without punctuation. */
  function Tokens(text: string): seq<string>
  {
    SplitWs(KeepWordAndSpace(Lower(text)))
  }

  /** `extractKeywords(text)`. */
  function ExtractKeywords(text: string): seq<string>
  {
    if text == "" then [] else KeepKeywords(Tokens(text))
  }

  lemma KeepKeywordsCounts(tokens: seq<string>, w: string)
    ensures multiset(KeepKeywords(tokens))[w] == if IsKeyword(w) then multiset(tokens)[w] else 0
  {
  }

  /**
    Keywords are the surviving tokens in token order, with their
    multiplicity: each keyword occurs as often as the token, and they sit at
    increasing positions of the token list.
  */
  lemma KeywordsAreSurvivingTokens(text: string, w: string) returns (idx: seq<nat>)
    ensures text != "" ==> ExtractKeywords(text) == Filter(Tokens(text), IsKeyword)
    ensures multiset(ExtractKeywords(text))[w] == if IsKeyword(w) then multiset(Tokens(text))[w] else 0
    ensures IsIndexing(idx, Tokens(text), ExtractKeywords(text))
  {
    idx := [];
    if text != "" {
      idx := FilterIndices(Tokens(text), IsKeyword);
    }
    if text == "" {
      assert Lower(text) == "";
      assert KeepWordAndSpace("") == "";
      assert Tokens(text) == [""];
    } else {
      KeepKeywordsCounts(Tokens(text), w);
    }
  }

  lemma {:induction false} KeepWordAndSpaceSub(s: string, c: char)
    requires c in KeepWordAndSpace(s)
    ensures c in s
  {
    if s != [] {
      if c != s[0] {
        KeepWordAndSpaceSub(s[1..], c);
      }
    }
  }

  lemma {:induction false} NonSpaceSub(s: string, c: char)
    requires c in NonSpace(s)
    ensures c in s
  {
    if s != [] {
      if c != s[0] {
        NonSpaceSub(s[1..], c);
      }
    }
  }

  lemma {:induction false} ConcatMember(ss: seq<string>, k: nat, c: char)
    requires k < |ss| && c in ss[k]
    ensures c in Concat(ss)
  {
    if k > 0 {
      ConcatMember(ss[1..], k - 1, c);
    }
  }

  lemma {:induction false} KeepKeywordsMember(tokens: seq<string>, w: string)
    requires w in KeepKeywords(tokens)
    ensures w in tokens && IsKeyword(w)
  {
    if tokens != [] && (w != tokens[0] || !IsKeyword(w)) {
      KeepKeywordsMember(tokens[1..], w);
    }
  }

  /** A token of the cleaned text consists of `\w` characters and no upper-case letter. */
  lemma TokenChars(text: string, k: nat, c: char)
    requires k < |Tokens(text)| && c in Tokens(text)[k]
    ensures 'a' <= c <= 'z' || '0' <= c <= '9' || c == '_'
  {
    var cleaned := KeepWordAndSpace(Lower(text));
    SplitWsFields(cleaned);
    ConcatMember(Tokens(text), k, c);
    NonSpaceSub(cleaned, c);
    KeepWordAndSpaceSub(Lower(text), c);
  }

  /** Every keyword is longer than two characters, drawn from [a-z0-9_], and not a common word. */
  lemma KeywordsWellFormed(text: string, w: string)
    requires w in ExtractKeywords(text)
    ensures |w| > 2 && w !in CommonWords
    ensures forall c :: c in w ==> 'a' <= c <= 'z' || '0' <= c <= '9' || c == '_'
  {
    KeepKeywordsMember(Tokens(text), w);
    var k :| 0 <= k < |Tokens(text)| && Tokens(text)[k] == w;
    forall c | c in w ensures 'a' <= c <= 'z' || '0' <= c <= '9' || c == '_' {
      TokenChars(text, k, c);
    }
  }

  /** A word of lower-case letters holds no white space. */
  lemma LettersAreNotSpace(w: string)
    requires forall c :: c in w ==> 'a' <= c <= 'z'
    ensures forall c :: c in w ==> !IsSpace(c) && !IsUpper(c) && IsWordChar(c)
  {
  }

  lemma CleanExample()
    ensures KeepWordAndSpace(Lower("the a an")) == "the a an"
  {
    var t := "the a an";
    assert IsSpace(' ');
    assert forall c :: c in t ==> 'a' <= c <= 'z' || c == ' ';
    LowerOfLowerCase(t);
    KeepWordAndSpaceOfClean(t);
  }

  lemma SplitExample()
    ensures SplitWs("the a an") == ["the", "a", "an"]
  {
    var fields, seps := ["the", "a", "an"], [" ", " "];
    LettersAreNotSpace("the");
    LettersAreNotSpace("a");
    LettersAreNotSpace("an");
    assert IsSpace(' ');
    assert JoinRest(["an"], [" "]) == " an" by {
      assert ["an"][1..] == [] && [" "][1..] == [];
    }
    assert JoinRest(fields[1..], seps) == " a an" by {
      assert fields[1..] == ["a", "an"] && fields[1..][1..] == ["an"] && seps[1..] == [" "];
    }
    SplitWsUnique("the a an", fields, seps);
  }

  lemma TokensExample()
    ensures Tokens("the a an") == ["the", "a", "an"]
  {
    CleanExample();
    SplitExample();
  }

  lemma StopWordsExample()
    ensures !IsKeyword("the") && !IsKeyword("a") && !IsKeyword("an")
  {
    assert CommonWords[2] == "the" && CommonWords[0] == "a" && CommonWords[1] == "an";
  }

  /** `extractKeywords("")` is empty, and so is the result for a text of stop words and short tokens. */
  lemma KeywordsExamples()
    ensures ExtractKeywords("") == []
    ensures ExtractKeywords("the a an") == []
  {
    TokensExample();
    StopWordsExample();
    assert KeepKeywords(["the", "a", "an"]) == [];
  }

  // -------------------------------------------------------- word frequency

  /** The keywords of all texts, text after text. */
  function AllKeywords(texts: seq<string>): seq<string>
  {
    if texts == [] then [] else AllKeywords(texts[..|texts| - 1]) + ExtractKeywords(texts[|texts| - 1])
  }

  lemma AllKeywordsOneMore(texts: seq<string>, i: nat)
    requires i < |texts|
    ensures AllKeywords(texts[..i + 1]) == AllKeywords(texts[..i]) + ExtractKeywords(texts[i])
  {
    assert texts[..i + 1][..i] == texts[..i];
  }

  lemma CountOneMore(before: seq<string>, ws: seq<string>, j: nat)
    requires j < |ws|
    ensures CountAll(before + ws[..j + 1]) == Bump(CountAll(before + ws[..j]), ws[j])
  {
    CountAllSnoc(before + ws[..j], ws[j]);
    assert before + ws[..j + 1] == (before + ws[..j]) + [ws[j]];
  }

  /** The inner `keywords.forEach`: bumps the counter once per word, in order. */
  method CountWords(counts: Counts<string>, ghost before: seq<string>, words: seq<string>) returns (wordFreq: Counts<string>)
    requires counts == CountAll(before)
    ensures wordFreq == CountAll(before + words)
  {
    wordFreq := counts;
    var j := 0;
    assert before + words[..j] == before;
    while j < |words|
      invariant 0 <= j <= |words|
      invariant wordFreq == CountAll(before + words[..j])
    {
      CountOneMore(before, words, j);
      wordFreq := Bump(wordFreq, words[j]);
      j := j + 1;
    }
    assert words[..j] == words;
  }

  /** `getWordFrequency(texts)`: counts every keyword of every text in one counter. */
  method GetWordFrequency(texts: seq<string>) returns (wordFreq: Counts<string>)
    ensures wordFreq == CountAll(AllKeywords(texts))
  {
    wordFreq := [];
    var i := 0;
    while i < |texts|
      invariant 0 <= i <= |texts|
      invariant wordFreq == CountAll(AllKeywords(texts[..i]))
    {
      var keywords := ExtractKeywords(texts[i]);
      wordFreq := CountWords(wordFreq, AllKeywords(texts[..i]), keywords);
      AllKeywordsOneMore(texts, i);
      i := i + 1;
    }
    assert texts[..i] == texts;
  }

  /**
    Each word's count is its number of occurrences among all keywords; the
    counts add up to the number of keywords; no texts give no words.
  */
  lemma WordFrequencySpec(texts: seq<string>)
    ensures var f := CountAll(AllKeywords(texts));
      && (forall w :: Get(f, w) == multiset(AllKeywords(texts))[w])
      && SumCounts(f) == |AllKeywords(texts)|
      && DistinctKeys(f)
      && (texts == [] ==> f == [])
  {
    CountAllSpec(AllKeywords(texts));
  }

  // -------------------------------------------------------------- top words

  function Min(a: int, b: int): int
  {
    if a <= b then a else b
  }

  function ToWords(es: Counts<string>): (r: seq<Word>)
    ensures |r| == |es|
    ensures forall i :: 0 <= i < |es| ==> r[i] == Word(es[i].0, es[i].1)
  {
    if es == [] then [] else [Word(es[0].0, es[0].1)] + ToWords(es[1..])
  }

  /**
    `getTopWords(wordFreq, limit)`: the entries sorted by descending count
    (stably, so ties keep counter order), cut to `limit`.
  */
  function GetTopWords(wordFreq: Counts<string>, limit: nat := 50): seq<Word>
  {
    var sorted := SortBy(wordFreq, NegCount);
    ToWords(sorted[..Min(limit, |sorted|)])
  }

  /** The top words are `min(limit, #entries)` entries of the counter, by non-increasing value. */
  lemma TopWordsRanked(wordFreq: Counts<string>, limit: nat)
    ensures var r := GetTopWords(wordFreq, limit);
      && |r| == Min(limit, |wordFreq|)
      && (forall i, j :: 0 <= i < j < |r| ==> r[i].value >= r[j].value)
      && (forall i :: 0 <= i < |r| ==> (r[i].text, r[i].value as nat) in wordFreq)
  {
    var sorted := SortBy(wordFreq, NegCount);
    var r := GetTopWords(wordFreq, limit);
    SortBySorted(wordFreq, NegCount);
    forall i | 0 <= i < |r| ensures (r[i].text, r[i].value as nat) in wordFreq {
      assert r[i] == Word(sorted[i].0, sorted[i].1);
      assert sorted[i] in multiset(sorted);
    }
    forall i, j | 0 <= i < j < |r| ensures r[i].value >= r[j].value {
      assert NegCount(sorted[i]) <= NegCount(sorted[j]);
    }
  }

  /** With distinct counter keys, the top words have distinct texts. */
  lemma TopWordsDistinct(wordFreq: Counts<string>, limit: nat)
    requires DistinctKeys(wordFreq)
    ensures var r := GetTopWords(wordFreq, limit);
      forall i, j :: 0 <= i < j < |r| ==> r[i].text != r[j].text
  {
    var sorted := SortBy(wordFreq, NegCount);
    var r := GetTopWords(wordFreq, limit);
    forall i, j | 0 <= i < j < |r| ensures r[i].text != r[j].text {
      SortedDistinct(wordFreq, sorted, i, j);
    }
  }

  /** No entry left out of the top words counts more than one that was taken. */
  lemma TopWordsComplete(wordFreq: Counts<string>, limit: nat)
    ensures var r := GetTopWords(wordFreq, limit);
      forall i, e :: 0 <= i < |r| && e in wordFreq && e.1 > r[i].value ==>
        exists j :: 0 <= j < |r| && r[j].text == e.0 && r[j].value == e.1
  {
    var sorted := SortBy(wordFreq, NegCount);
    var r := GetTopWords(wordFreq, limit);
    SortBySorted(wordFreq, NegCount);
    forall i, e | 0 <= i < |r| && e in wordFreq && e.1 > r[i].value
      ensures exists j :: 0 <= j < |r| && r[j].text == e.0 && r[j].value == e.1
    {
      assert e in multiset(sorted);
      var k :| 0 <= k < |sorted| && sorted[k] == e;
      assert r[i] == Word(sorted[i].0, sorted[i].1);
      assert k < |r|;
      assert r[k] == Word(sorted[k].0, sorted[k].1);
    }
  }

  /**
    Equally frequent words keep the order in which they were first seen: the
    counter lists its keys in first-occurrence order and the sort is stable.
  */
  lemma TopWordsTieOrder(ks: seq<string>, limit: nat)
    ensures var r := GetTopWords(CountAll(ks), limit);
      forall i, j :: 0 <= i < j < |r| && r[i].value == r[j].value ==>
        r[i].text in ks && r[j].text in ks && FirstIndex(ks, r[i].text) < FirstIndex(ks, r[j].text)
  {
    var es := CountAll(ks);
    var sorted := SortBy(es, NegCount);
    var r := GetTopWords(es, limit);
    CountAllSpec(ks);
    forall i, j | 0 <= i < j < |r| && r[i].value == r[j].value
      ensures r[i].text in ks && r[j].text in ks && FirstIndex(ks, r[i].text) < FirstIndex(ks, r[j].text)
    {
      assert r[i] == Word(sorted[i].0, sorted[i].1) && r[j] == Word(sorted[j].0, sorted[j].1);
      assert NegCount(sorted[i]) == NegCount(sorted[j]);
      var a, b := TiesKeepInputOrder(es, NegCount, i, j);
    }
  }

  /** An entry of a counter with distinct keys occurs once. */
  lemma OnceInMultiset(es: Counts<string>, a: nat)
    requires DistinctKeys(es) && a < |es|
    ensures multiset(es)[es[a]] == 1
  {
    assert es == es[..a] + [es[a]] + es[a + 1..];
    assert es[a] !in es[..a] by {
      forall k | 0 <= k < a ensures es[..a][k] != es[a] {
        assert es[k].0 != es[a].0;
      }
    }
    assert es[a] !in es[a + 1..] by {
      forall k | a < k < |es| ensures es[k] != es[a] {
        assert es[k].0 != es[a].0;
      }
    }
  }

  /** Sorting keeps distinct keys distinct. */
  lemma SortedDistinct(es: Counts<string>, sorted: Counts<string>, i: nat, j: nat)
    requires sorted == SortBy(es, NegCount) && DistinctKeys(es)
    requires i < j < |sorted|
    ensures sorted[i].0 != sorted[j].0
  {
    assert sorted[i] in multiset(es) && sorted[j] in multiset(es);
    var a :| 0 <= a < |es| && es[a] == sorted[i];
    var b :| 0 <= b < |es| && es[b] == sorted[j];
    if sorted[i].0 == sorted[j].0 {
      assert a == b;
      TwiceInMultiset(sorted, i, j);
      OnceInMultiset(es, a);
    }
  }
}
