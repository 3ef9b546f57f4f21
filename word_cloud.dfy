/**
  The word cloud (`src/components/dashboard/word-cloud.tsx`): the effect that
  turns the entries' descriptions into the thirty most frequent keywords,
  and the colour chosen for a word from its frequency relative to the most
  frequent word.
*/
module WordCloud {
  import opened Wrappers
  import opened Types
  import opened Counting
  import opened Utils

  /** `logs.map((log) => log.description)`. */
  function Descriptions(logs: seq<LogEntry>): (r: seq<string>)
    ensures |r| == |logs| && forall i :: 0 <= i < |logs| ==> r[i] == logs[i].description
  {
    if logs == [] then [] else [logs[0].description] + Descriptions(logs[1..])
  }

  const WordLimit: nat := 30

  /** The words the effect computes for non-empty entries. */
  function CloudWords(logs: seq<LogEntry>): seq<Word>
  {
    GetTopWords(CountAll(AllKeywords(Descriptions(logs))), WordLimit)
  }

  /** The top words of a keyword list count their own occurrences, and each occurs. */
  lemma TopWordsCounted(ks: seq<string>, limit: nat)
    ensures var r := GetTopWords(CountAll(ks), limit);
      forall i :: 0 <= i < |r| ==> 0 < r[i].value == multiset(ks)[r[i].text]
  {
    var f := CountAll(ks);
    var r := GetTopWords(f, limit);
    CountAllSpec(ks);
    TopWordsRanked(f, limit);
    forall i | 0 <= i < |r| ensures 0 < r[i].value == multiset(ks)[r[i].text] {
      var e := (r[i].text, r[i].value as nat);
      assert e in f;
      var k :| 0 <= k < |f| && f[k] == e;
    }
  }

  /** A word that occurs among the keywords has an entry in their counter, with its count. */
  lemma CounterEntry(ks: seq<string>, w: string) returns (k: nat)
    requires multiset(ks)[w] > 0
    ensures k < |CountAll(ks)| && CountAll(ks)[k] == (w, multiset(ks)[w])
  {
    var f := CountAll(ks);
    CountAllSpec(ks);
    assert w in Keys(f) by {
      assert w in multiset(ks);
    }
    k :| 0 <= k < |f| && f[k].0 == w;
  }

  /** A keyword occurring more often than a shown word is shown itself. */
  lemma TopWordsCover(ks: seq<string>, limit: nat)
    ensures var r := GetTopWords(CountAll(ks), limit);
      forall i, w :: 0 <= i < |r| && multiset(ks)[w] > r[i].value ==> exists j :: 0 <= j < |r| && r[j].text == w
  {
    var f := CountAll(ks);
    var r := GetTopWords(f, limit);
    TopWordsComplete(f, limit);
    forall i, w | 0 <= i < |r| && multiset(ks)[w] > r[i].value ensures exists j :: 0 <= j < |r| && r[j].text == w {
      var k := CounterEntry(ks, w);
      assert f[k] in f && f[k].1 > r[i].value;
    }
  }

  /**
    At most thirty words, by non-increasing frequency, with distinct texts;
    each word's value is the number of times it occurs among the keywords of
    all descriptions, and no word left out occurs more often than one shown.
  */
  lemma CloudWordsSpec(logs: seq<LogEntry>)
    ensures var r := CloudWords(logs); var ks := AllKeywords(Descriptions(logs));
      && |r| <= WordLimit
      && (forall i, j :: 0 <= i < j < |r| ==> r[i].value >= r[j].value)
      && (forall i, j :: 0 <= i < j < |r| ==> r[i].text != r[j].text)
      && (forall i :: 0 <= i < |r| ==> 0 < r[i].value == multiset(ks)[r[i].text])
      && (forall i, w :: 0 <= i < |r| && multiset(ks)[w] > r[i].value ==> exists j :: 0 <= j < |r| && r[j].text == w)
      && (forall i, j :: 0 <= i < j < |r| && r[i].value == r[j].value ==>
            r[i].text in ks && r[j].text in ks && FirstIndex(ks, r[i].text) < FirstIndex(ks, r[j].text))
  {
    TopWordsOf(AllKeywords(Descriptions(logs)));
    TopWordsTieOrder(AllKeywords(Descriptions(logs)), WordLimit);
  }

  /** `CloudWordsSpec` over an abstract keyword list. */
  lemma TopWordsOf(ks: seq<string>)
    ensures var r := GetTopWords(CountAll(ks), WordLimit);
      && |r| <= WordLimit
      && (forall i, j :: 0 <= i < j < |r| ==> r[i].value >= r[j].value)
      && (forall i, j :: 0 <= i < j < |r| ==> r[i].text != r[j].text)
      && (forall i :: 0 <= i < |r| ==> 0 < r[i].value == multiset(ks)[r[i].text])
      && (forall i, w :: 0 <= i < |r| && multiset(ks)[w] > r[i].value ==> exists j :: 0 <= j < |r| && r[j].text == w)
  {
    CountAllSpec(ks);
    TopWordsRanked(CountAll(ks), WordLimit);
    TopWordsDistinct(CountAll(ks), WordLimit);
    TopWordsCounted(ks, WordLimit);
    TopWordsCover(ks, WordLimit);
  }

  /** `Math.max(...words.map((word) => word.value))`. */
  function MaxValue(ws: seq<Word>): (m: int)
    requires ws != []
    ensures forall i :: 0 <= i < |ws| ==> ws[i].value <= m
    ensures exists i :: 0 <= i < |ws| && ws[i].value == m
  {
    if |ws| == 1 then ws[0].value
    else
      var rest := MaxValue(ws[1..]);
      assert forall i :: 1 <= i < |ws| ==> ws[i] == ws[1..][i - 1];
      if ws[0].value >= rest then ws[0].value else rest
  }

  const Colors: seq<string> := ["text-primary", "text-secondary", "text-accent", "text-highlight-foreground", "text-purple-500"]

  /** `Math.floor((value / maxValue) * (colors.length - 1))`, with a positive maximum. */
  function ColorIndex(value: int, maxValue: int): int
    requires maxValue > 0
  {
    ((|Colors| - 1) * value) / maxValue
  }

  lemma MulMonoInt(a: int, b: int, k: int)
    requires k > 0
    ensures a <= b <==> a * k <= b * k
  {
    if a <= b {
      assert (b - a) * k >= 0;
    } else {
      assert (a - b) * k > 0;
    }
  }

  /** A value between 0 and the maximum picks one of the five colours, the last one exactly for the maximum. */
  lemma ColorIndexSpec(value: int, maxValue: int)
    requires 0 < maxValue && 0 <= value <= maxValue
    ensures 0 <= ColorIndex(value, maxValue) < |Colors|
    ensures ColorIndex(value, maxValue) == |Colors| - 1 <==> value == maxValue
    ensures value < maxValue ==> ColorIndex(value, maxValue) * maxValue <= 4 * value
  {
    var q := ColorIndex(value, maxValue);
    assert q * maxValue <= 4 * value < (q + 1) * maxValue;
    MulMonoInt(q, 4, maxValue);
    MulMonoInt(5, q + 1, maxValue);
    MulMonoInt(0, q + 1, maxValue);
    if value == maxValue {
      MulMonoInt(q, 3, maxValue);
    } else {
      MulMonoInt(value, maxValue - 1, 4);
    }
  }

  /** `colors[index]`; outside the five colours the class is missing. */
  function ColorOf(value: int, maxValue: int): Option<string>
    requires maxValue > 0
  {
    var index := ColorIndex(value, maxValue);
    if 0 <= index < |Colors| then Some(Colors[index]) else None
  }

  /** What the card shows: the "no data" message, or each word with its colour. */
  datatype CloudView = NoData | Cloud(items: seq<(string, Option<string>)>)

  /** The colour of a value against the maximum; a non-positive maximum picks none. */
  function ColorFor(value: int, maxValue: int): Option<string>
  {
    if maxValue > 0 then ColorOf(value, maxValue) else None
  }

  /** `words.map((word) => ...)`: each word's text with its colour. */
  function RenderItems(ws: seq<Word>, maxValue: int): (r: seq<(string, Option<string>)>)
    ensures |r| == |ws| && forall i :: 0 <= i < |ws| ==> r[i] == (ws[i].text, ColorFor(ws[i].value, maxValue))
  {
    if ws == [] then [] else [(ws[0].text, ColorFor(ws[0].value, maxValue))] + RenderItems(ws[1..], maxValue)
  }

  /** `words.length > 0 ? ... : noDataAvailable`. */
  function Render(ws: seq<Word>): (r: CloudView)
    ensures r.NoData? <==> ws == []
    ensures r.Cloud? ==> |r.items| == |ws| && forall i :: 0 <= i < |ws| ==> r.items[i].0 == ws[i].text
  {
    if ws == [] then NoData else Cloud(RenderItems(ws, MaxValue(ws)))
  }

  /** Values in (0, max] all get a colour, the last colour exactly for the maximum. */
  lemma ItemColors(ws: seq<Word>, m: int)
    requires m > 0 && forall i :: 0 <= i < |ws| ==> 0 < ws[i].value <= m
    ensures var r := RenderItems(ws, m);
      forall i :: 0 <= i < |ws| ==> r[i].1.Some? && (r[i].1 == Some(Colors[4]) <==> ws[i].value == m)
  {
    var r := RenderItems(ws, m);
    assert forall a, b :: 0 <= a < b < |Colors| ==> Colors[a] != Colors[b];
    forall i | 0 <= i < |ws| ensures r[i].1.Some? && (r[i].1 == Some(Colors[4]) <==> ws[i].value == m) {
      ColorIndexSpec(ws[i].value, m);
    }
  }

  /** With positive values every word gets a colour, the words of maximal value the last one. */
  lemma RenderColors(ws: seq<Word>)
    requires ws != [] && forall i :: 0 <= i < |ws| ==> ws[i].value > 0
    ensures Render(ws).Cloud?
    ensures forall i :: 0 <= i < |ws| ==> Render(ws).items[i].1.Some?
    ensures forall i :: 0 <= i < |ws| ==> (Render(ws).items[i].1 == Some(Colors[4]) <==> ws[i].value == MaxValue(ws))
  {
    var m := MaxValue(ws);
    assert m >= ws[0].value;
    ItemColors(ws, m);
  }

  /** Every word of the effect gets a colour, the most frequent words the last one. */
  lemma CloudColors(logs: seq<LogEntry>)
    requires CloudWords(logs) != []
    ensures Render(CloudWords(logs)).Cloud?
    ensures forall i :: 0 <= i < |CloudWords(logs)| ==> Render(CloudWords(logs)).items[i].1.Some?
    ensures forall i :: 0 <= i < |CloudWords(logs)| ==>
      (Render(CloudWords(logs)).items[i].1 == Some(Colors[4]) <==> CloudWords(logs)[i].value == MaxValue(CloudWords(logs)))
  {
    CloudWordsSpec(logs);
    RenderColors(CloudWords(logs));
  }

  class WordCloud {
    var words: seq<Word>

    /** `useState<Word[]>([])`. */
    constructor ()
      ensures words == []
    {
      words := [];
    }

    /**
      The effect on `logs`: nothing happens for no entries, otherwise the
      words become the top thirty keywords of the descriptions.
    */
    method OnLogsChanged(logs: seq<LogEntry>)
      modifies this`words
      ensures logs == [] ==> words == old(words)
      ensures logs != [] ==> words == CloudWords(logs)
    {
      if |logs| == 0 {
        return;
      }
      var descriptions := Descriptions(logs);
      var wordFreq := GetWordFrequency(descriptions);
      words := GetTopWords(wordFreq, 30);
    }
  }
}
