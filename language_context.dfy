/**
  The language provider (`src/contexts/language-context.tsx`): the current
  interface language, its persisted copy in local storage, and the lookup
  `t(key)` in the current language's translation table, falling back to the
  key itself.  The tables are a parameter of the provider; only the English
  labels of the constant tables are written out.
*/
module LanguageContext {
  import opened Wrappers
  import opened Types
  import opened Constants

  /** A translation table: translation key to text. */
  type Table = map<string, string>

  /** `translationObj[key] || key`: a present, non-empty entry, and the key itself otherwise. */
  function Translate(table: Table, key: string): (r: string)
    ensures key in table && table[key] != "" ==> r == table[key]
    ensures key !in table || table[key] == "" ==> r == key
  {
    if key in table && table[key] != "" then table[key] else key
  }

  /**
    The lookup gives back the key exactly when the table has no text for it,
    an empty text, or the key itself as its text; anything else it gives is
    the table's text.
  */
  lemma TranslateFallsBack(table: Table, key: string)
    ensures Translate(table, key) == key <==> key !in table || table[key] == "" || table[key] == key
    ensures Translate(table, key) != key ==> key in table && Translate(table, key) == table[key]
  {
  }

  /** The English texts of the mood, work-type and level keys. */
  const EnglishLabels: Table := map[
    "mood.excited" := "Excited",
    "mood.happy" := "Happy",
    "mood.neutral" := "Neutral",
    "mood.tired" := "Tired",
    "mood.frustrated" := "Frustrated",
    "mood.sad" := "Sad",
    "workType.work" := "Work",
    "workType.learning" := "Learning",
    "workType.personal" := "Personal",
    "workType.health" := "Health",
    "workType.social" := "Social",
    "workType.leisure" := "Leisure",
    "energyLevel.1" := "Very Low",
    "energyLevel.2" := "Low",
    "energyLevel.3" := "Medium",
    "energyLevel.4" := "High",
    "energyLevel.5" := "Very High",
    "meaningLevel.1" := "Not Meaningful",
    "meaningLevel.2" := "Slightly Meaningful",
    "meaningLevel.3" := "Moderately Meaningful",
    "meaningLevel.4" := "Very Meaningful",
    "meaningLevel.5" := "Extremely Meaningful"
  ]

  /** Every label key of the constant tables has a non-empty English text other than the key. */
  lemma ConstantLabelsTranslated()
    ensures forall i :: 0 <= i < |Moods| ==> Moods[i].labelKey in EnglishLabels && Translate(EnglishLabels, Moods[i].labelKey) != Moods[i].labelKey
    ensures forall i :: 0 <= i < |WorkTypes| ==> WorkTypes[i].labelKey in EnglishLabels && Translate(EnglishLabels, WorkTypes[i].labelKey) != WorkTypes[i].labelKey
    ensures forall i :: 0 <= i < |EnergyLevels| ==> EnergyLevels[i].labelKey in EnglishLabels && Translate(EnglishLabels, EnergyLevels[i].labelKey) != EnergyLevels[i].labelKey
    ensures forall i :: 0 <= i < |MeaningLevels| ==> MeaningLevels[i].labelKey in EnglishLabels && Translate(EnglishLabels, MeaningLevels[i].labelKey) != MeaningLevels[i].labelKey
  {
    MoodLabelsTranslated();
    WorkTypeLabelsTranslated();
    LevelLabelsTranslated();
  }

  lemma MoodLabelsTranslated()
    ensures forall i :: 0 <= i < |Moods| ==> Moods[i].labelKey in EnglishLabels && Translate(EnglishLabels, Moods[i].labelKey) != Moods[i].labelKey
  {
  }

  lemma WorkTypeLabelsTranslated()
    ensures forall i :: 0 <= i < |WorkTypes| ==> WorkTypes[i].labelKey in EnglishLabels && Translate(EnglishLabels, WorkTypes[i].labelKey) != WorkTypes[i].labelKey
  {
  }

  lemma LevelLabelsTranslated()
    ensures forall i :: 0 <= i < |EnergyLevels| ==> EnergyLevels[i].labelKey in EnglishLabels && Translate(EnglishLabels, EnergyLevels[i].labelKey) != EnergyLevels[i].labelKey
    ensures forall i :: 0 <= i < |MeaningLevels| ==> MeaningLevels[i].labelKey in EnglishLabels && Translate(EnglishLabels, MeaningLevels[i].labelKey) != MeaningLevels[i].labelKey
  {
  }

  /**
    The provider.  `saved` is the value stored under "language" in local
    storage (None when nothing is stored).
  */
  class LanguageProvider {
    const translations: map<Language, Table>
    var language: Language
    var saved: Option<string>

    /** `useState<Language>("en")`, with whatever the storage holds. */
    constructor (translations: map<Language, Table>, saved: Option<string>)
      ensures this.translations == translations && language == En && this.saved == saved
    {
      this.translations := translations;
      language := En;
      this.saved := saved;
    }

    /** The language is persisted. */
    predicate Persisted()
      reads this
    {
      saved == Some(LanguageName(language))
    }

    /**
      The two mount effects: a saved "en" or "vi" is adopted and any other
      saved value is ignored; then the current language is written back.
    */
    method Mount()
      modifies this
      ensures old(saved).Some? && ParseLanguage(old(saved).value).Some? ==> language == ParseLanguage(old(saved).value).value
      ensures old(saved).None? || ParseLanguage(old(saved).value).None? ==> language == old(language)
      ensures Persisted()
    {
      if saved.Some? && saved.value != "" && (saved.value == "en" || saved.value == "vi") {
        language := if saved.value == "en" then En else Vi;
      }
      saved := Some(LanguageName(language));
    }

    /** `setLanguage(l)` followed by the persisting effect. */
    method SetLanguage(l: Language)
      modifies this
      ensures language == l && Persisted()
    {
      language := l;
      saved := Some(LanguageName(language));
    }

    /** `t(key)`: a text of the current language's table, or the key itself. */
    function T(key: string): (r: string)
      reads this
      ensures r != key ==> language in translations && key in translations[language] && r == translations[language][key]
      ensures language in translations && key in translations[language] && translations[language][key] != "" ==> r == translations[language][key]
      ensures language !in translations ==> r == key
      ensures language in translations && (key !in translations[language] || translations[language][key] == "") ==> r == key
    {
      if language !in translations then key else Translate(translations[language], key)
    }
  }
}
