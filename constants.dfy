/**
  The option tables of `src/lib/constants.ts`: every mood and work type with
  its translation key and emoji, and the five energy and meaning levels.
  The emoji strings are represented by opaque glyph values.
*/
module Constants {
  import opened Types
  import Text

  /** An emoji of the option tables, named by the table row it belongs to. */
  datatype Glyph = MoodGlyph(mood: Mood) | WorkTypeGlyph(workType: WorkType)

  datatype MoodOption = MoodOption(value: Mood, labelKey: string, emoji: Glyph)

  datatype WorkTypeOption = WorkTypeOption(value: WorkType, labelKey: string, emoji: Glyph)

  datatype LevelOption = LevelOption(value: Level, labelKey: string)

  const Moods: seq<MoodOption> := [
    MoodOption(Excited, "mood.excited", MoodGlyph(Excited)),
    MoodOption(Happy, "mood.happy", MoodGlyph(Happy)),
    MoodOption(Neutral, "mood.neutral", MoodGlyph(Neutral)),
    MoodOption(Tired, "mood.tired", MoodGlyph(Tired)),
    MoodOption(Frustrated, "mood.frustrated", MoodGlyph(Frustrated)),
    MoodOption(Sad, "mood.sad", MoodGlyph(Sad))
  ]

  const WorkTypes: seq<WorkTypeOption> := [
    WorkTypeOption(Work, "workType.work", WorkTypeGlyph(Work)),
    WorkTypeOption(Learning, "workType.learning", WorkTypeGlyph(Learning)),
    WorkTypeOption(Personal, "workType.personal", WorkTypeGlyph(Personal)),
    WorkTypeOption(Health, "workType.health", WorkTypeGlyph(Health)),
    WorkTypeOption(Social, "workType.social", WorkTypeGlyph(Social)),
    WorkTypeOption(Leisure, "workType.leisure", WorkTypeGlyph(Leisure))
  ]

  const EnergyLevels: seq<LevelOption> := [
    LevelOption(1, "energyLevel.1"),
    LevelOption(2, "energyLevel.2"),
    LevelOption(3, "energyLevel.3"),
    LevelOption(4, "energyLevel.4"),
    LevelOption(5, "energyLevel.5")
  ]

  const MeaningLevels: seq<LevelOption> := [
    LevelOption(1, "meaningLevel.1"),
    LevelOption(2, "meaningLevel.2"),
    LevelOption(3, "meaningLevel.3"),
    LevelOption(4, "meaningLevel.4"),
    LevelOption(5, "meaningLevel.5")
  ]

  /** The values of the mood table, in table order. */
  function MoodValues(): (r: seq<Mood>)
    ensures |r| == |Moods| && forall i :: 0 <= i < |Moods| ==> r[i] == Moods[i].value
  {
    seq(|Moods|, i requires 0 <= i < |Moods| => Moods[i].value)
  }

  /** The values of the work-type table, in table order. */
  function WorkTypeValues(): (r: seq<WorkType>)
    ensures |r| == |WorkTypes| && forall i :: 0 <= i < |WorkTypes| ==> r[i] == WorkTypes[i].value
  {
    seq(|WorkTypes|, i requires 0 <= i < |WorkTypes| => WorkTypes[i].value)
  }

  /** The mood table lists the six moods once each, in this order, each labelled "mood." + its literal. */
  lemma MoodsTable()
    ensures MoodValues() == [Excited, Happy, Neutral, Tired, Frustrated, Sad]
    ensures forall i, j :: 0 <= i < j < |Moods| ==> Moods[i].value != Moods[j].value
    ensures forall m: Mood :: m in MoodValues()
    ensures forall i :: 0 <= i < |Moods| ==> Moods[i].labelKey == "mood." + MoodName(Moods[i].value)
    ensures forall i :: 0 <= i < |Moods| ==> Moods[i].emoji == MoodGlyph(Moods[i].value)
  {
    MoodValuesListed();
    MoodLabelsPrefixed();
  }

  lemma MoodValuesListed()
    ensures MoodValues() == [Excited, Happy, Neutral, Tired, Frustrated, Sad]
    ensures forall m: Mood :: m in MoodValues()
  {
    var vs := MoodValues();
    assert vs == [Excited, Happy, Neutral, Tired, Frustrated, Sad];
    forall m: Mood ensures m in vs {
      match m {
        case Excited => assert vs[0] == m;
        case Happy => assert vs[1] == m;
        case Neutral => assert vs[2] == m;
        case Tired => assert vs[3] == m;
        case Frustrated => assert vs[4] == m;
        case Sad => assert vs[5] == m;
      }
    }
  }

  lemma MoodLabelsPrefixed()
    ensures forall i :: 0 <= i < |Moods| ==> Moods[i].labelKey == "mood." + MoodName(Moods[i].value)
    ensures forall i :: 0 <= i < |Moods| ==> Moods[i].emoji == MoodGlyph(Moods[i].value)
  {
    forall i | 0 <= i < |Moods| ensures Moods[i].labelKey == "mood." + MoodName(Moods[i].value) {
      MoodLabelAt(i);
    }
  }

  lemma MoodLabelAt(i: int)
    requires 0 <= i < |Moods|
    ensures Moods[i].labelKey == "mood." + MoodName(Moods[i].value)
  {
    if i == 0 {
      assert Moods[0].labelKey == "mood." + "excited";
    } else if i == 1 {
      assert Moods[1].labelKey == "mood." + "happy";
    } else if i == 2 {
      assert Moods[2].labelKey == "mood." + "neutral";
    } else if i == 3 {
      assert Moods[3].labelKey == "mood." + "tired";
    } else if i == 4 {
      assert Moods[4].labelKey == "mood." + "frustrated";
    } else {
      assert Moods[5].labelKey == "mood." + "sad";
    }
  }

  /** The work-type table lists the six work types once each, in this order, each labelled "workType." + its literal. */
  lemma WorkTypesTable()
    ensures WorkTypeValues() == [Work, Learning, Personal, Health, Social, Leisure]
    ensures forall i, j :: 0 <= i < j < |WorkTypes| ==> WorkTypes[i].value != WorkTypes[j].value
    ensures forall w: WorkType :: w in WorkTypeValues()
    ensures forall i :: 0 <= i < |WorkTypes| ==> WorkTypes[i].labelKey == "workType." + WorkTypeName(WorkTypes[i].value)
    ensures forall i :: 0 <= i < |WorkTypes| ==> WorkTypes[i].emoji == WorkTypeGlyph(WorkTypes[i].value)
  {
    WorkTypeValuesListed();
    WorkTypeLabelsPrefixed();
  }

  lemma WorkTypeValuesListed()
    ensures WorkTypeValues() == [Work, Learning, Personal, Health, Social, Leisure]
    ensures forall w: WorkType :: w in WorkTypeValues()
  {
    var vs := WorkTypeValues();
    assert vs == [Work, Learning, Personal, Health, Social, Leisure];
    forall w: WorkType ensures w in vs {
      match w {
        case Work => assert vs[0] == w;
        case Learning => assert vs[1] == w;
        case Personal => assert vs[2] == w;
        case Health => assert vs[3] == w;
        case Social => assert vs[4] == w;
        case Leisure => assert vs[5] == w;
      }
    }
  }

  lemma WorkTypeLabelsPrefixed()
    ensures forall i :: 0 <= i < |WorkTypes| ==> WorkTypes[i].labelKey == "workType." + WorkTypeName(WorkTypes[i].value)
    ensures forall i :: 0 <= i < |WorkTypes| ==> WorkTypes[i].emoji == WorkTypeGlyph(WorkTypes[i].value)
  {
    forall i | 0 <= i < |WorkTypes| ensures WorkTypes[i].labelKey == "workType." + WorkTypeName(WorkTypes[i].value) {
      WorkTypeLabelAt(i);
    }
  }

  lemma WorkTypeLabelAt(i: int)
    requires 0 <= i < |WorkTypes|
    ensures WorkTypes[i].labelKey == "workType." + WorkTypeName(WorkTypes[i].value)
  {
    if i == 0 {
      assert WorkTypes[0].labelKey == "workType." + "work";
    } else if i == 1 {
      assert WorkTypes[1].labelKey == "workType." + "learning";
    } else if i == 2 {
      assert WorkTypes[2].labelKey == "workType." + "personal";
    } else if i == 3 {
      assert WorkTypes[3].labelKey == "workType." + "health";
    } else if i == 4 {
      assert WorkTypes[4].labelKey == "workType." + "social";
    } else {
      assert WorkTypes[5].labelKey == "workType." + "leisure";
    }
  }

  /** The level tables hold 1 to 5 ascending, labelled with their prefix and the value. */
  lemma LevelTables()
    ensures |EnergyLevels| == 5 && |MeaningLevels| == 5
    ensures forall i :: 0 <= i < 5 ==> EnergyLevels[i].value == i + 1 && MeaningLevels[i].value == i + 1
    ensures forall i :: 0 <= i < 5 ==> EnergyLevels[i].labelKey == "energyLevel." + Text.NatToString(i + 1)
    ensures forall i :: 0 <= i < 5 ==> MeaningLevels[i].labelKey == "meaningLevel." + Text.NatToString(i + 1)
  {
  }
}
