/**
  The entry form (`src/components/log/log-form.tsx`): the zod schema the
  submitted values must pass, the default values drawn from the entry being
  edited, and the create-or-update choice on submit.  Number inputs are
  coerced to numbers before the schema sees them; they are exact reals here.
  The backend `createLog`/`updateLog` calls are the action the submit
  returns.
*/
module LogForm {
  import opened Wrappers
  import opened Types

  /** The values as the form hands them to the schema. */
  datatype FormInput = FormInput(
    title: string,
    description: string,
    mood: string,
    workType: string,
    energyLevel: real,
    meaningLevel: real,
    date: string)

  /** The fields the schema checks, in schema order. */
  datatype FormField = TitleField | DescriptionField | MoodField | WorkTypeField | EnergyField | MeaningField

  /** Values that passed the schema. */
  datatype FormValues = FormValues(
    title: string,
    description: string,
    mood: Mood,
    workType: WorkType,
    energyLevel: real,
    meaningLevel: real,
    date: string)

  datatype Validation = Accepted(values: FormValues) | Rejected(issues: seq<FormField>)

  /** `z.number().min(1).max(5)`. */
  predicate InLevelRange(v: real)
  {
    1.0 <= v <= 5.0
  }

  /** The fields that break their rule, in schema order. */
  function Issues(input: FormInput): seq<FormField>
  {
    Report(|input.title| >= 3, TitleField)
    + Report(|input.description| >= 10, DescriptionField)
    + Report(ParseMood(input.mood).Some?, MoodField)
    + Report(ParseWorkType(input.workType).Some?, WorkTypeField)
    + Report(InLevelRange(input.energyLevel), EnergyField)
    + Report(InLevelRange(input.meaningLevel), MeaningField)
  }

  /**
    Each field is reported exactly when it breaks its rule: a title of at
    least 3 characters, a description of at least 10, a listed mood and work
    type, levels between 1 and 5 (whole or not); the date is never reported.
  */
  lemma IssuesSpec(input: FormInput)
    ensures TitleField in Issues(input) <==> |input.title| < 3
    ensures DescriptionField in Issues(input) <==> |input.description| < 10
    ensures MoodField in Issues(input) <==> forall m :: MoodName(m) != input.mood
    ensures WorkTypeField in Issues(input) <==> forall w :: WorkTypeName(w) != input.workType
    ensures EnergyField in Issues(input) <==> !(1.0 <= input.energyLevel <= 5.0)
    ensures MeaningField in Issues(input) <==> !(1.0 <= input.meaningLevel <= 5.0)
  {
    FieldsReported(|input.title| >= 3, |input.description| >= 10, ParseMood(input.mood).Some?,
                   ParseWorkType(input.workType).Some?, InLevelRange(input.energyLevel), InLevelRange(input.meaningLevel));
    UnlistedNames(input.mood, input.workType);
  }

  /** The one-field list reported for a failed rule. */
  function Report(ok: bool, f: FormField): (r: seq<FormField>)
    ensures forall x :: x in r <==> !ok && x == f
  {
    if ok then [] else [f]
  }

  /** Each field is in the list built from the six verdicts exactly when its verdict is false. */
  lemma FieldsReported(t: bool, d: bool, m: bool, w: bool, e: bool, g: bool)
    ensures var s := Report(t, TitleField) + Report(d, DescriptionField) + Report(m, MoodField)
      + Report(w, WorkTypeField) + Report(e, EnergyField) + Report(g, MeaningField);
      && (TitleField in s <==> !t) && (DescriptionField in s <==> !d) && (MoodField in s <==> !m)
      && (WorkTypeField in s <==> !w) && (EnergyField in s <==> !e) && (MeaningField in s <==> !g)
  {
  }

  /** A string parses as a mood (work type) exactly when it is the literal of one. */
  lemma UnlistedNames(mood: string, workType: string)
    ensures ParseMood(mood).None? <==> forall m :: MoodName(m) != mood
    ensures ParseWorkType(workType).None? <==> forall w :: WorkTypeName(w) != workType
  {
    forall m ensures ParseMood(MoodName(m)) == Some(m) {
      NamesRoundTrip(m, Work, En);
    }
    forall w ensures ParseWorkType(WorkTypeName(w)) == Some(w) {
      NamesRoundTrip(Sad, w, En);
    }
  }

  /** `formSchema.safeParse(input)`. */
  function Validate(input: FormInput): (r: Validation)
    ensures r.Rejected? ==> r.issues == Issues(input) && r.issues != []
    ensures r.Accepted? <==> Issues(input) == []
    ensures r.Accepted? ==>
      && r.values.title == input.title && r.values.description == input.description
      && MoodName(r.values.mood) == input.mood && WorkTypeName(r.values.workType) == input.workType
      && r.values.energyLevel == input.energyLevel && r.values.meaningLevel == input.meaningLevel
      && r.values.date == input.date
  {
    if Issues(input) != [] then Rejected(Issues(input))
    else
      Accepted(FormValues(input.title, input.description, ParseMood(input.mood).value, ParseWorkType(input.workType).value,
                          input.energyLevel, input.meaningLevel, input.date))
  }

  /** A level of 2.5 passes: the schema does not ask for whole numbers. */
  lemma FractionalLevelAccepted()
    ensures Validate(FormInput("Run", "Went running", "happy", "health", 2.5, 4.5, "2024-01-01")).Accepted?
  {
    assert |"Went running"| == 12;
  }

  /** `Partial<LogEntry>` as the form receives it; the date is its ISO string. */
  datatype InitialData = InitialData(
    title: Option<string>,
    description: Option<string>,
    mood: Option<Mood>,
    workType: Option<WorkType>,
    energyLevel: Option<Level>,
    meaningLevel: Option<Level>,
    date: Option<string>)

  /** A string the `||` operator keeps: present and non-empty. */
  predicate Truthy(s: Option<string>)
  {
    s.Some? && s.value != ""
  }

  datatype FormDefaults = FormDefaults(
    title: string,
    description: string,
    mood: Mood,
    workType: WorkType,
    energyLevel: Level,
    meaningLevel: Level,
    date: string)

  /**
    `defaultValues`: each field of `initialData` when it is truthy, else
    "", "", neutral, work, 3, 3 and `today`.  Moods, work types and levels
    are never falsy, so for them presence decides.
  */
  function DefaultValues(initialData: Option<InitialData>, today: string): FormDefaults
  {
    match initialData
    case None => FormDefaults("", "", Neutral, Work, 3, 3, today)
    case Some(d) =>
      FormDefaults(
        if Truthy(d.title) then d.title.value else "",
        if Truthy(d.description) then d.description.value else "",
        d.mood.GetOr(Neutral),
        d.workType.GetOr(Work),
        d.energyLevel.GetOr(3),
        d.meaningLevel.GetOr(3),
        if Truthy(d.date) then d.date.value else today)
  }

  /** The form input the defaults stand for. */
  function InputOf(d: FormDefaults): FormInput
  {
    FormInput(d.title, d.description, MoodName(d.mood), WorkTypeName(d.workType), d.energyLevel as real, d.meaningLevel as real, d.date)
  }

  /**
    Without initial data the form starts blank with neutral, work, 3, 3 and
    today; with partial initial data each field is the given value when it
    is present (and, for strings, non-empty) and its default otherwise;
    editing an entry starts from that entry's values; and only the title and
    the description of defaults can fail the schema.
  */
  lemma DefaultsSpec(initialData: Option<InitialData>, today: string, e: LogEntry, isoDate: string)
    ensures DefaultValues(None, today) == FormDefaults("", "", Neutral, Work, 3, 3, today)
    ensures initialData.Some? ==>
      var d, r := initialData.value, DefaultValues(initialData, today);
      && (d.title.Some? && d.title.value != "" ==> r.title == d.title.value)
      && (d.title.None? || d.title.value == "" ==> r.title == "")
      && (d.description.Some? && d.description.value != "" ==> r.description == d.description.value)
      && (d.description.None? || d.description.value == "" ==> r.description == "")
      && (d.mood.Some? ==> r.mood == d.mood.value) && (d.mood.None? ==> r.mood == Neutral)
      && (d.workType.Some? ==> r.workType == d.workType.value) && (d.workType.None? ==> r.workType == Work)
      && (d.energyLevel.Some? ==> r.energyLevel == d.energyLevel.value) && (d.energyLevel.None? ==> r.energyLevel == 3)
      && (d.meaningLevel.Some? ==> r.meaningLevel == d.meaningLevel.value) && (d.meaningLevel.None? ==> r.meaningLevel == 3)
      && (d.date.Some? && d.date.value != "" ==> r.date == d.date.value)
      && (d.date.None? || d.date.value == "" ==> r.date == today)
    ensures var d := InitialData(Some(e.title), Some(e.description), Some(e.mood), Some(e.workType),
                                 Some(e.energyLevel), Some(e.meaningLevel), Some(isoDate));
      isoDate != "" ==> DefaultValues(Some(d), today) == FormDefaults(e.title, e.description, e.mood, e.workType, e.energyLevel, e.meaningLevel, isoDate)
    ensures forall f :: f in Issues(InputOf(DefaultValues(initialData, today))) ==> f == TitleField || f == DescriptionField
  {
    var input := InputOf(DefaultValues(initialData, today));
    IssuesSpec(input);
  }

  /** What the submit asks the backend to do. */
  datatype SubmitAction = CreateLog(values: FormValues) | UpdateLog(id: string, values: FormValues)

  class LogFormState {
    const id: Option<string>
    var isSubmitting: bool

    constructor (id: Option<string>)
      ensures this.id == id && !isSubmitting
    {
      this.id := id;
      isSubmitting := false;
    }

    /**
      `onSubmit(values)`: an update of the entry when an id is present and
      non-empty, a creation otherwise; the form leaves the submitting state
      whatever the backend does.
    */
    method OnSubmit(values: FormValues) returns (action: SubmitAction)
      modifies this`isSubmitting
      ensures !isSubmitting
      ensures action.UpdateLog? <==> id.Some? && id.value != ""
      ensures action.UpdateLog? ==> action == UpdateLog(id.value, values)
      ensures action.CreateLog? ==> action == CreateLog(values)
    {
      isSubmitting := true;
      if id.Some? && id.value != "" {
        action := UpdateLog(id.value, values);
      } else {
        action := CreateLog(values);
      }
      isSubmitting := false;
    }
  }
}
