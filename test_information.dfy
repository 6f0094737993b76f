/**
 * The second wizard step: which test kit is used. Only the test ID and the
 * lot number are checked; the panel, the sample type, the expiration date
 * and the notes always pass. The form is merged over the parameters of the
 * first step, with the expiration date rendered as its ISO-8601 text.
 */
module TestInformation {
  import opened Wrappers
  import opened Text
  import opened Ui

  const NextPath := "/test/id-verification"

  /** The panels offered by the Test Type control. */
  const TestTypes: seq<string> := ["5-panel", "10-panel", "custom"]

  /** The samples offered by the Sample Type control. */
  const SampleTypes: seq<string> := ["saliva", "urine", "oral fluid"]

  /** A calendar instant, known by its `toISOString()` rendering. */
  datatype Date = Date(iso: string)

  datatype InfoForm = InfoForm(
    testId: string,
    lotNumber: string,
    testType: string,
    sampleType: string,
    expirationDate: Date,
    notes: string)

  /** The form as the screen opens it on day `today` (`new Date()`). */
  function InitialForm(today: Date): (f: InfoForm)
    ensures f.testType == TestTypes[0] && f.sampleType == SampleTypes[0]
    ensures f.expirationDate == today
    ensures f.testId == "" && f.lotNumber == "" && f.notes == ""
  {
    InfoForm("", "", "5-panel", "saliva", today, "")
  }

  /** The route keys this step writes. */
  const FormKeys: set<string> := {"testId", "lotNumber", "testType", "sampleType", "expirationDate", "notes"}

  /** `{ ...previousData, ...formData, expirationDate: formData.expirationDate.toISOString() }`. */
  function Merged(prev: Params, form: InfoForm): (m: Params)
    ensures m.Keys == prev.Keys + FormKeys
    ensures forall k :: k in prev && k !in FormKeys ==> m[k] == prev[k]
    ensures m["testId"] == form.testId && m["lotNumber"] == form.lotNumber
    ensures m["testType"] == form.testType && m["sampleType"] == form.sampleType
    ensures m["expirationDate"] == form.expirationDate.iso && m["notes"] == form.notes
  {
    prev + map[
      "testId" := form.testId,
      "lotNumber" := form.lotNumber,
      "testType" := form.testType,
      "sampleType" := form.sampleType,
      "expirationDate" := form.expirationDate.iso,
      "notes" := form.notes]
  }

  /** `handleNext`. */
  function Next(prev: Params, form: InfoForm): (o: Outcome)
    ensures IsBlank(form.testId) ==> o == Alert("Required Field", "Please enter Test ID")
    ensures !IsBlank(form.testId) && IsBlank(form.lotNumber) ==>
              o == Alert("Required Field", "Please enter Lot Number")
    ensures o.Navigate? <==> !IsBlank(form.testId) && !IsBlank(form.lotNumber)
    ensures o.Navigate? ==> o == Navigate(NextPath, Merged(prev, form))
  {
    if Missing(form.testId) then Alert("Required Field", "Please enter Test ID")
    else if Missing(form.lotNumber) then Alert("Required Field", "Please enter Lot Number")
    else Navigate(NextPath, Merged(prev, form))
  }

  /** The panel, the sample type, the date and the notes never decide whether the step goes forward, nor which alert it shows. */
  lemma OnlyIdAndLotGate(prev: Params, form: InfoForm, testType: string, sampleType: string, date: Date, notes: string)
    ensures var other := form.(testType := testType, sampleType := sampleType, expirationDate := date, notes := notes);
      && Next(prev, other).Navigate? == Next(prev, form).Navigate?
      && (Next(prev, form).Alert? ==> Next(prev, other) == Next(prev, form))
  {
  }

  /** The form as opened stops at the test ID, whatever the date. */
  lemma InitialFormStopsAtTestId(prev: Params, today: Date)
    ensures Next(prev, InitialForm(today)) == Alert("Required Field", "Please enter Test ID")
  {
  }

  /** The state of the test-information screen. */
  class TestInformationScreen {
    var form: InfoForm
    var showDatePicker: bool

    /** The segmented controls only ever hold one of their offered values. */
    predicate Valid()
      reads this
    {
      form.testType in TestTypes && form.sampleType in SampleTypes
    }

    constructor(today: Date)
      ensures Valid()
      ensures form == InitialForm(today) && !showDatePicker
    {
      form := InitialForm(today);
      showDatePicker := false;
    }

    /** The Test ID input's `onChangeText`. */
    method SetTestId(text: string)
      requires Valid()
      modifies this
      ensures Valid()
      ensures form == old(form).(testId := text) && showDatePicker == old(showDatePicker)
    {
      form := form.(testId := text);
    }

    /** The Lot Number input's `onChangeText`. */
    method SetLotNumber(text: string)
      requires Valid()
      modifies this
      ensures Valid()
      ensures form == old(form).(lotNumber := text) && showDatePicker == old(showDatePicker)
    {
      form := form.(lotNumber := text);
    }

    /** The notes input's `onChangeText`. */
    method SetNotes(text: string)
      requires Valid()
      modifies this
      ensures Valid()
      ensures form == old(form).(notes := text) && showDatePicker == old(showDatePicker)
    {
      form := form.(notes := text);
    }

    /** A press on one of the Test Type segments. */
    method SelectTestType(choice: string)
      requires Valid() && choice in TestTypes
      modifies this
      ensures Valid()
      ensures form == old(form).(testType := choice) && showDatePicker == old(showDatePicker)
    {
      form := form.(testType := choice);
    }

    /** A press on one of the Sample Type segments. */
    method SelectSampleType(choice: string)
      requires Valid() && choice in SampleTypes
      modifies this
      ensures Valid()
      ensures form == old(form).(sampleType := choice) && showDatePicker == old(showDatePicker)
    {
      form := form.(sampleType := choice);
    }

    /** A press on the date button. */
    method OpenDatePicker()
      requires Valid()
      modifies this
      ensures Valid()
      ensures form == old(form) && showDatePicker
    {
      showDatePicker := true;
    }

    /**
     * `onDateChange`: the picker stays open only on iOS; the expiration date
     * changes only when a date was picked.
     */
    method OnDateChange(selected: Option<Date>, isIos: bool)
      requires Valid()
      modifies this
      ensures Valid()
      ensures showDatePicker == isIos
      ensures selected.Some? ==> form == old(form).(expirationDate := selected.value)
      ensures selected.None? ==> form == old(form)
    {
      showDatePicker := isIos;
      if selected.Some? {
        form := form.(expirationDate := selected.value);
      }
    }
  }
}
