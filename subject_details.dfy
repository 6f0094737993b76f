/**
 * The first wizard step: who is being tested, under which case, by whom.
 * `handleNext` checks the three required fields in order and reports only
 * the first one that is blank; when all are filled in, the form itself
 * becomes the route parameters of the next step.
 */
module SubjectDetails {
  import opened Text
  import opened Ui

  const NextPath := "/test/test-information"

  datatype SubjectForm = SubjectForm(subjectId: string, caseNumber: string, officerName: string)

  /** The form as the screen opens it. */
  const InitialForm := SubjectForm("", "", "Officer Smith")

  /** The form passed as route parameters. */
  function AsParams(form: SubjectForm): (p: Params)
    ensures p.Keys == {"subjectId", "caseNumber", "officerName"}
    ensures p["subjectId"] == form.subjectId && p["caseNumber"] == form.caseNumber
    ensures p["officerName"] == form.officerName
  {
    map["subjectId" := form.subjectId, "caseNumber" := form.caseNumber, "officerName" := form.officerName]
  }

  /** `handleNext`. */
  function Next(form: SubjectForm): (o: Outcome)
    ensures IsBlank(form.subjectId) ==> o == Alert("Required Field", "Please enter Subject ID")
    ensures !IsBlank(form.subjectId) && IsBlank(form.caseNumber) ==>
              o == Alert("Required Field", "Please enter Case Number")
    ensures !IsBlank(form.subjectId) && !IsBlank(form.caseNumber) && IsBlank(form.officerName) ==>
              o == Alert("Required Field", "Please enter Officer Name")
    ensures o.Navigate? <==> !IsBlank(form.subjectId) && !IsBlank(form.caseNumber) && !IsBlank(form.officerName)
    ensures o.Navigate? ==> o == Navigate(NextPath, AsParams(form))
  {
    if Missing(form.subjectId) then Alert("Required Field", "Please enter Subject ID")
    else if Missing(form.caseNumber) then Alert("Required Field", "Please enter Case Number")
    else if Missing(form.officerName) then Alert("Required Field", "Please enter Officer Name")
    else Navigate(NextPath, AsParams(form))
  }

  /** The form as opened cannot go forward: it stops at the subject ID. */
  lemma InitialFormStopsAtSubjectId()
    ensures Next(InitialForm) == Alert("Required Field", "Please enter Subject ID")
    ensures !IsBlank(InitialForm.officerName)
  {
    assert InitialForm.officerName[0] == 'O';
  }

  /** A field that is empty or made only of spaces, tabs or line breaks counts as not filled in, whatever else the form holds. */
  lemma WhitespaceOnlyIsMissing(form: SubjectForm, ws: string)
    requires IsBlank(ws)
    ensures Next(form.(subjectId := ws)).Alert?
    ensures Next(form.(caseNumber := ws)).Alert?
    ensures Next(form.(officerName := ws)).Alert?
  {
  }

  /** The state of the subject-details screen. */
  class SubjectDetailsScreen {
    var form: SubjectForm

    constructor()
      ensures form == InitialForm
    {
      form := InitialForm;
    }

    /** The Subject ID input's `onChangeText`. */
    method SetSubjectId(text: string)
      modifies this
      ensures form == old(form).(subjectId := text)
    {
      form := form.(subjectId := text);
    }

    /** The Case Number input's `onChangeText`. */
    method SetCaseNumber(text: string)
      modifies this
      ensures form == old(form).(caseNumber := text)
    {
      form := form.(caseNumber := text);
    }

    /** The Officer Name input's `onChangeText`. */
    method SetOfficerName(text: string)
      modifies this
      ensures form == old(form).(officerName := text)
    {
      form := form.(officerName := text);
    }
  }
}
