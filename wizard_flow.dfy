/**
 * The wizard end to end: the parameters that the four steps accumulate, and
 * the record the results screen builds from them.
 */
module WizardFlow {
  import opened Wrappers
  import opened Text
  import opened Ui
  import Storage
  import SubjectDetails
  import TestInformation
  import IdVerification
  import TestScan
  import TestResults

  /** The route parameters that reach the results screen after the four steps. */
  function Accumulated(sf: SubjectDetails.SubjectForm, inf: TestInformation.InfoForm,
                       subjectPhoto: string, idPhoto: string, testStripPhoto: string): Params
  {
    var p1 := SubjectDetails.AsParams(sf);
    var p2 := TestInformation.Merged(p1, inf);
    var p3 := IdVerification.Merged(p2, subjectPhoto, idPhoto);
    TestScan.Merged(p3, testStripPhoto)
  }

  /** Every field the results screen reads reaches it with the value the officer entered in the step that owns it. */
  lemma AccumulatedCarriesFields(sf: SubjectDetails.SubjectForm, inf: TestInformation.InfoForm,
                                 subjectPhoto: string, idPhoto: string, testStripPhoto: string)
    ensures var p := Accumulated(sf, inf, subjectPhoto, idPhoto, testStripPhoto);
      && "subjectId" in p && p["subjectId"] == sf.subjectId
      && "caseNumber" in p && p["caseNumber"] == sf.caseNumber
      && "testId" in p && p["testId"] == inf.testId
      && "lotNumber" in p && p["lotNumber"] == inf.lotNumber
      && "testType" in p && p["testType"] == inf.testType
      && "sampleType" in p && p["sampleType"] == inf.sampleType
      && "expirationDate" in p && p["expirationDate"] == inf.expirationDate.iso
      && "notes" in p && p["notes"] == inf.notes
      && "subjectPhoto" in p && p["subjectPhoto"] == subjectPhoto
      && "idPhoto" in p && p["idPhoto"] == idPhoto
      && "testStripPhoto" in p && p["testStripPhoto"] == testStripPhoto
  {
    var p2 := TestInformation.Merged(SubjectDetails.AsParams(sf), inf);
    InformationStepCarriesFields(sf, inf);
    var p3 := IdVerification.Merged(p2, subjectPhoto, idPhoto);
    var p := TestScan.Merged(p3, testStripPhoto);
    assert p == Accumulated(sf, inf, subjectPhoto, idPhoto, testStripPhoto);
    assert p["subjectId"] == p3["subjectId"] == p2["subjectId"];
    assert p["caseNumber"] == p3["caseNumber"] == p2["caseNumber"];
    assert p["testId"] == p3["testId"] == p2["testId"];
    assert p["lotNumber"] == p3["lotNumber"] == p2["lotNumber"];
    assert p["testType"] == p3["testType"] == p2["testType"];
    assert p["sampleType"] == p3["sampleType"] == p2["sampleType"];
    assert p["expirationDate"] == p3["expirationDate"] == p2["expirationDate"];
    assert p["notes"] == p3["notes"] == p2["notes"];
    assert p["subjectPhoto"] == p3["subjectPhoto"];
    assert p["idPhoto"] == p3["idPhoto"];
  }

  /** The second step's merge keeps the subject fields of the first step. */
  lemma InformationStepCarriesFields(sf: SubjectDetails.SubjectForm, inf: TestInformation.InfoForm)
    ensures var p2 := TestInformation.Merged(SubjectDetails.AsParams(sf), inf);
      && p2["subjectId"] == sf.subjectId && p2["caseNumber"] == sf.caseNumber
  {
    var p1 := SubjectDetails.AsParams(sf);
    assert "subjectId" in p1 && "subjectId" !in TestInformation.FormKeys;
    assert "caseNumber" in p1 && "caseNumber" !in TestInformation.FormKeys;
  }

  /** When every step accepts its input, each one navigates on with the parameters accumulated so far. */
  lemma CompletedWizardNavigates(
    sf: SubjectDetails.SubjectForm, inf: TestInformation.InfoForm,
    subjectPhoto: Option<string>, idPhoto: Option<string>, testStripPhoto: Option<string>)
    requires !IsBlank(sf.subjectId) && !IsBlank(sf.caseNumber) && !IsBlank(sf.officerName)
    requires !IsBlank(inf.testId) && !IsBlank(inf.lotNumber)
    requires Present(subjectPhoto) && Present(idPhoto) && Present(testStripPhoto)
    ensures var p1 := SubjectDetails.AsParams(sf);
      var p2 := TestInformation.Merged(p1, inf);
      var p3 := IdVerification.Merged(p2, subjectPhoto.value, idPhoto.value);
      && SubjectDetails.Next(sf) == Navigate(SubjectDetails.NextPath, p1)
      && TestInformation.Next(p1, inf) == Navigate(TestInformation.NextPath, p2)
      && IdVerification.Next(p2, subjectPhoto, idPhoto) == Navigate(IdVerification.NextPath, p3)
      && TestScan.Next(p3, testStripPhoto)
         == Navigate(TestScan.NextPath, Accumulated(sf, inf, subjectPhoto.value, idPhoto.value, testStripPhoto.value))
  {
  }

  /**
   * When every step accepts its input, the saved record carries what the
   * officer entered, except the officer name, which it has no field for
   * (`TestResults.OfficerNameNotStored`): the typed test ID (never the clock fallback), the
   * subject and kit details, the notes and the three photos, marked as saved
   * locally and not transmitted.
   */
  lemma CompletedWizardFillsRecord(
    sf: SubjectDetails.SubjectForm, inf: TestInformation.InfoForm,
    subjectPhoto: Option<string>, idPhoto: Option<string>, testStripPhoto: Option<string>,
    nowMillis: string, isoNow: string)
    requires !IsBlank(sf.subjectId) && !IsBlank(sf.caseNumber) && !IsBlank(sf.officerName)
    requires !IsBlank(inf.testId) && !IsBlank(inf.lotNumber)
    requires Present(subjectPhoto) && Present(idPhoto) && Present(testStripPhoto)
    ensures
      TestResults.BuildRecord(
        Accumulated(sf, inf, subjectPhoto.value, idPhoto.value, testStripPhoto.value), nowMillis, isoNow)
      == Storage.TestData(
           inf.testId,
           isoNow,
           Storage.SubjectDetails(sf.subjectId, sf.caseNumber),
           Storage.TestInfo(inf.lotNumber, inf.testType, inf.sampleType, inf.expirationDate.iso, Some(inf.notes)),
           TestResults.PlaceholderResults(),
           Storage.Images(subjectPhoto.value, idPhoto.value, testStripPhoto.value),
           Storage.SyncStatus(true, false))
  {
    AccumulatedCarriesFields(sf, inf, subjectPhoto.value, idPhoto.value, testStripPhoto.value);
    assert inf.testId != "";
  }
}
