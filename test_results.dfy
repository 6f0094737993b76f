/**
 * The results screen: the placeholder analysis shown to the officer, the
 * record built from the wizard's accumulated parameters, and the save that
 * `handleContinue` performs with its own read, push and write on the
 * `@mars2_tests` slot rather than through `saveTest`.
 */
module TestResults {
  import opened Wrappers
  import opened Ui
  import opened Storage

  const ConfirmationPath := "/test/confirmation"

  /** Every confidence figure of `r` is a percentage. */
  predicate ConfidencesInRange(r: Results) {
    && 0 <= r.overallConfidence <= 100
    && forall i :: 0 <= i < |r.detectedSubstances| ==> 0 <= r.detectedSubstances[i].confidence <= 100
  }

  /** Some substance panel reads positive. */
  predicate AnyPositive(r: Results) {
    exists i :: 0 <= i < |r.detectedSubstances| && r.detectedSubstances[i].result == "POSITIVE"
  }

  /** The hardcoded `results` constant: a five-panel positive reading. */
  function PlaceholderResults(): (r: Results)
    ensures r.status == "POSITIVE" && |r.detectedSubstances| == 5
    ensures ConfidencesInRange(r)
    ensures r.status == "POSITIVE" <==> AnyPositive(r)
  {
    var r := Results(
      "POSITIVE",
      [ Substance("THC (Marijuana)", "POSITIVE", 95),
        Substance("Cocaine", "NEGATIVE", 98),
        Substance("Opiates", "NEGATIVE", 97),
        Substance("Amphetamines", "NEGATIVE", 96),
        Substance("Methamphetamine", "NEGATIVE", 98) ],
      96);
    assert r.detectedSubstances[0].result == "POSITIVE";
    r
  }

  /**
   * `finalTestData`: the record built from the route parameters. `nowMillis`
   * is `Date.now().toString()` and `isoNow` is `new Date().toISOString()`.
   */
  function BuildRecord(params: Params, nowMillis: string, isoNow: string): (r: TestData)
    ensures Param(params, "testId") != "" ==> r.testId == params["testId"]
    ensures Param(params, "testId") == "" ==> r.testId == nowMillis
    ensures nowMillis != "" ==> r.testId != ""
    ensures r.timestamp == isoNow
    ensures r.syncStatus == SyncStatus(true, false)
    ensures r.results == PlaceholderResults()
    ensures r.testInfo.notes.Some? <==> "notes" in params
  {
    TestData(
      testId := if Param(params, "testId") != "" then Param(params, "testId") else nowMillis,
      timestamp := isoNow,
      subjectDetails := SubjectDetails(Param(params, "subjectId"), Param(params, "caseNumber")),
      testInfo := TestInfo(
        Param(params, "lotNumber"),
        Param(params, "testType"),
        Param(params, "sampleType"),
        Param(params, "expirationDate"),
        if "notes" in params then Some(params["notes"]) else None),
      results := PlaceholderResults(),
      images := Images(Param(params, "subjectPhoto"), Param(params, "idPhoto"), Param(params, "testStripPhoto")),
      syncStatus := SyncStatus(true, false))
  }

  /**
   * The officer name is required by the first step and carried forward by
   * every later one, but the record has no field for it: it never reaches
   * storage.
   */
  lemma OfficerNameNotStored(params: Params, nowMillis: string, isoNow: string)
    ensures BuildRecord(params, nowMillis, isoNow) == BuildRecord(params - {"officerName"}, nowMillis, isoNow)
  {
    assert forall k :: k != "officerName" ==> Param(params, k) == Param(params - {"officerName"}, k);
  }

  /**
   * The slot after the inline save: an absent key starts a new collection, a
   * readable one gets `r` pushed on its end; a rejected read, a blob that does
   * not parse or a rejected write is caught and nothing is written.
   */
  function InlineAppend(slot: Slot, r: TestData, env: Env): (s': Slot)
    ensures env.readFails || env.writeFails || slot.Unreadable? ==> s' == slot
    ensures !env.readFails && !env.writeFails && slot.Absent? ==> s' == Holds([r])
    ensures !env.readFails && !env.writeFails && slot.Holds? ==> s' == Holds(slot.tests + [r])
  {
    if env.readFails || env.writeFails then slot
    else match slot
      case Absent => Holds([r])
      case Holds(tests) => Holds(tests + [r])
      case Unreadable => slot
  }

  /**
   * `handleContinue`: builds the record, saves it inline (any failure is
   * only logged), then goes to the confirmation screen in every case.
   * `saved` is which of the two log lines is written.
   */
  method HandleContinue(store: TestStore, params: Params, nowMillis: string, isoNow: string, env: Env)
    returns (nav: Outcome, saved: bool)
    modifies store
    ensures var record := BuildRecord(params, nowMillis, isoNow);
      && store.slot == InlineAppend(old(store.slot), record, env)
      && nav == Navigate(ConfirmationPath, map["testId" := record.testId, "status" := PlaceholderResults().status])
    ensures saved <==> !env.readFails && !old(store.slot).Unreadable? && !env.writeFails
    ensures !saved ==> store.slot == old(store.slot)
  {
    var results := PlaceholderResults();
    var record := BuildRecord(params, nowMillis, isoNow);
    saved := false;
    // try: getItem, JSON.parse, push, setItem; the catch only logs
    if !env.readFails {
      var existing := store.slot;
      if !existing.Unreadable? {
        var tests := if existing.Holds? then existing.tests else [];
        tests := tests + [record];
        if !env.writeFails {
          store.slot := Holds(tests);
          saved := true;
        }
      }
    }
    nav := Navigate(ConfirmationPath, map["testId" := record.testId, "status" := results.status]);
  }

  /** On a readable slot and a successful read, the inline save and `saveTest` leave the same slot. */
  lemma InlineSaveAgreesWithSaveTest(slot: Slot, r: TestData, env: Env)
    requires !slot.Unreadable? && !env.readFails
    ensures InlineAppend(slot, r, env) == After(slot, Save(r), env)
  {
  }

  /**
   * The two save paths part ways when the read cannot be used: `saveTest`
   * replaces the stored collection by `[r]`, the inline save keeps it.
   */
  lemma SavePathsDivergeWhenUnreadable(slot: Slot, r: TestData, env: Env)
    requires slot.Unreadable? || env.readFails
    requires !env.writeFails
    ensures InlineAppend(slot, r, env) == slot
    ensures After(slot, Save(r), env) == Holds([r])
    ensures After(slot, Save(r), env) != InlineAppend(slot, r, env) <==> slot != Holds([r])
  {
  }

  /** After a successful inline save, `getTestById` on the new id finds the new record, provided the id was not taken. */
  lemma InlineSaveThenFind(slot: Slot, r: TestData, env: Env, readEnv: Env)
    requires !slot.Unreadable? && !env.readFails && !env.writeFails && !readEnv.readFails
    requires FindById(LoadTests(slot, readEnv), r.testId).None?
    ensures FindById(LoadTests(InlineAppend(slot, r, env), readEnv), r.testId) == Some(r)
  {
    InlineSaveAgreesWithSaveTest(slot, r, env);
    assert LoadTests(slot, env) == LoadTests(slot, readEnv);
    SaveThenFind(LoadTests(slot, readEnv), r);
  }
}
