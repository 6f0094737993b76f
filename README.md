# MARS test-record store and wizard steps, in Dafny

This project models the field drug-testing app MARS. It covers the on-device
test-record store and the wizard steps that feed it.

The store keeps every completed test as one `TestData` record. All records
live in a single persisted slot under the key `@mars2_tests`. Each store
operation reads the whole collection, transforms it in memory and writes the
whole collection back. The operations are: append (`saveTest`), list
(`getTests`), first-match lookup (`getTestById`), sync-status update
(`updateTestSyncStatus`), filter-delete (`deleteTest`) and key removal
(`clearAllTests`). Reads fail open: a missing key, a blob that does not parse
and a rejected read all give the empty collection. Writes that fail are
rethrown, and the slot stays as it was.

In the model:

- The slot is a field of class `Storage.TestStore`. It holds
  `Absent | Holds(seq<TestData>) | Unreadable`, where `Unreadable` stands for
  a blob that `JSON.parse` rejects.
- Whether the device read or write rejects during a call is an input
  (`Storage.Env`).
- The collection transforms are pure functions with lemmas.
- `Storage.After` gives the slot after each operation, and the class methods
  are proved against it.

The results screen does not call `saveTest`. Its `handleContinue` does its own
read, `push` and write on the same key (`TestResults.HandleContinue`). Unlike
`saveTest`, it writes nothing when the blob does not parse, and it navigates to
the confirmation screen whatever happens. `TestResults.SavePathsDivergeWhenUnreadable`
compares the two paths: where the inline path keeps an unreadable collection,
`saveTest` replaces it with the single new record.

There are four wizard steps: subject details, test information, ID photos and
strip scan. Each step's `handleNext` is a pure function `Next` that returns an
`Ui.Outcome`: either the first failing required-field alert, or navigation
with the previous route parameters merged with this step's data. Blank means
empty or whitespace-only, following JavaScript's `trim`. Each screen's
`useState` state is a class, and its setters are methods that change one
field. `WizardFlow.CompletedWizardFillsRecord` chains the four steps. It
proves that the record the results screen builds carries the test ID, subject,
kit details, notes and photos the officer entered. The officer name is
required by the first step and carried through every later one, but a
`TestData` record has no field for it, so it never reaches storage
(`TestResults.OfficerNameNotStored`).

Two behaviours of the store are easy to miss:

- `saveTest` reads through `getTests`, which swallows every read failure. A
  save over an unparsable blob, or while the read rejects, therefore keeps
  only the new record (`Storage.SaveOverUnreadableKeepsOnlyNewRecord`). An
  update or a delete in the same situation writes back the empty collection
  (`Storage.RewriteOverUnreadableErases`).
- Test ids are not unique. Nothing stops a second record with an existing id
  from being saved, and lookup returns the first match
  (`Storage.DuplicateIdShadowed`).

## Model

| member | source | states |
|---|---|---|
| `Text.TrimStart` | mars/app/test/subject-details.tsx:26 | the leading-whitespace removal of `trim`: the result is a suffix of the input, everything dropped is whitespace, and the result does not start with whitespace |
| `Text.TrimEnd` | mars/app/test/subject-details.tsx:26 | the trailing half of `trim`: the result is a prefix, everything dropped is whitespace, and the result does not end with whitespace |
| `Text.Missing` | mars/app/test/subject-details.tsx:26 | the required-field test `!s.trim()` holds exactly when every character of `s` is whitespace, the empty string included |
| `Text.Trim` | mars/app/test/subject-details.tsx:26 | `s.trim()` is empty exactly when `s` is empty or whitespace-only; otherwise it neither starts nor ends with whitespace |
| `Storage.Written` | mars/utils/storage.ts:43 | `AsyncStorage.setItem`: the slot holds the collection written, or stays as it was when the write rejects |
| `Storage.LoadTests` | mars/utils/storage.ts:50-58 | `getTests` never produces a record that is not stored: the result is non-empty only if the read succeeded and the slot holds that collection; a readable slot is returned whole |
| `Storage.FindById` | mars/utils/storage.ts:60-63 | no result exactly when no record carries the id; otherwise the result is the record at the first index carrying the id |
| `Storage.Occurrences` | mars/utils/storage.ts:89 | the number of records the delete filter removes is zero exactly when no record carries the id |
| `Storage.WithSyncStatus` | mars/utils/storage.ts:76-78 | the map keeps length and order, replaces only the sync status of each matching record, and leaves every other record as it was |
| `Storage.WithoutId` | mars/utils/storage.ts:89 | the filter leaves no record carrying the id, and the length drops by the number of matches |
| `Storage.After` | mars/utils/storage.ts:39-103 | a rejected write leaves the slot unchanged; a successful one leaves it absent exactly for `clearAllTests` and never unreadable |
| `Storage.TestStore.GetTests` | mars/utils/storage.ts:50-58 | returns the stored collection when the slot is readable and the read succeeds, and `[]` in every other case, without rejecting |
| `Storage.TestStore.SaveTest` | mars/utils/storage.ts:39-48 | the new slot holds what `getTests` returned with the record appended; rejects exactly when the write fails, leaving the slot unchanged |
| `Storage.TestStore.GetTestById` | mars/utils/storage.ts:60-68 | returns the first stored record with the id, which is in the collection and carries that id, or null |
| `Storage.TestStore.UpdateTestSyncStatus` | mars/utils/storage.ts:70-84 | writes back the collection read with matching sync statuses replaced, even when nothing matched; a failed write rejects and changes nothing |
| `Storage.TestStore.DeleteTest` | mars/utils/storage.ts:86-95 | writes back the records not carrying the id; a failed write rejects and changes nothing |
| `Storage.TestStore.ClearAllTests` | mars/utils/storage.ts:97-104 | removes the key; a failed removal rejects and changes nothing |
| `Storage.SaveAppends` | mars/utils/storage.ts:39-43 | on a readable collection, a save keeps the old records as a prefix in order and puts the new record last |
| `Storage.SaveOverUnreadableKeepsOnlyNewRecord` | mars/utils/storage.ts:39-57 | because `getTests` fails open, saving over an unparsable blob, or while the read rejects, leaves a collection of only the new record |
| `Storage.RewriteOverUnreadableErases` | mars/utils/storage.ts:50-57 | an update or a delete over an unparsable blob, or while the read rejects, writes back the empty collection, erasing the blob |
| `Storage.ClearThenEmpty` | mars/utils/storage.ts:97-99 | after a successful clear, `getTests` returns `[]` |
| `Storage.FindByIdPrefix` | mars/utils/storage.ts:63 | records after the first match never change what the lookup returns |
| `Storage.FindByIdSkips` | mars/utils/storage.ts:63 | a prefix without matches is skipped by the lookup |
| `Storage.SaveThenFind` | mars/utils/storage.ts:39-63 | a record saved under an id not yet present is then found by that id |
| `Storage.DuplicateIdShadowed` | mars/utils/storage.ts:39-63 | ids are not unique: saving a record whose id is already stored does not change what the lookup returns for that id |
| `Storage.UpdateThenFind` | mars/utils/storage.ts:70-79 | after the update, the lookup finds the record it found before, with only the sync status replaced, or still nothing |
| `Storage.UpdateWithoutMatchIsIdentity` | mars/utils/storage.ts:76-79 | when no record matches, the collection written back equals the one read |
| `Storage.UpdateChangesOnlySyncStatus` | mars/utils/storage.ts:76-78 | each updated record differs from the original at most in its sync status |
| `Storage.DeleteThenNotFound` | mars/utils/storage.ts:60-90 | after deleting an id, looking it up finds nothing |
| `Storage.WithoutIdDistributes` | mars/utils/storage.ts:89 | the filter distributes over concatenation, so the kept records keep their original order |
| `Storage.WithoutIdConcatStep` | mars/utils/storage.ts:89 | the inductive step of the distribution over concatenation |
| `Storage.WithoutIdKeepsExactly` | mars/utils/storage.ts:89 | every record not carrying the id is kept as many times as it occurs, and no other record is kept |
| `Storage.WithoutIdIdempotent` | mars/utils/storage.ts:89 | deleting the same id twice equals deleting it once |
| `Storage.ReplayConcat` | mars/utils/storage.ts:39-104 | the operations run strictly one after another, each on the previous result, so a trace can be split at any point |
| `Storage.SavesSinceClear` | mars/utils/storage.ts:39-48 | when every call after a successful `clearAllTests` is a save whose read succeeds, the collection is exactly the records of the successful saves since that clear, in call order, and its length is their number |
| `Storage.ReplaySaves` | mars/utils/storage.ts:39-58 | while reads succeed, a run of saves appends exactly the records of the successful saves, in call order, so the length grows by their number |
| `Storage.SaveUpdateFind` | mars/utils/storage.ts:39-84 | a record saved under a fresh id and then updated is found again with only its sync status changed |
| `Ui.Param` | mars/app/test/test-results.tsx:24-44 | a route parameter reads as its value when present and as "" when absent; a non-empty reading means the parameter is present |
| `Ui.Present` | mars/app/test/id-verification.tsx:18-22 | JavaScript truthiness of a photo that is a string or null: true exactly when a photo is set and non-empty, so neither null nor "" passes |
| `TestResults.PlaceholderResults` | mars/app/test/test-results.tsx:11-21 | the hardcoded results are POSITIVE with five substances; every confidence is within 0..100; the status is POSITIVE exactly when some substance reads POSITIVE |
| `TestResults.BuildRecord` | mars/app/test/test-results.tsx:24-48 | the record's id is the route `testId` when non-empty, otherwise the time-derived string, and is therefore never empty; its timestamp is the current ISO time; its sync status is saved locally and not transmitted; its results are the placeholder results; notes exist exactly when the route carries them |
| `TestResults.OfficerNameNotStored` | mars/app/test/test-results.tsx:24-48 | the record built does not depend on the officer name: removing it from the route parameters gives the same record |
| `TestResults.InlineAppend` | mars/app/test/test-results.tsx:50-59 | an absent key becomes `[record]`; a readable collection gets the record appended; a rejected read, an unparsable blob or a rejected write leaves the slot unchanged |
| `TestResults.HandleContinue` | mars/app/test/test-results.tsx:23-68 | saves inline as above, reports success exactly when read, parse and write all succeed, and always navigates to the confirmation screen with the record's id and the results' status |
| `TestResults.InlineSaveAgreesWithSaveTest` | mars/app/test/test-results.tsx:51-55 | when the blob is readable and the read succeeds, the inline save and `saveTest` leave the same slot |
| `TestResults.SavePathsDivergeWhenUnreadable` | mars/app/test/test-results.tsx:51-59 | on an unparsable blob or a rejected read, the inline save keeps the old slot while `saveTest` replaces it by `[record]` |
| `TestResults.InlineSaveThenFind` | mars/app/test/test-results.tsx:51-55 | after a successful inline save under a fresh id, `getTestById` finds the new record |
| `SubjectDetails.AsParams` | mars/app/test/subject-details.tsx:39-42 | the route parameters are exactly the three form fields |
| `SubjectDetails.Next` | mars/app/test/subject-details.tsx:25-43 | checks subject ID, then case number, then officer name, and reports only the first blank one with its own message; navigates to test information, with the form as parameters, exactly when none is blank |
| `SubjectDetails.InitialFormStopsAtSubjectId` | mars/app/test/subject-details.tsx:19-29 | the form as opened, with officer name "Officer Smith", is refused at the subject ID |
| `SubjectDetails.WhitespaceOnlyIsMissing` | mars/app/test/subject-details.tsx:26-36 | a whitespace-only value in any of the three fields blocks the step |
| `SubjectDetails.SubjectDetailsScreen.constructor` | mars/app/test/subject-details.tsx:19-23 | the screen opens with the initial form |
| `SubjectDetails.SubjectDetailsScreen.SetSubjectId` | mars/app/test/subject-details.tsx:72 | changes only the subject ID |
| `SubjectDetails.SubjectDetailsScreen.SetCaseNumber` | mars/app/test/subject-details.tsx:83-85 | changes only the case number |
| `SubjectDetails.SubjectDetailsScreen.SetOfficerName` | mars/app/test/subject-details.tsx:96-98 | changes only the officer name |
| `TestInformation.InitialForm` | mars/app/test/test-information.tsx:21-28 | the form opens with empty test ID, lot number and notes, the first panel "5-panel", the first sample "saliva" and today as expiration date |
| `TestInformation.Merged` | mars/app/test/test-information.tsx:47-51 | the merged parameters hold every previous key and the six form keys; a clash is won by the form; the expiration date is its ISO text |
| `TestInformation.Next` | mars/app/test/test-information.tsx:35-57 | a blank test ID is reported first, then a blank lot number; navigates to ID verification with the merged parameters exactly when both are filled in |
| `TestInformation.OnlyIdAndLotGate` | mars/app/test/test-information.tsx:35-45 | panel, sample type, date and notes never change whether the step proceeds or which alert it shows |
| `TestInformation.InitialFormStopsAtTestId` | mars/app/test/test-information.tsx:21-40 | the form as opened is refused at the test ID |
| `TestInformation.TestInformationScreen.constructor` | mars/app/test/test-information.tsx:21-30 | the screen opens with the initial form and the date picker closed |
| `TestInformation.TestInformationScreen.SetTestId` | mars/app/test/test-information.tsx:91 | changes only the test ID |
| `TestInformation.TestInformationScreen.SetLotNumber` | mars/app/test/test-information.tsx:102 | changes only the lot number |
| `TestInformation.TestInformationScreen.SetNotes` | mars/app/test/test-information.tsx:193 | changes only the notes |
| `TestInformation.TestInformationScreen.SelectTestType` | mars/app/test/test-information.tsx:115-122 | sets the panel to one of the offered values, changing nothing else |
| `TestInformation.TestInformationScreen.SelectSampleType` | mars/app/test/test-information.tsx:142-149 | sets the sample type to one of the offered values, changing nothing else |
| `TestInformation.TestInformationScreen.OpenDatePicker` | mars/app/test/test-information.tsx:170 | opens the date picker and leaves the form unchanged |
| `TestInformation.TestInformationScreen.OnDateChange` | mars/app/test/test-information.tsx:70-75 | keeps the picker open only on iOS; replaces the expiration date only when a date was picked, and changes no other field |
| `IdVerification.Merged` | mars/app/test/id-verification.tsx:28-32 | the previous parameters plus both photo references, every other key unchanged |
| `IdVerification.Next` | mars/app/test/id-verification.tsx:17-38 | a missing subject photo is reported before a missing ID photo; navigates to the test scan exactly when both are present |
| `IdVerification.IdVerificationScreen.constructor` | mars/app/test/id-verification.tsx:12-15 | the screen opens with no photos |
| `IdVerification.IdVerificationScreen.CaptureSubjectPhoto` | mars/components/CameraCapture.tsx:30-50 | only a photo actually taken replaces the subject photo; the ID photo is untouched |
| `IdVerification.IdVerificationScreen.CaptureIdPhoto` | mars/components/CameraCapture.tsx:30-50 | only a photo actually taken replaces the ID photo; the subject photo is untouched |
| `IdVerification.IdVerificationScreen.NextDisabled` | mars/app/test/id-verification.tsx:89 | the Next button is disabled exactly when `handleNext` would refuse |
| `TestScan.Merged` | mars/app/test/test-scan.tsx:66-69 | the previous parameters plus the strip photo reference, every other key unchanged |
| `TestScan.Next` | mars/app/test/test-scan.tsx:58-75 | without a strip photo it alerts "Please scan the test strip"; navigates to the results exactly when the photo is present |
| `TestScan.TestScanScreen.constructor` | mars/app/test/test-scan.tsx:16-17 | the screen opens with no strip photo |
| `TestScan.TestScanScreen.TakePhoto` | mars/app/test/test-scan.tsx:19-39 | only a photo actually taken replaces the strip photo; a denied or cancelled camera leaves it unchanged |
| `TestScan.TestScanScreen.RetakePhoto` | mars/app/test/test-scan.tsx:41-56 | a confirmed retake clears the photo before the camera opens, so a cancelled retake leaves no photo; an unconfirmed one changes nothing |
| `TestScan.TestScanScreen.AnalyzeDisabled` | mars/app/test/test-scan.tsx:140 | the Analyze button is disabled exactly when `handleNext` would refuse |
| `WizardFlow.AccumulatedCarriesFields` | mars/app/test/test-scan.tsx:66-69 | after the four merges (subject-details.tsx:39-42, test-information.tsx:47-51, id-verification.tsx:28-32 and test-scan.tsx:66-69), every field the results screen reads is present with the value entered in the step that owns it; later steps never overwrite earlier fields |
| `WizardFlow.CompletedWizardNavigates` | mars/app/test/subject-details.tsx:39-42 | chaining the four `handleNext` steps (subject-details.tsx:39-42, test-information.tsx:47-51, id-verification.tsx:28-32 and test-scan.tsx:66-69): when every step's required fields are filled in, each step navigates on with the parameters accumulated so far |
| `WizardFlow.CompletedWizardFillsRecord` | mars/app/test/test-results.tsx:24-48 | when every step accepts, the saved record carries the typed test ID (never the clock fallback), the subject and kit details, the notes and the three photos |

## Left out

- JSON encoding. `JSON.stringify` and `JSON.parse` belong to a foreign library, so the slot holds the collection as values, and `Unreadable` stands for any blob that does not parse. Two things follow. The serialise/parse round trip is not modelled. Nor is JSON that parses to something other than an array, such as `null`.
- Concurrency. Each store operation is atomic and sequential, so the lost-update race between two read-modify-write calls is not modelled.
- Clock values. `Date.now()`, `new Date()`, `toISOString()` and `toLocaleDateString()` are inputs. A `TestInformation.Date` is known only by its ISO text.
- The camera. The permission prompt and `ImagePicker` are device I/O, so a capture is an input `Ui.CameraResult` and photos are opaque strings. The picker's `minimumDate` limit, which stops expiration dates before today, is a UI constraint and is not modelled.
- Navigation, alerts and logging. `router.push` and the required-field `Alert.alert` calls of each `handleNext` become the returned `Ui.Outcome`. The camera-permission alerts (mars/app/test/test-scan.tsx:22-27, mars/components/CameraCapture.tsx:33-38) are dropped: the capture methods only leave the photo unchanged, and the retake confirmation dialog is the input `confirmed`. The `console` lines of `handleContinue` become its `saved` result; all other logging is dropped. Each screen's `handleCancel` only shows a confirmation dialog and navigates away, so it is not modelled.
- Fractional numbers. The confidence figures of `Storage.Substance` and `Storage.Results` are JavaScript numbers in the app but integers here, so non-integer percentages are not modelled; the app only ever stores the integer placeholder values.
- Rejection values. A rejected write is `Completion.Rejected`, and the error object it carries is not modelled.
- `TestResults.BuildRecord`: a route parameter that is absent is read as "", while the app would store the record without that field. `WizardFlow.CompletedWizardFillsRecord` shows that the wizard always supplies every field. Route parameters given as string arrays are not modelled.
- Presentation. Rendering, styles, the components folder (except the capture rule of `CameraCapture.tsx`), the settings screens, the home list, `view-test.tsx` and `confirmation.tsx` have no behaviour to state.
