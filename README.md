# Verified model of the onboarding wizard

This project models the stateful core of a small onboarding front end for a business-onboarding service. Users go through four steps:

1. contact person;
2. company details;
3. directors;
4. AML/CFT compliance.

After that they upload documents. The project models the following pieces and proves properties about them.

- **The wizard step machine** (`wizard.dfy`, `wizard_page.dfy`).
  - The state is the current step, the per-step payloads, the completed-steps set, the account data and the company id.
  - Each press of Next commits the current step through the gateway.
  - The handlers are Back, the step-indicator jump and a form change.
  - Five local-storage slots are loaded on mount and saved when they change.
  - The reference-data lookups assemble an error banner.
  - `Wizard` holds the state as a value with one function per handler. `WizardPage.OnboardingWizard` is a class whose methods mirror the page's handlers, `handleNext`'s director loop included. Each method is proved equal to its function.
- **The gateway's data rules** (`api.dfy`):
  - how a response `(ok, status, body)` becomes a value or an error;
  - how the error message is chosen;
  - envelope unwrapping;
  - the request bodies built from the step payloads.
- **The form components:**
  - contact person (`contact_person_form.dfy`), including its E.164 phone pattern;
  - company (`company_details_form.dfy`), including the linked-field sync and the reference selects;
  - directors (`director_details_form.dfy`);
  - AML (`aml_compliance_form.dfy`);
  - acknowledgment (`acknowledgement_form.dfy`);
  - industry verticals (`industry_verticals_form.dfy`).

  Each form merges defaults with the saved payload, changes one field at a time, and reports to its parent when its state differs from the payload. Each has a small class holding the component state.
- **The document flow:**
  - the upload control's type and size gate, and its upload sequence (`document_upload.dfy`);
  - the documents page's table, entry map, progress counter and required check (`documents_page.dfy`);
  - the status badge table (`document_status.dfy`).

## How the model is built

- **JavaScript objects.**
  - An object whose keys may be missing is a record of `Option` fields. `None` is a key that is absent or `undefined`, which `JSON.stringify` drops.
  - `{...defaults, ...data}` takes each field from `data` when present.
  - The `JSON.stringify(a) !== JSON.stringify(b)` change tests are structural inequality.
  - Truthiness, `||` and `obj.key` are written out (`Api.Truthy`, `Option.Or`, `Api.Property`).
- **The server** is an oracle `Server = (nat, Call) -> Result<Json, Thrown>`. The `nat` is the position of the call within one press of Next, so each director in the loop can get its own answer. One HTTP exchange is an `Exchange`: either a response with `ok`, `status` and a body read as JSON (`None` when reading fails), or no response at all.
- **Local storage** is a record of the five slots, which is the same as a map over the five keys. A JSON slot holds either parsed text or text `JSON.parse` rejects (`Garbled`). The save effects write a slot only when its state changed during a render. At mount, the first render's effects write the defaults before the loaded state is rendered; `Mounted` captures this.
- **Clock readings and identifiers.** `Date.now()` and `new Date()` are method parameters. Alerts, redirects and the bodies sent are outputs of the methods.

## Where the code departs from its evident intent

The model follows the code in each of these cases.

- The four reference lookups are awaited one after another, not concurrently.
- A successful response is never treated as an error because of an `error` field in its envelope. Only a non-OK status raises.
- "Start Over" removes the storage keys only. The in-memory state stays, and the next render's save effects write back only the slots whose state changes afterwards.
- `contact_person` in the company form.
  - It is never synced, because the wizard does not pass `accountUsername`.
  - The wizard overrides it with step 1's `full_name` when it builds the request.
- Documents page props.
  - The page does not pass `companyLegalName` to the upload control, so the multipart field `company` is the text "undefined".
  - The page always stores the status "pending", so badges only read "Pending" or "Not Uploaded".
- Director removal.
  - It does not always keep a director: when every entry has the removed id, the roster becomes empty (`RemoveCanEmptyRoster`).
  - Two directors get the same id when they are added within the same millisecond.
  - It never empties the roster while some entry has another id (`Removed`).
- Checking an already-checked industry appends a duplicate. Clicks through the page cannot do this, because a checked box reports "unchecked".
- The progress numerator is the number of keys held before the upload, plus one. After a re-upload it is one more than the documents held (`ReuploadOvercounts`). The optional licence counts too, so uploading all six rows gives 6 over the 5 required documents, which is 120 per cent (`AllRowsExceedRequired`).
- A null company response does not set an id. Reading `response.id` on null raises, and the user sees the "Failed to create company" alert.
- The acknowledgment and industry-verticals forms are not rendered by the wizard's four steps. They are modelled as components only.

## Model

| member | source | states |
|---|---|---|
| Api.Request | src/lib/api.ts:28-76 | no response rejects with the fetch error; a response resolves exactly when `ok` |
| Api.UnreadableBodyIsEmptyObject | src/lib/api.ts:51-56 | an unreadable body behaves exactly as `{}`: a failure reports the status text, a success returns `{}` |
| Api.ErrorFor | src/lib/api.ts:58-61 | the error reads a property of null exactly when the body is null; a status error carries the response status |
| Api.ServerMessageSurfaces | src/lib/api.ts:60 | a non-empty `message` or `error` in a failed response becomes the thrown message verbatim |
| Api.MessageBeatsError | src/lib/api.ts:60 | `message` takes precedence over `error` |
| Api.StatusMessageWhenNoText | src/lib/api.ts:60 | with neither text the message is "HTTP error! status: " and the status, and different statuses give different messages |
| Api.NatToString | src/lib/api.ts:60 | the decimal text of a number is digits with no leading zero |
| Api.NatToStringRoundTrip | src/lib/api.ts:60 | reading back the decimal text gives the number |
| Api.NatToStringInjective | src/lib/api.ts:60 | different numbers have different decimal texts |
| Api.EnvelopeRoundTrip | src/lib/api.ts:65-68 | a success envelope around a payload resolves to that payload |
| Api.NonEnvelopePassesThrough | src/lib/api.ts:70-71 | any other successful body is returned whole |
| Api.UploadDocument | src/lib/api.ts:249-275 | an unreadable body rejects; the upload succeeds exactly for an OK response with a readable body |
| Api.UploadSharesErrorRule | src/lib/api.ts:262-270 | a failed upload rejects exactly as `request` does; a successful one returns the body |
| Api.UploadDoesNotUnwrap | src/lib/api.ts:268-270 | an envelope is returned wrapped by the upload and unwrapped by `request` |
| Api.CompanyProjection | src/lib/api.ts:89-105 | the company body keeps all 15 fields and reads back as the payload minus `account`; `account` never influences it |
| Api.DirectorProjection | src/lib/api.ts:116-124 | the director body keeps everything but `id`, and `id` never influences it |
| Api.AmlProjection | src/lib/api.ts:135-144 | the AML body reads back as the payload, with `company_id` sent as `company` |
| Wizard.StepOf | src/app/onboarding/wizard/page.tsx:24-31 | every step payload belongs to one of the steps 1..4 |
| Wizard.Added | src/app/onboarding/wizard/page.tsx:226 | `new Set([...prev, x])` holds the old members and x, stays duplicate-free, and appends x when new |
| Wizard.Deduplicated | src/app/onboarding/wizard/page.tsx:94 | `new Set(saved)` has the same members as the saved array and no duplicates |
| Wizard.DeduplicatedKeepsDistinct | src/app/onboarding/wizard/page.tsx:94 | a duplicate-free saved array is restored as it is |
| Wizard.DeduplicatedIdempotent | src/app/onboarding/wizard/page.tsx:94 | building the set twice changes nothing |
| Wizard.InitialValid | src/app/onboarding/wizard/page.tsx:42-49 | the default state satisfies the wizard invariant |
| Wizard.CompletedIsPrefix | src/app/onboarding/wizard/page.tsx:214-288 | in a valid state the completed steps are exactly 1..m for some m ≤ 3 with m ≥ current step − 1 |
| Wizard.AdvancePreservesValid | src/app/onboarding/wizard/page.tsx:213-312 | Next keeps the invariant whatever the server answers |
| Wizard.PreviousPreservesValid | src/app/onboarding/wizard/page.tsx:316-320 | Back keeps the invariant |
| Wizard.JumpPreservesValid | src/app/onboarding/wizard/page.tsx:385 | a gated jump to an indicator 1..4 keeps the invariant |
| Wizard.FormChangePreservesValid | src/app/onboarding/wizard/page.tsx:322-327 | storing the current form's payload keeps the invariant |
| Wizard.ApplyPreservesValid | src/app/onboarding/wizard/page.tsx:213-337 | every event the page can produce keeps the invariant |
| Wizard.RunPreservesValid | src/app/onboarding/wizard/page.tsx:213-337 | any sequence of possible events keeps the invariant |
| Wizard.SessionStaysValid | src/app/onboarding/wizard/page.tsx:42-45 | from the default state, steps below the current one are completed, the step never exceeds 4 and 4 is never completed |
| Wizard.FailureChangesNothing | src/app/onboarding/wizard/page.tsx:216-311 | a press that alerts leaves the whole state unchanged and does not redirect |
| Wizard.CommitSucceeds | src/app/onboarding/wizard/page.tsx:216-288 | a successful commit of an uncompleted step k < 4 appends k to the completed steps and moves to k+1 |
| Wizard.CompletedStepMakesNoCall | src/app/onboarding/wizard/page.tsx:216-288 | at a completed step below 4, Next makes no call and only increments the step |
| Wizard.NoDoubleCommit | src/app/onboarding/wizard/page.tsx:216-288 | after a successful commit, going back and pressing Next again makes no call |
| Wizard.CompanyNeedsAccount | src/app/onboarding/wizard/page.tsx:239-242 | without truthy account data step 2 makes no call, alerts, and changes nothing |
| Wizard.CompanyCallBody | src/app/onboarding/wizard/page.tsx:243-252 | the one company call carries step 1's `full_name` as `contact_person`, `state` "PENDING", and the rest of the step 2 payload |
| Wizard.CompanyIdFromResponse | src/app/onboarding/wizard/page.tsx:252-255 | an object response completes step 2 and sets the company id to the response's `id` |
| Wizard.AllDirectorCalls | src/app/onboarding/wizard/page.tsx:269-277 | one director call per roster entry |
| Wizard.DirectorRunPrefix | src/app/onboarding/wizard/page.tsx:269-277 | the loop's calls are the per-director calls from its start, in roster order |
| Wizard.DirectorRunOutcome | src/app/onboarding/wizard/page.tsx:269-277 | every call but the last succeeded; the loop fails exactly when its last call failed, and succeeds only by reaching the end |
| Wizard.DirectorRunCalls | src/app/onboarding/wizard/page.tsx:269-285 | the loop's calls are a prefix of the per-director calls in roster order, all but the last succeeded, and it stops at the first failure |
| Wizard.DirectorRunSucceeds | src/app/onboarding/wizard/page.tsx:265-285 | the loop succeeds exactly when it makes one call per director and all of them succeed |
| Wizard.DirectorCommit | src/app/onboarding/wizard/page.tsx:265-285 | step 3's calls are a prefix of one call per director tagged with the company id and "PENDING"; it succeeds exactly when all were made and all succeeded; on failure 3 is not completed |
| Wizard.SubmitAlwaysCalls | src/app/onboarding/wizard/page.tsx:289-311 | at step 4 every press makes one AML call with the company id and "PENDING", leaves the state alone, and redirects exactly on success |
| Wizard.PreviousSteps | src/app/onboarding/wizard/page.tsx:316-320 | Back decrements only above step 1 and never touches completed steps or payloads |
| Wizard.JumpGate | src/app/onboarding/wizard/page.tsx:329-337 | a jump moves only when every earlier step is completed, and then always moves; a refused jump leaves the state unchanged, and a jump changes nothing but the step |
| Wizard.FormChangeOnlyCurrent | src/app/onboarding/wizard/page.tsx:322-327 | a form change replaces the current step's payload and nothing else |
| Wizard.RestoreNothing | src/app/onboarding/wizard/page.tsx:65-102 | empty storage loads the default state |
| Wizard.RestorePresentOnly | src/app/onboarding/wizard/page.tsx:65-102 | with readable slots each is restored exactly when present; an empty company id is skipped |
| Wizard.GarbledStopsLoad | src/app/onboarding/wizard/page.tsx:96-99 | an unreadable slot aborts loading the slots after it |
| Wizard.GarbledFormLosesCompleted | src/app/onboarding/wizard/page.tsx:65-127 | after an unreadable form slot, mounting overwrites the saved completed steps and form with defaults |
| Wizard.SaveRules | src/app/onboarding/wizard/page.tsx:105-127 | falsy account data and a falsy company id are never written; changed step and completed steps are |
| Wizard.MountedSlots | src/app/onboarding/wizard/page.tsx:105-127 | after mounting, the step, form and completed slots hold the loaded state; the account and company id are written only when truthy and changed |
| Wizard.ReloadIsStable | src/app/onboarding/wizard/page.tsx:65-127 | mounting on readable storage and reloading gives the same state |
| Wizard.SavedRoundTrip | src/app/onboarding/wizard/page.tsx:65-127 | loading a saved valid state gives it back, up to a falsy account and the id's type |
| Wizard.PersistedTracksState | src/app/onboarding/wizard/page.tsx:105-127 | the change-driven writes keep storage equal to the saved image of the state |
| Wizard.AdvanceKeepsAccountAndCompany | src/app/onboarding/wizard/page.tsx:213-312 | once steps 1 and 2 are done, Next never changes the account or the company id |
| Wizard.FirstStepScenario | src/app/onboarding/wizard/page.tsx:216-233 | a filled-in step 1 and an accepting server give one account call, step 2, and the account being saved |
| Wizard.SecondDirectorFails | src/app/onboarding/wizard/page.tsx:265-285 | with three directors and a failure on the second, two calls are made, the alert is shown, and the state is unchanged |
| WizardPage.FailuresNamed | src/app/onboarding/wizard/page.tsx:142-182 | reading a banner gives one flag per notice |
| WizardPage.NoticesDistinguishable | src/app/onboarding/wizard/page.tsx:142-182 | the four notices are non-empty and start with different letters |
| WizardPage.BannerPieces | src/app/onboarding/wizard/page.tsx:142-182 | the banner is the notices of the failed lookups, in the order Industry, Legal, AML, States |
| WizardPage.BannerStart | src/app/onboarding/wizard/page.tsx:142-182 | a non-empty banner starts with one of the notices |
| WizardPage.BannerNamesFailures | src/app/onboarding/wizard/page.tsx:142-182 | the banner determines exactly which lookups failed |
| WizardPage.FetchKeepsLists | src/app/onboarding/wizard/page.tsx:130-204 | array results are kept and others become []; the banner names exactly the failures, and is empty exactly when none failed |
| WizardPage.NullResultEmptiesAll | src/app/onboarding/wizard/page.tsx:183-200 | a null lookup result empties all four lists and shows the connection error |
| WizardPage.RemovingAllKeys | src/app/onboarding/wizard/page.tsx:206-210 | removing the five keys leaves storage empty |
| WizardPage.OnboardingWizard.constructor | src/app/onboarding/wizard/page.tsx:42-102 | the page starts with the loaded state and the storage after mounting |
| WizardPage.OnboardingWizard.FetchReferenceData | src/app/onboarding/wizard/page.tsx:130-204 | the lists and banner are those of the lookup results, loading ends, and nothing else changes |
| WizardPage.OnboardingWizard.CanSkipToStep | src/app/onboarding/wizard/page.tsx:329-337 | the loop answers true exactly when every step below the target is completed |
| WizardPage.OnboardingWizard.JumpToStep | src/app/onboarding/wizard/page.tsx:385 | the state becomes the gated jump's, and storage records the change |
| WizardPage.OnboardingWizard.HandlePrevious | src/app/onboarding/wizard/page.tsx:316-320 | the state becomes Back's, and storage records the change |
| WizardPage.OnboardingWizard.HandleFormChange | src/app/onboarding/wizard/page.tsx:322-327 | the state becomes the form change's, and storage records it |
| WizardPage.OnboardingWizard.ClearPersistedData | src/app/onboarding/wizard/page.tsx:206-210 | the loop removes every key and leaves the in-memory state alone |
| WizardPage.OnboardingWizard.CreateAccountStep | src/app/onboarding/wizard/page.tsx:216-233 | the state, call and alert are those of step 1's commit; storage untouched |
| WizardPage.OnboardingWizard.CreateCompanyStep | src/app/onboarding/wizard/page.tsx:236-262 | the state, call and alert are those of step 2's commit; storage untouched |
| WizardPage.OnboardingWizard.CreateDirectorsStep | src/app/onboarding/wizard/page.tsx:265-285 | the loop's calls, alert and new state are those of step 3's commit; storage untouched |
| WizardPage.OnboardingWizard.HandleNext | src/app/onboarding/wizard/page.tsx:213-312 | the state, calls, alert and redirect are those of Next; storage is cleared on redirect and otherwise records the change |
| DirectorDetailsForm.InitialRoster | src/components/onboarding/director-details-form.tsx:19-31 | a saved roster is kept, even an empty one; an absent one becomes one blank director with id "1" naming the company |
| DirectorDetailsForm.MountNotifiesOnlyWithoutSavedRoster | src/components/onboarding/director-details-form.tsx:33-38 | mounting reports the roster exactly when none was saved |
| DirectorDetailsForm.Appended | src/components/onboarding/director-details-form.tsx:40-50 | adding grows the roster by one blank director with the new id and no company; earlier entries are unchanged |
| DirectorDetailsForm.WithoutIdKeeps | src/components/onboarding/director-details-form.tsx:54 | the filter drops every entry with the id and keeps every other entry as often as before |
| DirectorDetailsForm.WithoutIdAppend | src/components/onboarding/director-details-form.tsx:54 | the filter keeps the order of the remaining entries |
| DirectorDetailsForm.WithoutAbsentId | src/components/onboarding/director-details-form.tsx:54 | filtering an unused id changes nothing |
| DirectorDetailsForm.Removed | src/components/onboarding/director-details-form.tsx:52-56 | a roster of one is untouched; otherwise exactly the entries with other ids remain, and the roster stays non-empty while some entry has another id |
| DirectorDetailsForm.RemoveUndoesAdd | src/components/onboarding/director-details-form.tsx:40-56 | removing a director just added with an unused id restores the roster |
| DirectorDetailsForm.RemoveCanEmptyRoster | src/components/onboarding/director-details-form.tsx:52-56 | two directors sharing the removed id are both removed, leaving no director |
| DirectorDetailsForm.EditSetsOnlyItsField | src/components/onboarding/director-details-form.tsx:58-60 | an edit sets its field, with an unparsable ownership stored as 0, and leaves every other field alone |
| DirectorDetailsForm.LaterEditWins | src/components/onboarding/director-details-form.tsx:58-60 | of two edits to one field the later wins |
| DirectorDetailsForm.Updated | src/components/onboarding/director-details-form.tsx:58-60 | the update keeps length and order and edits exactly the entries with the id |
| DirectorDetailsForm.UpdateKeepsIds | src/components/onboarding/director-details-form.tsx:58-60 | an update never changes an entry's id |
| DirectorDetailsForm.LaterUpdateWins | src/components/onboarding/director-details-form.tsx:58-60 | updating one field twice leaves only the second value |
| DirectorDetailsForm.DirectorDetailsForm.AddDirector | src/components/onboarding/director-details-form.tsx:40-50 | the roster becomes the added roster, with the clock reading's decimal text as the id |
| DirectorDetailsForm.DirectorDetailsForm.RemoveDirector | src/components/onboarding/director-details-form.tsx:52-56 | the roster becomes the removal's |
| DirectorDetailsForm.DirectorDetailsForm.UpdateDirector | src/components/onboarding/director-details-form.tsx:58-60 | the roster becomes the update's |
| ContactPersonForm.InitialOverridesDefaults | src/components/onboarding/contact-person-form.tsx:16-22 | a field in the payload keeps its value; each shown field lacking one starts as "" |
| ContactPersonForm.ChangeSetsOnlyItsField | src/components/onboarding/contact-person-form.tsx:34-40 | a change sets exactly its field |
| ContactPersonForm.ChangeIsOverwrite | src/components/onboarding/contact-person-form.tsx:34-40 | retyping the current text changes nothing; the later of two edits wins |
| ContactPersonForm.MountNotifiesIffFieldMissing | src/components/onboarding/contact-person-form.tsx:25-31 | mounting reports the form exactly when the payload lacked a shown field, and reports nothing once the report is stored |
| ContactPersonForm.E164Matches | src/components/onboarding/contact-person-form.tsx:85 | every E.164 number matches the phone pattern |
| ContactPersonForm.MatchesE164 | src/components/onboarding/contact-person-form.tsx:85 | everything the pattern matches is an E.164 number |
| ContactPersonForm.PhonePatternIsE164 | src/components/onboarding/contact-person-form.tsx:85 | the pattern accepts exactly a '+' followed by 2 to 15 digits, the first not 0 |
| ContactPersonForm.ExampleNumberAccepted | src/components/onboarding/contact-person-form.tsx:84 | the example "+254712345678" matches |
| ContactPersonForm.NonNumbersRefused | src/components/onboarding/contact-person-form.tsx:85 | one digit, sixteen digits and a leading 0 are refused |
| ContactPersonForm.ContactPersonForm.HandleChange | src/components/onboarding/contact-person-form.tsx:34-40 | the form becomes the single-field change |
| CompanyDetailsForm.InitialOverridesDefaults | src/components/onboarding/company-details-form.tsx:28-45 | payload fields win; others start as "", the username, the contact's name, or absent for `state` |
| CompanyDetailsForm.ChangeSetsOnlyItsField | src/components/onboarding/company-details-form.tsx:74-76 | a change sets exactly its field |
| CompanyDetailsForm.LaterChangeWins | src/components/onboarding/company-details-form.tsx:74-76 | the later of two edits wins |
| CompanyDetailsForm.Overlaid | src/components/onboarding/company-details-form.tsx:62 | `{...prev, ...updates}` takes each field from the updates when present |
| CompanyDetailsForm.SyncRule | src/components/onboarding/company-details-form.tsx:48-65 | `contact_person` and `account` are overwritten only when their source is non-empty and differs; no other field changes |
| CompanyDetailsForm.SyncIdempotent | src/components/onboarding/company-details-form.tsx:52-63 | after one sync the next finds nothing to update |
| CompanyDetailsForm.SelectItems | src/components/onboarding/company-details-form.tsx:150-160 | an empty list gives the single disabled "loading" item; otherwise one option per entry valued by its name |
| CompanyDetailsForm.PlaceholderOnlyWhenEmpty | src/components/onboarding/company-details-form.tsx:176-186 | the placeholder appears exactly for an empty list, and options are the names in list order |
| CompanyDetailsForm.CompanyDetailsForm.HandleChange | src/components/onboarding/company-details-form.tsx:74-76 | the form becomes the single-field change |
| CompanyDetailsForm.CompanyDetailsForm.SyncLinkedFields | src/components/onboarding/company-details-form.tsx:48-65 | `hasChanged` holds exactly when a linked field needed syncing, and the form becomes the synced one |
| AmlComplianceForm.InitialOverridesDefaults | src/components/onboarding/aml-compliance-form.tsx:17-25 | saved answers win; missing yes/no answers start false and missing texts "" |
| AmlComplianceForm.FromRadio | src/components/onboarding/aml-compliance-form.tsx:34-36 | a radio value means yes exactly when it is "true" |
| AmlComplianceForm.RadioRoundTrip | src/components/onboarding/aml-compliance-form.tsx:47 | choosing the displayed `toString()` value gives back the answer |
| AmlComplianceForm.FlagChangeOnlyItsAnswer | src/components/onboarding/aml-compliance-form.tsx:34-36 | a radio change sets only its question, to whether the value is "true" |
| AmlComplianceForm.TextChangeOnlyItsAnswer | src/components/onboarding/aml-compliance-form.tsx:38-40 | a text change stores the value verbatim in its own answer only |
| AmlComplianceForm.SameAnswerNoChange | src/components/onboarding/aml-compliance-form.tsx:34-36 | re-choosing the current answer changes nothing |
| AmlComplianceForm.ProgramTypeOptions | src/components/onboarding/aml-compliance-form.tsx:126-131 | one option per program type, valued by its name, in order, with no placeholder |
| AmlComplianceForm.MountNotifiesIffAnswerMissing | src/components/onboarding/aml-compliance-form.tsx:27-32 | mounting reports the form exactly when an answer was missing |
| AmlComplianceForm.AmlComplianceForm.HandleBooleanChange | src/components/onboarding/aml-compliance-form.tsx:34-36 | the form becomes the radio change |
| AmlComplianceForm.AmlComplianceForm.HandleStringChange | src/components/onboarding/aml-compliance-form.tsx:38-40 | the form becomes the text change |
| AcknowledgementForm.EditChangesOnlyItsField | src/components/onboarding/acknowledgement-form.tsx:28-30 | each edit sets its own field only |
| AcknowledgementForm.EditsOfDifferentFieldsCommute | src/components/onboarding/acknowledgement-form.tsx:28-30 | checking and signing commute |
| AcknowledgementForm.WarningRule | src/components/onboarding/acknowledgement-form.tsx:79 | no warning exactly when the box is checked and the signature is non-empty |
| AcknowledgementForm.WarningLifecycle | src/components/onboarding/acknowledgement-form.tsx:15-19 | a fresh form warns, checking and signing clear it in either order, and unchecking brings it back |
| AcknowledgementForm.MountNotifiesIffFieldMissing | src/components/onboarding/acknowledgement-form.tsx:21-26 | mounting reports exactly when a field was missing |
| AcknowledgementForm.AcknowledgmentForm.HandleChange | src/components/onboarding/acknowledgement-form.tsx:28-30 | the form becomes the edit's |
| IndustryVerticalsForm.OptionsAreTwelveDistinct | src/components/onboarding/industry-verticals-form.tsx:14-27 | twelve options, all different |
| IndustryVerticalsForm.WithoutCounts | src/components/onboarding/industry-verticals-form.tsx:45 | the filter removes every occurrence of the industry and keeps the others as often as before |
| IndustryVerticalsForm.WithoutAppend | src/components/onboarding/industry-verticals-form.tsx:45 | the filter keeps order |
| IndustryVerticalsForm.WithoutAbsent | src/components/onboarding/industry-verticals-form.tsx:45 | filtering an unselected industry changes nothing |
| IndustryVerticalsForm.ToggleCounts | src/components/onboarding/industry-verticals-form.tsx:40-46 | checking appends at the end, adding an occurrence even if present; unchecking leaves none |
| IndustryVerticalsForm.ToggleRoundTrip | src/components/onboarding/industry-verticals-form.tsx:40-46 | checking then unchecking a new industry restores the selection; unchecking is idempotent |
| IndustryVerticalsForm.ClicksKeepSelectionDistinct | src/components/onboarding/industry-verticals-form.tsx:58-59 | clicks through the checkboxes never create a duplicate |
| IndustryVerticalsForm.WarningRule | src/components/onboarding/industry-verticals-form.tsx:80 | any checked box or other text clears the warning; nothing chosen shows it |
| IndustryVerticalsForm.MountNotifiesIffAnswerMissing | src/components/onboarding/industry-verticals-form.tsx:33-38 | mounting reports exactly when the payload lacked a key |
| IndustryVerticalsForm.IndustryVerticalsForm.HandleIndustryChange | src/components/onboarding/industry-verticals-form.tsx:40-46 | the selection becomes the toggled one, other text untouched |
| DocumentUpload.RejectionRule | src/components/onboarding/document-upload.tsx:50-67 | accepted exactly when the type is allowed and the size is at most 10485760; the type is judged first |
| DocumentUpload.SizeBoundary | src/components/onboarding/document-upload.tsx:64-67 | exactly 10 MiB passes and one byte more is refused |
| DocumentUpload.UploadRule | src/components/onboarding/document-upload.tsx:69-85 | `onUpload` runs exactly for an accepted file whose upload succeeds; rejected files send nothing; an accepted one sends exactly the fields `name`, `company` (the name, or "undefined") and `file`; an alert shows exactly when `onUpload` does not run |
| DocumentUpload.MissingCompanyIsUndefined | src/components/onboarding/document-upload.tsx:72-75 | a missing company name is sent as the text "undefined", a given one as itself |
| DocumentUpload.BadRepliesAlert | src/components/onboarding/document-upload.tsx:80-82 | an unreadable or missing reply gives the upload alert |
| DocumentUpload.IconRule | src/components/onboarding/document-upload.tsx:113-122 | check only for "complete", upload arrow only for "pending" |
| DocumentUpload.DocumentUpload.HandleFile | src/components/onboarding/document-upload.tsx:48-86 | outcome as specified; `uploading` is set true then false around an accepted upload, and untouched for a rejected file |
| DocumentsPage.TableShape | src/app/onboarding/documents/page.tsx:13-50 | six documents, five required, the operating licence the only optional one |
| DocumentsPage.RequiredIds | src/app/onboarding/documents/page.tsx:69 | the required ids are exactly those of rows marked required |
| DocumentsPage.StatusOf | src/app/onboarding/documents/page.tsx:73-75 | no entry reads "not_uploaded"; a stored non-empty status is returned |
| DocumentsPage.AllRequiredRule | src/app/onboarding/documents/page.tsx:77 | the check holds exactly when every required id has an entry, whatever the licence |
| DocumentsPage.Uploaded | src/app/onboarding/documents/page.tsx:56-65 | the upload sets its entry with an empty comment list and leaves other keys unchanged |
| DocumentsPage.UploadStatus | src/app/onboarding/documents/page.tsx:56-77 | the uploaded document reads the given status, others keep theirs, and completion is never undone |
| DocumentsPage.ReuploadOvercounts | src/app/onboarding/documents/page.tsx:67-70 | after a re-upload the key count is unchanged, so the numerator is one more than the documents held |
| DocumentsPage.AllRowsExceedRequired | src/app/onboarding/documents/page.tsx:67-70 | with all six rows uploaded, the numerator is 6 while 5 documents are required |
| DocumentsPage.NewUploadCounts | src/app/onboarding/documents/page.tsx:67-70 | for a new document the numerator equals the documents held |
| DocumentsPage.PageShowsPendingOrNotUploaded | src/app/onboarding/documents/page.tsx:133-138 | with only pending entries each control is yellow or gray and each badge reads "Pending" or "Not Uploaded" |
| DocumentsPage.ColourMatchesBadge | src/components/onboarding/document-upload.tsx:98-111 | the colour is red exactly for the destructive badge and gray exactly for the outline one |
| DocumentsPage.DocumentsPage.HandleDocumentUpload | src/app/onboarding/documents/page.tsx:56-71 | the map becomes the upload's and the counter the old key count plus one |
| DocumentStatus.DestructiveOnlyForActionRequired | src/components/onboarding/document-status.tsx:32-37 | only "action_required" is destructive, labelled "Action Required" |
| DocumentStatus.UnknownStatusIsNotUploaded | src/components/onboarding/document-status.tsx:39-45 | any other string gets the outline "Not Uploaded" badge with no icon |
| DocumentStatus.SecondaryRows | src/components/onboarding/document-status.tsx:11-31 | the secondary rows are pending (Clock), in review and complete |
| DocumentStatus.IconsIdentifyStatus | src/components/onboarding/document-status.tsx:9-47 | no two listed statuses share an icon |

## Left out

- Rendering is left out: JSX markup, Tailwind classes, the progress bars and the debug panels.
- Real I/O is replaced by parameters: `fetch`, `localStorage`, `FormData`, `File`, `alert`, `console` and `window.location`. Alerts, redirects and request bodies are method outputs; storage is a field.
- React effect scheduling, asynchronous re-entrancy and the `isSubmitting` button guard are left out: every handler runs as one atomic method. The render-time snapshots the handlers close over are the state before the call.
- The key order of `JSON.stringify` is not modelled. The change tests compare the records structurally.
- Floating-point values are not modelled. This covers the progress percentages (`uploadedCount / requiredCount * 100`, `currentStep / 4 * 100`) and the megabyte display. The ownership percentage is a `real` that is only stored and forwarded. `parseFloat` is taken as already applied: a director edit carries the parsed number, or `None` for NaN.
- `Number.parseInt` of the stored step is modelled as an integer slot. A NaN step is not modelled.
- `JSON.parse` is not modelled as text. A slot is either parsed or garbled. A parsed form slot whose payloads do not have their step's shape is not modelled.
- The wording of the JavaScript engine's own errors is modelled with the common V8 texts only: the null read, the unreadable body and the failed fetch.
- `Api.Property`: reading `name` or `id` of a non-object entry gives `undefined`. In JavaScript, reading it on `null` would throw instead.
- The admin and listing endpoints of `src/lib/api.ts` (182-297) are thin wrappers over `request`. Only its rule is modelled, together with the upload's.
- `Date.now()` ids and `new Date()` timestamps are parameters.
- Files with no logic are left out: `src/app/page.tsx`, `src/app/dashboard/page.tsx` and `src/app/onboarding/start/page.tsx`, which only redirect or show markup, and `src/lib/auth.ts`, which is commented out. `src/lib/types.ts` shapes the datatypes of module `Types`.
- Drag-and-drop state and clearing the file input in the upload control are presentational and left out.
- The `data` prop of each form is fixed for the component's lifetime. Re-rendering with the parent's updated payload is not modelled.
