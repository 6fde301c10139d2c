/** The onboarding wizard's step machine (src/app/onboarding/wizard/page.tsx):
    the page state as a value, the transitions of its handlers as functions,
    the five local-storage slots, and the invariants the transitions keep.
    The class in module WizardPage runs these transitions in place. */
module Wizard {
  import opened Wrappers
  import opened Types
  import opened Api

  const StepCount := 4

  /** The payload a step's form reports. */
  datatype StepData =
    | ContactStep(contact: ContactPerson)
    | CompanyStep(company: CompanyDetails)
    | DirectorStep(directors: seq<Director>)
    | AmlStep(aml: AmlCompliance)

  /** The step whose form produces this kind of payload. */
  function StepOf(d: StepData): (k: int)
    ensures 1 <= k <= StepCount
  {
    match d
    case ContactStep(_) => 1
    case CompanyStep(_) => 2
    case DirectorStep(_) => 3
    case AmlStep(_) => 4
  }

  /** formData: step number to the payload last reported on that step. */
  type FormData = map<int, StepData>

  /** Every slot holds its own step's kind of payload. */
  predicate WellTyped(f: FormData) {
    forall k :: k in f ==> StepOf(f[k]) == k
  }

  // `formData[k] as ...`: a slot that is absent reads as undefined.
  function ContactOf(f: FormData): Option<ContactPerson> {
    if 1 in f && f[1].ContactStep? then Some(f[1].contact) else None
  }

  function CompanyOf(f: FormData): Option<CompanyDetails> {
    if 2 in f && f[2].CompanyStep? then Some(f[2].company) else None
  }

  function DirectorsOf(f: FormData): Option<seq<Director>> {
    if 3 in f && f[3].DirectorStep? then Some(f[3].directors) else None
  }

  function AmlOf(f: FormData): Option<AmlCompliance> {
    if 4 in f && f[4].AmlStep? then Some(f[4].aml) else None
  }

  // ---------------------------------------------------------------------------
  // completedSteps is a JavaScript Set: it keeps insertion order and no duplicates.

  predicate NoDuplicates(s: seq<int>) {
    forall i, j :: 0 <= i < j < |s| ==> s[i] != s[j]
  }

  /** new Set([...prev, x]) */
  function Added(s: seq<int>, x: int): (r: seq<int>)
    ensures forall y :: y in r <==> y in s || y == x
    ensures NoDuplicates(s) ==> NoDuplicates(r)
    ensures x !in s ==> r == s + [x]
  {
    if x in s then s else s + [x]
  }

  /** new Set(array): the first occurrence of each element, in order. */
  function Deduplicated(xs: seq<int>): (r: seq<int>)
    ensures forall y :: y in r <==> y in xs
    ensures NoDuplicates(r)
  {
    if xs == [] then [] else Added(Deduplicated(xs[..|xs| - 1]), xs[|xs| - 1])
  }

  /** Restoring a list that was saved from a Set gives the same list back. */
  lemma {:induction false} DeduplicatedKeepsDistinct(xs: seq<int>)
    requires NoDuplicates(xs)
    ensures Deduplicated(xs) == xs
  {
    if xs != [] {
      var init := xs[..|xs| - 1];
      assert NoDuplicates(init);
      DeduplicatedKeepsDistinct(init);
      assert xs[|xs| - 1] !in init;
      assert init + [xs[|xs| - 1]] == xs;
    }
  }

  lemma DeduplicatedIdempotent(xs: seq<int>)
    ensures Deduplicated(Deduplicated(xs)) == Deduplicated(xs)
  {
    DeduplicatedKeepsDistinct(Deduplicated(xs));
  }

  // ---------------------------------------------------------------------------
  // The page state.

  datatype WizardState = WizardState(
    currentStep: int,
    formData: FormData,
    completedSteps: seq<int>,
    accountData: Json,        // the createAccount response, null before
    companyId: Option<Json>)  // the company response's `id`; None: undefined

  const Initial := WizardState(1, map[], [], JNull, Some(JStr("")))

  /** The invariant of a session started afresh: steps 1..3 only are ever
      completed, they are completed in order, and every step below the
      current one is completed. */
  predicate Valid(w: WizardState) {
    && 1 <= w.currentStep <= StepCount
    && NoDuplicates(w.completedSteps)
    && (forall i :: i in w.completedSteps ==> 1 <= i < StepCount)
    && (forall i, j :: i in w.completedSteps && 1 <= j < i ==> j in w.completedSteps)
    && (forall i :: 1 <= i < w.currentStep ==> i in w.completedSteps)
    && WellTyped(w.formData)
  }

  lemma InitialValid()
    ensures Valid(Initial)
  {
  }

  /** Under the invariant completedSteps is exactly {1..m} for some m <= 3, and
      m is at least currentStep - 1. */
  lemma CompletedIsPrefix(w: WizardState) returns (m: int)
    requires Valid(w)
    ensures 0 <= m < StepCount && w.currentStep - 1 <= m
    ensures forall i :: i in w.completedSteps <==> 1 <= i <= m
  {
    m := if 3 in w.completedSteps then 3 else if 2 in w.completedSteps then 2
         else if 1 in w.completedSteps then 1 else 0;
  }

  // ---------------------------------------------------------------------------
  // handleNext

  /** What the backend answers to the index-th call of one advance. */
  type Server = (nat, Call) -> Result<Json, Thrown>

  /** The result of one press of Next: the new state, the calls made in order,
      the alert shown, and the page navigated to. */
  datatype Outcome = Outcome(
    next: WizardState,
    calls: seq<Call>,
    alert: Option<string>,
    redirect: Option<string>)

  const AccountAlert := "Failed to create account. Please try again."
  const CompanyAlertPrefix := "Failed to create company: "
  const MissingAccount := "Account data not found. Please complete step 1 first."
  const MissingContact := "Cannot read properties of undefined (reading 'full_name')"
  const NullCompany := "Cannot read properties of null (reading 'id')"
  const DirectorsAlert := "Failed to create directors. Please try again."
  const SubmitAlert := "Submission failed. Please try again."
  const DocumentsRoute := "/onboarding/documents"
  const Pending := "PENDING"

  function Stay(w: WizardState, calls: seq<Call>, alert: string): Outcome {
    Outcome(w, calls, Some(alert), None)
  }

  /** Step 1: create the account from the contact payload as it stands. */
  function CommitAccount(w: WizardState, server: Server): Outcome {
    var call := CreateAccount(ContactOf(w.formData));
    var r := server(0, call);
    if r.Failure? then Stay(w, [call], AccountAlert)
    else Outcome(w.(accountData := r.value, completedSteps := Added(w.completedSteps, 1)), [call], None, None)
  }

  /** `{...formData[2], contact_person: formData[1].full_name, state: "PENDING"}` */
  function CompanyPayload(base: CompanyDetails, contact: ContactPerson): CompanyDetails {
    base.(contactPerson := contact.fullName, state := Some(Pending))
  }

  function CompanyCall(f: FormData, contact: ContactPerson): Call {
    CreateCompany(CompanyBodyOf(CompanyPayload(CompanyOf(f).GetOr(NoCompanyDetails), contact)))
  }

  /** Step 2: create the company; the company id is read from the response. */
  function CommitCompany(w: WizardState, server: Server): Outcome {
    if !Truthy(w.accountData) then Stay(w, [], CompanyAlertPrefix + MissingAccount)
    else match ContactOf(w.formData)
      case None => Stay(w, [], CompanyAlertPrefix + MissingContact)
      case Some(contact) =>
        var call := CompanyCall(w.formData, contact);
        match server(0, call)
        case Failure(t) => Stay(w, [call], CompanyAlertPrefix + Message(t))
        case Success(response) =>
          if response.JNull? then Stay(w, [call], CompanyAlertPrefix + NullCompany)
          else Outcome(w.(companyId := Property(response, "id"), completedSteps := Added(w.completedSteps, 2)),
                       [call], None, None)
  }

  /** `{...director, company: companyId, state: "PENDING"}` as createDirector sends it. */
  function DirectorCall(d: Director, companyId: Option<Json>): Call {
    CreateDirector(DirectorBodyOf(d).(company := companyId, state := Some(Pending)))
  }

  /** The director loop from position `from`: the calls made and whether all succeeded. */
  function DirectorRun(roster: seq<Director>, companyId: Option<Json>, server: Server, from: nat): (seq<Call>, bool)
    requires from <= |roster|
    decreases |roster| - from
  {
    if from == |roster| then ([], true)
    else
      var call := DirectorCall(roster[from], companyId);
      if server(from, call).Failure? then ([call], false)
      else
        var rest := DirectorRun(roster, companyId, server, from + 1);
        ([call] + rest.0, rest.1)
  }

  /** Step 3: one createDirector per roster entry, stopping at the first failure. */
  function CommitDirectors(w: WizardState, server: Server): Outcome {
    match DirectorsOf(w.formData)
    case None => Stay(w, [], DirectorsAlert)
    case Some(roster) =>
      var run := DirectorRun(roster, w.companyId, server, 0);
      if !run.1 then Stay(w, run.0, DirectorsAlert)
      else Outcome(w.(completedSteps := Added(w.completedSteps, 3)), run.0, None, None)
  }

  function AmlCall(w: WizardState): Call {
    CreateAmlCompliance(AmlBodyOf(AmlOf(w.formData).GetOr(NoAmlCompliance)).(company := w.companyId, state := Some(Pending)))
  }

  /** The last step: submit the AML answers; on success leave for the documents page. */
  function Submit(w: WizardState, server: Server): Outcome {
    var call := AmlCall(w);
    if server(0, call).Failure? then Stay(w, [call], SubmitAlert)
    else Outcome(w, [call], None, Some(DocumentsRoute))
  }

  /** handleNext (page.tsx:213-312). */
  function Advance(w: WizardState, server: Server): Outcome {
    if w.currentStep < StepCount then
      var c :=
        if w.currentStep == 1 && 1 !in w.completedSteps then CommitAccount(w, server)
        else if w.currentStep == 2 && 2 !in w.completedSteps then CommitCompany(w, server)
        else if w.currentStep == 3 && 3 !in w.completedSteps then CommitDirectors(w, server)
        else Outcome(w, [], None, None);
      if c.alert.Some? then c else c.(next := c.next.(currentStep := w.currentStep + 1))
    else Submit(w, server)
  }

  // ---------------------------------------------------------------------------
  // The other handlers.

  /** handlePrevious (page.tsx:316-320). */
  function Previous(w: WizardState): WizardState {
    if w.currentStep > 1 then w.(currentStep := w.currentStep - 1) else w
  }

  /** canSkipToStep (page.tsx:329-337). */
  predicate CanSkipTo(completed: seq<int>, target: int) {
    forall i :: 1 <= i < target ==> i in completed
  }

  /** A step indicator's onClick (page.tsx:385). */
  function JumpTo(w: WizardState, target: int): WizardState {
    if CanSkipTo(w.completedSteps, target) then w.(currentStep := target) else w
  }

  /** handleFormChange (page.tsx:322-327). */
  function FormChange(w: WizardState, d: StepData): WizardState {
    w.(formData := w.formData[w.currentStep := d])
  }

  // ---------------------------------------------------------------------------
  // The transitions keep the invariant.

  lemma AdvancePreservesValid(w: WizardState, server: Server)
    requires Valid(w)
    ensures Valid(Advance(w, server).next)
  {
    var k := w.currentStep;
    if k < StepCount && k !in w.completedSteps && Advance(w, server).alert.None? {
      var n := Advance(w, server).next;
      assert n.completedSteps == w.completedSteps + [k];
      forall i, j | i in n.completedSteps && 1 <= j < i
        ensures j in n.completedSteps
      {
        if i == k {
          assert j in w.completedSteps;
        }
      }
    }
  }

  lemma PreviousPreservesValid(w: WizardState)
    requires Valid(w)
    ensures Valid(Previous(w))
  {
  }

  /** The step indicators are the buttons 1..4. */
  lemma JumpPreservesValid(w: WizardState, target: int)
    requires Valid(w) && 1 <= target <= StepCount
    ensures Valid(JumpTo(w, target))
  {
  }

  /** The form on screen reports its own step's payload. */
  lemma FormChangePreservesValid(w: WizardState, d: StepData)
    requires Valid(w) && StepOf(d) == w.currentStep
    ensures Valid(FormChange(w, d))
  {
  }

  /** The user's actions on the page. Start Over touches only storage. */
  datatype Event =
    | Next(server: Server)
    | Back
    | Jump(target: int)
    | Edit(data: StepData)
    | StartOver

  function Apply(w: WizardState, e: Event): WizardState {
    match e
    case Next(server) => Advance(w, server).next
    case Back => Previous(w)
    case Jump(t) => JumpTo(w, t)
    case Edit(d) => FormChange(w, d)
    case StartOver => w
  }

  /** The events the page can produce in a state: indicator buttons 1..4 and
      the payload of the form on screen. */
  predicate Possible(w: WizardState, e: Event) {
    match e
    case Jump(t) => 1 <= t <= StepCount
    case Edit(d) => StepOf(d) == w.currentStep
    case _ => true
  }

  function Run(w: WizardState, events: seq<Event>): WizardState
    decreases |events|
  {
    if events == [] then w else Run(Apply(w, events[0]), events[1..])
  }

  predicate PossibleRun(w: WizardState, events: seq<Event>)
    decreases |events|
  {
    events == [] || (Possible(w, events[0]) && PossibleRun(Apply(w, events[0]), events[1..]))
  }

  lemma ApplyPreservesValid(w: WizardState, e: Event)
    requires Valid(w) && Possible(w, e)
    ensures Valid(Apply(w, e))
  {
    match e
    case Next(server) => AdvancePreservesValid(w, server);
    case Back => PreviousPreservesValid(w);
    case Jump(t) => JumpPreservesValid(w, t);
    case Edit(d) => FormChangePreservesValid(w, d);
    case StartOver =>
  }

  /** From the default state, every sequence of page events keeps steps below
      the current one completed and the completed set a prefix of 1..3. */
  lemma {:induction false} RunPreservesValid(w: WizardState, events: seq<Event>)
    requires Valid(w) && PossibleRun(w, events)
    ensures Valid(Run(w, events))
    decreases |events|
  {
    if events != [] {
      ApplyPreservesValid(w, events[0]);
      RunPreservesValid(Apply(w, events[0]), events[1..]);
    }
  }

  lemma SessionStaysValid(events: seq<Event>)
    requires PossibleRun(Initial, events)
    ensures Valid(Run(Initial, events))
    ensures Run(Initial, events).currentStep <= StepCount
    ensures StepCount !in Run(Initial, events).completedSteps
  {
    RunPreservesValid(Initial, events);
  }

  // ---------------------------------------------------------------------------
  // Properties of single presses of Next.

  /** A failed commit or submission leaves the whole state as it was. */
  lemma FailureChangesNothing(w: WizardState, server: Server)
    requires Advance(w, server).alert.Some?
    ensures Advance(w, server).next == w
    ensures Advance(w, server).redirect.None?
  {
  }

  /** A successful commit of step k < 4 completes k and moves to k + 1. */
  lemma CommitSucceeds(w: WizardState, server: Server)
    requires 1 <= w.currentStep < StepCount && w.currentStep !in w.completedSteps
    requires Advance(w, server).alert.None?
    ensures Advance(w, server).next.completedSteps == w.completedSteps + [w.currentStep]
    ensures Advance(w, server).next.currentStep == w.currentStep + 1
    ensures Advance(w, server).next.formData == w.formData
    ensures Advance(w, server).redirect.None?
  {
  }

  /** A completed step is never committed again: Next only moves on. */
  lemma CompletedStepMakesNoCall(w: WizardState, server: Server)
    requires w.currentStep < StepCount && w.currentStep in w.completedSteps
    ensures Advance(w, server).calls == []
    ensures Advance(w, server).alert.None?
    ensures Advance(w, server).next == w.(currentStep := w.currentStep + 1)
  {
  }

  /** Next, Previous, Next: the second press reaches no backend. */
  lemma NoDoubleCommit(w: WizardState, first: Server, second: Server)
    requires Valid(w) && w.currentStep < StepCount
    requires Advance(w, first).alert.None?
    ensures Advance(Previous(Advance(w, first).next), second).calls == []
  {
    var n := Advance(w, first).next;
    assert w.currentStep in n.completedSteps;
    assert Previous(n).currentStep == w.currentStep;
  }

  /** Step 2 without an account makes no call and names the missing account. */
  lemma CompanyNeedsAccount(w: WizardState, server: Server)
    requires w.currentStep == 2 && 2 !in w.completedSteps && !Truthy(w.accountData)
    ensures Advance(w, server).calls == []
    ensures Advance(w, server).alert == Some(CompanyAlertPrefix + MissingAccount)
    ensures Advance(w, server).next == w
  {
  }

  /** The company body takes contact_person from step 1's full_name and the
      state "PENDING" whatever the form held; the other fields are the form's. */
  lemma CompanyCallBody(w: WizardState, server: Server)
    requires w.currentStep == 2 && 2 !in w.completedSteps && Truthy(w.accountData)
    requires ContactOf(w.formData).Some?
    ensures var o := Advance(w, server);
      var base := CompanyOf(w.formData).GetOr(NoCompanyDetails);
      && |o.calls| == 1 && o.calls[0].CreateCompany?
      && o.calls[0].company.contactPerson == ContactOf(w.formData).value.fullName
      && o.calls[0].company.state == Some(Pending)
      && CompanyOfBody(o.calls[0].company) == base.(contactPerson := ContactOf(w.formData).value.fullName,
                                                     state := Some(Pending), account := None)
  {
    var base := CompanyOf(w.formData).GetOr(NoCompanyDetails);
    CompanyProjection(CompanyPayload(base, ContactOf(w.formData).value), None);
  }

  /** On success the company id is the response's `id`, and step 2 is completed. */
  lemma CompanyIdFromResponse(w: WizardState, server: Server)
    requires w.currentStep == 2 && 2 !in w.completedSteps && Truthy(w.accountData)
    requires ContactOf(w.formData).Some?
    requires var r := server(0, CompanyCall(w.formData, ContactOf(w.formData).value));
      r.Success? && r.value.JObj?
    ensures var r := server(0, CompanyCall(w.formData, ContactOf(w.formData).value));
      && Advance(w, server).alert.None?
      && Advance(w, server).next.companyId == Property(r.value, "id")
      && 2 in Advance(w, server).next.completedSteps
  {
  }

  /** The calls step 3 would make when every one succeeds: one per director, in order. */
  function AllDirectorCalls(roster: seq<Director>, companyId: Option<Json>): (r: seq<Call>)
    ensures |r| == |roster|
  {
    seq(|roster|, i requires 0 <= i < |roster| => DirectorCall(roster[i], companyId))
  }

  /** The director loop's calls are the calls of AllDirectorCalls from `from` on. */
  lemma {:induction false} DirectorRunPrefix(roster: seq<Director>, companyId: Option<Json>, server: Server, from: nat)
    requires from <= |roster|
    ensures var run := DirectorRun(roster, companyId, server, from);
      && from + |run.0| <= |roster|
      && run.0 == AllDirectorCalls(roster, companyId)[from..from + |run.0|]
    decreases |roster| - from
  {
    if from < |roster| {
      var all := AllDirectorCalls(roster, companyId);
      var call := DirectorCall(roster[from], companyId);
      assert call == all[from];
      if server(from, call).Success? {
        DirectorRunPrefix(roster, companyId, server, from + 1);
        var rest := DirectorRun(roster, companyId, server, from + 1);
        assert [call] + rest.0 == all[from..from + 1 + |rest.0|];
      } else {
        assert [call] == all[from..from + 1];
      }
    }
  }

  /** The director loop's calls all succeed but the last, which fails exactly
      when the loop fails, and the loop succeeds only by reaching the end. */
  lemma {:induction false} DirectorRunOutcome(roster: seq<Director>, companyId: Option<Json>, server: Server, from: nat)
    requires from <= |roster|
    ensures var run := DirectorRun(roster, companyId, server, from);
      && from + |run.0| <= |roster|
      && (forall j :: 0 <= j < |run.0| - 1 ==> server(from + j, run.0[j]).Success?)
      && (run.1 <==> from + |run.0| == |roster| && (run.0 == [] || server(|roster| - 1, run.0[|run.0| - 1]).Success?))
      && (!run.1 ==> |run.0| > 0 && server(from + |run.0| - 1, run.0[|run.0| - 1]).Failure?)
    decreases |roster| - from
  {
    if from < |roster| {
      var call := DirectorCall(roster[from], companyId);
      if server(from, call).Success? {
        DirectorRunOutcome(roster, companyId, server, from + 1);
        var rest := DirectorRun(roster, companyId, server, from + 1);
        var run := ([call] + rest.0, rest.1);
        assert DirectorRun(roster, companyId, server, from) == run;
        forall j | 0 <= j < |run.0| - 1
          ensures server(from + j, run.0[j]).Success?
        {
          if j > 0 {
            assert run.0[j] == rest.0[j - 1];
          }
        }
        if rest.0 != [] {
          assert run.0[|run.0| - 1] == rest.0[|rest.0| - 1];
        }
      }
    }
  }

  /** The director loop makes the calls of AllDirectorCalls in order, up to and
      including the first one that fails, and succeeds iff none fails. */
  lemma DirectorRunCalls(roster: seq<Director>, companyId: Option<Json>, server: Server, from: nat)
    requires from <= |roster|
    ensures var run := DirectorRun(roster, companyId, server, from);
      var all := AllDirectorCalls(roster, companyId);
      && from + |run.0| <= |roster|
      && run.0 == all[from..from + |run.0|]
      && (forall i :: from <= i < from + |run.0| - 1 ==> server(i, all[i]).Success?)
      && (run.1 <==> from + |run.0| == |roster| && (run.0 == [] || server(|roster| - 1, all[|roster| - 1]).Success?))
      && (!run.1 ==> |run.0| > 0 && server(from + |run.0| - 1, all[from + |run.0| - 1]).Failure?)
  {
    DirectorRunPrefix(roster, companyId, server, from);
    DirectorRunOutcome(roster, companyId, server, from);
    var run := DirectorRun(roster, companyId, server, from);
    var all := AllDirectorCalls(roster, companyId);
    forall i | from <= i < from + |run.0|
      ensures all[i] == run.0[i - from]
    {
    }
  }

  /** The director loop succeeds exactly when it makes every call and every one succeeds. */
  lemma DirectorRunSucceeds(roster: seq<Director>, companyId: Option<Json>, server: Server)
    ensures var run := DirectorRun(roster, companyId, server, 0);
      run.1 <==> run.0 == AllDirectorCalls(roster, companyId)
                 && forall i :: 0 <= i < |roster| ==> server(i, run.0[i]).Success?
  {
    DirectorRunCalls(roster, companyId, server, 0);
    var run := DirectorRun(roster, companyId, server, 0);
    var all := AllDirectorCalls(roster, companyId);
    assert all[0..|run.0|] == run.0;
    if run.1 {
      assert run.0 == all;
      forall i | 0 <= i < |roster| ensures server(i, run.0[i]).Success? {
        if i < |roster| - 1 {
          assert server(i, all[i]).Success?;
        }
      }
    }
  }

  /** Step 3 succeeds iff every director is created; each call carries the
      company id and "PENDING". A failure on the k-th director leaves the first
      k - 1 created and step 3 not completed. */
  lemma DirectorCommit(w: WizardState, server: Server)
    requires w.currentStep == 3 && 3 !in w.completedSteps && DirectorsOf(w.formData).Some?
    ensures var o := Advance(w, server);
      var roster := DirectorsOf(w.formData).value;
      && o.calls <= AllDirectorCalls(roster, w.companyId)
      && (forall c :: c in o.calls ==> c.CreateDirector? && c.director.company == w.companyId
                                         && c.director.state == Some(Pending))
      && (o.alert.None? <==> o.calls == AllDirectorCalls(roster, w.companyId)
                             && forall i :: 0 <= i < |roster| ==> server(i, o.calls[i]).Success?)
      && (o.alert.Some? ==> 3 !in o.next.completedSteps)
  {
    var roster := DirectorsOf(w.formData).value;
    DirectorRunCalls(roster, w.companyId, server, 0);
    DirectorRunSucceeds(roster, w.companyId, server);
    var run := DirectorRun(roster, w.companyId, server, 0);
    var all := AllDirectorCalls(roster, w.companyId);
    assert all[0..|run.0|] == run.0;
    forall c | c in run.0
      ensures c.CreateDirector? && c.director.company == w.companyId && c.director.state == Some(Pending)
    {
      var i :| 0 <= i < |run.0| && run.0[i] == c;
      assert c == all[i];
    }
  }

  /** The last step has no completed-step guard: every press submits once,
      with the company id and "PENDING", and the step never moves. */
  lemma SubmitAlwaysCalls(w: WizardState, server: Server)
    requires w.currentStep >= StepCount
    ensures var o := Advance(w, server);
      && o.next == w
      && |o.calls| == 1 && o.calls[0].CreateAmlCompliance?
      && o.calls[0].compliance.company == w.companyId
      && o.calls[0].compliance.state == Some(Pending)
      && (o.redirect == Some(DocumentsRoute) <==> server(0, o.calls[0]).Success?)
      && (o.alert.Some? <==> server(0, o.calls[0]).Failure?)
  {
  }

  /** Previous moves back one step above step 1 and changes nothing else. */
  lemma PreviousSteps(w: WizardState)
    ensures w.currentStep > 1 ==> Previous(w) == w.(currentStep := w.currentStep - 1)
    ensures w.currentStep <= 1 ==> Previous(w) == w
    ensures Previous(w).completedSteps == w.completedSteps && Previous(w).formData == w.formData
  {
  }

  /** A jump lands exactly when every earlier step is completed; a refused
      jump changes nothing, and a jump never touches anything but the step. */
  lemma JumpGate(w: WizardState, target: int)
    ensures JumpTo(w, target).currentStep != w.currentStep ==> forall i :: 1 <= i < target ==> i in w.completedSteps
    ensures CanSkipTo(w.completedSteps, target) ==> JumpTo(w, target).currentStep == target
    ensures !CanSkipTo(w.completedSteps, target) ==> JumpTo(w, target) == w
    ensures JumpTo(w, target) == w.(currentStep := JumpTo(w, target).currentStep)
  {
  }

  /** A form change rewrites the current step's slot and no other. */
  lemma FormChangeOnlyCurrent(w: WizardState, d: StepData)
    ensures var f := FormChange(w, d).formData;
      && w.currentStep in f && f[w.currentStep] == d
      && (forall k :: k != w.currentStep ==> (k in f <==> k in w.formData))
      && (forall k :: k != w.currentStep && k in w.formData ==> f[k] == w.formData[k])
    ensures FormChange(w, d).(formData := w.formData) == w
  {
  }

  // ---------------------------------------------------------------------------
  // Local storage: five slots (page.tsx:33-39).

  datatype StorageKey = CurrentStepKey | FormDataKey | AccountDataKey | CompanyIdKey | CompletedStepsKey

  function KeyName(k: StorageKey): string {
    match k
    case CurrentStepKey => "onboarding_current_step"
    case FormDataKey => "onboarding_form_data"
    case AccountDataKey => "onboarding_account_data"
    case CompanyIdKey => "onboarding_company_id"
    case CompletedStepsKey => "onboarding_completed_steps"
  }

  const AllKeys: seq<StorageKey> := [CurrentStepKey, FormDataKey, AccountDataKey, CompanyIdKey, CompletedStepsKey]

  /** The text of a JSON slot: JSON that parses to a value, or text that
      JSON.parse rejects. */
  datatype Slot<T> = Parsed(value: T) | Garbled

  /** The five slots; `None` is an absent key. The step slot holds the decimal
      text of an integer and the company slot raw text. */
  datatype Storage = Storage(
    step: Option<int>,
    form: Option<Slot<FormData>>,
    account: Option<Slot<Json>>,
    company: Option<string>,
    completed: Option<Slot<seq<int>>>)

  const NoStorage := Storage(None, None, None, None, None)

  /** localStorage.removeItem(key) */
  function Removed(s: Storage, k: StorageKey): Storage {
    match k
    case CurrentStepKey => s.(step := None)
    case FormDataKey => s.(form := None)
    case AccountDataKey => s.(account := None)
    case CompanyIdKey => s.(company := None)
    case CompletedStepsKey => s.(completed := None)
  }

  /** loadPersistedData (page.tsx:65-102): the five slots in order, each only
      when present; text JSON.parse rejects ends the load there. */
  function Restore(s: Storage): WizardState {
    var w1 := if s.step.Some? then Initial.(currentStep := s.step.value) else Initial;
    if s.form == Some(Garbled) then w1 else
    var w2 := if s.form.Some? then w1.(formData := s.form.value.value) else w1;
    if s.account == Some(Garbled) then w2 else
    var w3 := if s.account.Some? then w2.(accountData := s.account.value.value) else w2;
    var w4 := if s.company.Some? && s.company.value != "" then w3.(companyId := Some(JStr(s.company.value))) else w3;
    if s.completed == Some(Garbled) then w4 else
    if s.completed.Some? then w4.(completedSteps := Deduplicated(s.completed.value.value)) else w4
  }

  /** Truthiness of the companyId state (undefined is falsy). */
  predicate HasCompanyId(c: Option<Json>) {
    c.Some? && Truthy(c.value)
  }

  /** The save effects (page.tsx:105-127) after a render that changed the state
      from `prev` to `next`: each slot is written when its value changed, the
      account only when truthy and the company id only when truthy. */
  function Persisted(prev: WizardState, next: WizardState, s: Storage): Storage {
    Storage(
      if next.currentStep != prev.currentStep then Some(next.currentStep) else s.step,
      if next.formData != prev.formData then Some(Parsed(next.formData)) else s.form,
      if next.accountData != prev.accountData && Truthy(next.accountData) then Some(Parsed(next.accountData)) else s.account,
      if next.companyId != prev.companyId && HasCompanyId(next.companyId) then Some(JsString(next.companyId.value)) else s.company,
      if next.completedSteps != prev.completedSteps then Some(Parsed(next.completedSteps)) else s.completed)
  }

  /** The save effects of the first render, which run with the default state
      before the loaded state is rendered. */
  function FirstRenderWrites(s: Storage): Storage {
    s.(step := Some(Initial.currentStep), form := Some(Parsed(Initial.formData)),
       completed := Some(Parsed(Initial.completedSteps)))
  }

  /** The storage after the page has mounted on `s`. */
  function Mounted(s: Storage): Storage {
    Persisted(Initial, Restore(s), FirstRenderWrites(s))
  }

  /** Nothing stored: the default state. */
  lemma RestoreNothing()
    ensures Restore(NoStorage) == Initial
  {
  }

  /** Each slot is restored only when present, and a present slot wins. */
  lemma RestorePresentOnly(s: Storage)
    requires s.form != Some(Garbled) && s.account != Some(Garbled) && s.completed != Some(Garbled)
    ensures Restore(s).currentStep == s.step.GetOr(1)
    ensures Restore(s).formData == (if s.form.Some? then s.form.value.value else map[])
    ensures Restore(s).accountData == (if s.account.Some? then s.account.value.value else JNull)
    ensures Restore(s).companyId == (if s.company.Some? && s.company.value != "" then Some(JStr(s.company.value)) else Some(JStr("")))
    ensures Restore(s).completedSteps == (if s.completed.Some? then Deduplicated(s.completed.value.value) else [])
  {
  }

  /** A slot JSON.parse rejects stops the load: the slots after it stay at
      their defaults, and the error is swallowed. */
  lemma GarbledStopsLoad(s: Storage)
    ensures s.form == Some(Garbled) ==>
      Restore(s) == Initial.(currentStep := s.step.GetOr(1))
    ensures s.account == Some(Garbled) && s.form != Some(Garbled) ==>
      Restore(s).accountData == JNull && Restore(s).companyId == Initial.companyId
      && Restore(s).completedSteps == []
  {
  }

  /** Mounting on a garbled form slot overwrites the saved completed steps with
      an empty list, although they were never read. */
  lemma GarbledFormLosesCompleted(s: Storage)
    requires s.form == Some(Garbled)
    ensures Mounted(s).completed == Some(Parsed([]))
    ensures Mounted(s).form == Some(Parsed(map[]))
  {
  }

  /** The account is saved only when truthy, the company id only when truthy;
      the other three slots are saved whenever they change. */
  lemma SaveRules(prev: WizardState, next: WizardState, s: Storage)
    ensures !Truthy(next.accountData) ==> Persisted(prev, next, s).account == s.account
    ensures !HasCompanyId(next.companyId) ==> Persisted(prev, next, s).company == s.company
    ensures next.currentStep != prev.currentStep ==> Persisted(prev, next, s).step == Some(next.currentStep)
    ensures next.completedSteps != prev.completedSteps ==> Persisted(prev, next, s).completed == Some(Parsed(next.completedSteps))
    ensures Persisted(prev, prev, s) == s
  {
  }

  /** What the mount leaves in each slot, in terms of the loaded state. */
  lemma MountedSlots(s: Storage)
    ensures var m, r := Mounted(s), Restore(s);
      && m.step == Some(r.currentStep)
      && m.form == Some(Parsed(r.formData))
      && m.completed == Some(Parsed(r.completedSteps))
      && m.account == (if Truthy(r.accountData) then Some(Parsed(r.accountData)) else s.account)
      && m.company == (if r.companyId != Initial.companyId && HasCompanyId(r.companyId)
                       then Some(JsString(r.companyId.value)) else s.company)
  {
  }

  /** Reloading right after a reload restores the same state. */
  lemma ReloadIsStable(s: Storage)
    requires s.form != Some(Garbled) && s.account != Some(Garbled) && s.completed != Some(Garbled)
    ensures Restore(Mounted(s)) == Restore(s)
  {
    var m, r := Mounted(s), Restore(s);
    MountedSlots(s);
    RestorePresentOnly(s);
    RestorePresentOnly(m);
    assert NoDuplicates(r.completedSteps);
    DeduplicatedKeepsDistinct(r.completedSteps);
    var n := Restore(m);
    assert n.currentStep == r.currentStep && n.formData == r.formData && n.completedSteps == r.completedSteps;
    assert n.accountData == r.accountData;
    assert n.companyId == r.companyId;
  }

  /** The storage of a state whose five slots were all saved. */
  function Saved(w: WizardState): Storage {
    Storage(Some(w.currentStep), Some(Parsed(w.formData)),
            if Truthy(w.accountData) then Some(Parsed(w.accountData)) else None,
            if HasCompanyId(w.companyId) then Some(JsString(w.companyId.value)) else None,
            Some(Parsed(w.completedSteps)))
  }

  /** What Restore makes of Saved: the account and company id fall back to
      their defaults when falsy, and a company id comes back as a string. */
  function Reloaded(w: WizardState): WizardState {
    w.(accountData := if Truthy(w.accountData) then w.accountData else JNull,
       companyId := if HasCompanyId(w.companyId) then Some(JStr(JsString(w.companyId.value))) else Initial.companyId)
  }

  /** A valid session survives a reload up to falsy account data and the type of the id. */
  lemma SavedRoundTrip(w: WizardState)
    requires Valid(w)
    ensures Restore(Saved(w)) == Reloaded(w)
    ensures Truthy(w.accountData) && w.companyId.Some? && w.companyId.value.JStr? && w.companyId.value.s != ""
      ==> Restore(Saved(w)) == w
  {
    var sv := Saved(w);
    RestorePresentOnly(sv);
    DeduplicatedKeepsDistinct(w.completedSteps);
    var r := Restore(sv);
    assert r.currentStep == w.currentStep && r.formData == w.formData && r.completedSteps == w.completedSteps;
    assert r.accountData == Reloaded(w).accountData;
    assert r.companyId == Reloaded(w).companyId;
  }

  /** The save effects keep a storage that holds Saved(prev) holding Saved(next),
      as long as an account or a company id once saved does not turn falsy. */
  lemma PersistedTracksState(prev: WizardState, next: WizardState)
    requires Truthy(prev.accountData) ==> Truthy(next.accountData)
    requires HasCompanyId(prev.companyId) ==> HasCompanyId(next.companyId)
    ensures Persisted(prev, next, Saved(prev)) == Saved(next)
  {
  }

  /** Once both are set, no transition clears the account or the company id. */
  lemma AdvanceKeepsAccountAndCompany(w: WizardState, server: Server)
    requires Valid(w) && Truthy(w.accountData) && HasCompanyId(w.companyId) && 1 in w.completedSteps && 2 in w.completedSteps
    ensures Advance(w, server).next.accountData == w.accountData
    ensures Advance(w, server).next.companyId == w.companyId
  {
  }

  // ---------------------------------------------------------------------------
  // Worked sessions.

  function JaneDoe(): ContactPerson {
    ContactPerson(None, Some("jane@x.com"), Some("Jane Doe"), Some("CEO"), Some("+254712345678"))
  }

  /** A fresh session, step 1 filled in, Next pressed with a server that
      accepts: step 2, step 1 completed, the account saved. */
  lemma FirstStepScenario(account: map<string, Json>)
    ensures var w := FormChange(Initial, ContactStep(JaneDoe()));
      var o := Advance(w, (i: nat, c: Call) => Success(JObj(account)));
      && o.calls == [CreateAccount(Some(JaneDoe()))]
      && o.next.currentStep == 2 && o.next.completedSteps == [1]
      && o.next.accountData == JObj(account)
      && Persisted(w, o.next, Saved(w)).account == Some(Parsed(JObj(account)))
  {
  }

  /** Three directors, the second rejected: two calls, the alert, step 3 still open. */
  lemma SecondDirectorFails(w: WizardState, a: Director, b: Director, c: Director)
    requires w.currentStep == 3 && 3 !in w.completedSteps && w.formData == map[3 := DirectorStep([a, b, c])]
    ensures var server: Server := (i: nat, call: Call) => if i == 1 then Failure(ErrorWithStatus(400)) else Success(JNull);
      var o := Advance(w, server);
      && o.calls == [DirectorCall(a, w.companyId), DirectorCall(b, w.companyId)]
      && o.alert == Some(DirectorsAlert)
      && o.next == w
  {
    var server: Server := (i: nat, call: Call) => if i == 1 then Failure(ErrorWithStatus(400)) else Success(JNull);
    var roster := [a, b, c];
    assert DirectorRun(roster, w.companyId, server, 1) == ([DirectorCall(b, w.companyId)], false);
    assert server(0, DirectorCall(a, w.companyId)).Success?;
    var rest := DirectorRun(roster, w.companyId, server, 1);
    assert DirectorRun(roster, w.companyId, server, 0) == ([DirectorCall(roster[0], w.companyId)] + rest.0, rest.1);
    assert rest.0 == [DirectorCall(b, w.companyId)] && !rest.1;
    assert [DirectorCall(roster[0], w.companyId)] + rest.0 == [DirectorCall(a, w.companyId), DirectorCall(b, w.companyId)];
    assert DirectorRun(roster, w.companyId, server, 0) == ([DirectorCall(a, w.companyId), DirectorCall(b, w.companyId)], false);
  }
}
