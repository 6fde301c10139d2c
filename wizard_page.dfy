/** The wizard page as an object (src/app/onboarding/wizard/page.tsx): its
    state fields, the storage it writes, and the reference lists it loads.
    Every handler is proved against the transition of module Wizard. */
module WizardPage {
  import opened Wrappers
  import opened Api
  import opened Wizard

  // ---------------------------------------------------------------------------
  // Reference data (page.tsx:130-204).

  datatype ReferenceLists = ReferenceLists(
    industryCategories: seq<Json>,
    legalEntityForms: seq<Json>,
    amlProgramTypes: seq<Json>,
    states: seq<Json>,
    apiError: string)

  const NoReference := ReferenceLists([], [], [], [], "")

  /** The notices of the four lookups, in the order they are made. */
  const Notices: seq<string> := ["Industry Categories failed. ", "Legal Entity Forms failed. ",
                                 "AML Program Types failed. ", "States failed. "]

  const ConnectError := "Failed to connect to API. Please check if your Django server is running."

  /** `Array.isArray(res) ? res : []` */
  function ArrayOrEmpty(v: Json): seq<Json> {
    if v.JArr? then v.items else []
  }

  /** The value a lookup leaves in its variable: the result, or [] when it failed. */
  function Received(reply: Result<Json, Thrown>): Json {
    if reply.Success? then reply.value else JArr([])
  }

  /** The banner text for the given failures from position i on. */
  function BannerFrom(notices: seq<string>, failed: seq<bool>, i: nat): string
    requires |failed| == |notices| && i <= |notices|
    decreases |notices| - i
  {
    if i == |notices| then "" else (if failed[i] then notices[i] else "") + BannerFrom(notices, failed, i + 1)
  }

  /** Reads a banner back: which notices it holds (the partner of BannerFrom). */
  function FailuresNamed(notices: seq<string>, text: string, i: nat): (r: seq<bool>)
    requires i <= |notices|
    ensures |r| == |notices| - i
    decreases |notices| - i
  {
    if i == |notices| then []
    else if notices[i] <= text then [true] + FailuresNamed(notices, text[|notices[i]|..], i + 1)
    else [false] + FailuresNamed(notices, text, i + 1)
  }

  /** Notices that are not empty and start with different letters. */
  predicate Distinguishable(notices: seq<string>) {
    && (forall i :: 0 <= i < |notices| ==> notices[i] != "")
    && (forall i, j :: 0 <= i < j < |notices| ==> notices[i][0] != notices[j][0])
  }

  lemma NoticesDistinguishable()
    ensures Distinguishable(Notices)
  {
  }

  /** fetchReferenceData: each failed lookup appends its notice; a `null`
      result makes the `.length` read throw, which replaces everything with the
      connection error and empty lists. */
  function Fetched(industries: Result<Json, Thrown>, legalForms: Result<Json, Thrown>,
                   amlTypes: Result<Json, Thrown>, states: Result<Json, Thrown>): ReferenceLists
  {
    if Received(industries).JNull? || Received(legalForms).JNull? || Received(amlTypes).JNull? || Received(states).JNull?
    then ReferenceLists([], [], [], [], ConnectError)
    else ReferenceLists(ArrayOrEmpty(Received(industries)), ArrayOrEmpty(Received(legalForms)),
                        ArrayOrEmpty(Received(amlTypes)), ArrayOrEmpty(Received(states)),
                        BannerFrom(Notices, [industries.Failure?, legalForms.Failure?, amlTypes.Failure?, states.Failure?], 0))
  }

  function NoticeIf(notices: seq<string>, failed: bool, i: nat): string
    requires i < |notices|
  {
    if failed then notices[i] else ""
  }

  /** A banner of four is the notices of the failed lookups, in order. */
  lemma BannerPieces(notices: seq<string>, failed: seq<bool>)
    requires |failed| == |notices| == 4
    ensures BannerFrom(notices, failed, 0)
            == NoticeIf(notices, failed[0], 0) + NoticeIf(notices, failed[1], 1)
               + NoticeIf(notices, failed[2], 2) + NoticeIf(notices, failed[3], 3)
  {
    var n0, n1, n2, n3 := NoticeIf(notices, failed[0], 0), NoticeIf(notices, failed[1], 1),
                          NoticeIf(notices, failed[2], 2), NoticeIf(notices, failed[3], 3);
    assert BannerFrom(notices, failed, 3) == n3 + "" == n3;
    assert BannerFrom(notices, failed, 2) == n2 + n3;
    assert BannerFrom(notices, failed, 1) == n1 + (n2 + n3);
    assert BannerFrom(notices, failed, 0) == n0 + (n1 + (n2 + n3));
    assert n0 + (n1 + (n2 + n3)) == n0 + n1 + n2 + n3;
  }

  lemma {:induction false} BannerStart(notices: seq<string>, failed: seq<bool>, i: nat)
    requires |failed| == |notices| && i <= |notices|
    requires Distinguishable(notices)
    ensures BannerFrom(notices, failed, i) != "" ==>
              exists j :: i <= j < |notices| && BannerFrom(notices, failed, i)[0] == notices[j][0]
    decreases |notices| - i
  {
    if i < |notices| {
      BannerStart(notices, failed, i + 1);
      if failed[i] {
        assert BannerFrom(notices, failed, i)[0] == notices[i][0];
      }
    }
  }

  /** The banner names exactly the lookups that failed, in order. */
  lemma {:induction false} BannerNamesFailures(notices: seq<string>, failed: seq<bool>, i: nat)
    requires |failed| == |notices| && i <= |notices|
    requires Distinguishable(notices)
    ensures FailuresNamed(notices, BannerFrom(notices, failed, i), i) == failed[i..]
    decreases |notices| - i
  {
    if i < |notices| {
      var rest := BannerFrom(notices, failed, i + 1);
      BannerNamesFailures(notices, failed, i + 1);
      if failed[i] {
        assert notices[i] <= notices[i] + rest;
        assert (notices[i] + rest)[|notices[i]|..] == rest;
      } else {
        assert BannerFrom(notices, failed, i) == rest;
        BannerStart(notices, failed, i + 1);
        if rest != "" {
          var j :| i + 1 <= j < |notices| && rest[0] == notices[j][0];
          assert notices[j][0] != notices[i][0];
        }
        assert !(notices[i] <= rest);
      }
      assert failed[i..] == [failed[i]] + failed[i + 1..];
    }
  }

  /** Without a null result: every list that arrived as an array is kept, any
      other value becomes [], and the banner names the failed lookups. */
  lemma FetchKeepsLists(industries: Result<Json, Thrown>, legalForms: Result<Json, Thrown>,
                        amlTypes: Result<Json, Thrown>, states: Result<Json, Thrown>)
    requires !(industries.Success? && industries.value.JNull?) && !(legalForms.Success? && legalForms.value.JNull?)
    requires !(amlTypes.Success? && amlTypes.value.JNull?) && !(states.Success? && states.value.JNull?)
    ensures var f := Fetched(industries, legalForms, amlTypes, states);
      && (industries.Success? && industries.value.JArr? ==> f.industryCategories == industries.value.items)
      && (!(industries.Success? && industries.value.JArr?) ==> f.industryCategories == [])
      && (legalForms.Success? && legalForms.value.JArr? ==> f.legalEntityForms == legalForms.value.items)
      && (!(legalForms.Success? && legalForms.value.JArr?) ==> f.legalEntityForms == [])
      && (amlTypes.Success? && amlTypes.value.JArr? ==> f.amlProgramTypes == amlTypes.value.items)
      && (!(amlTypes.Success? && amlTypes.value.JArr?) ==> f.amlProgramTypes == [])
      && (states.Success? && states.value.JArr? ==> f.states == states.value.items)
      && (!(states.Success? && states.value.JArr?) ==> f.states == [])
      && FailuresNamed(Notices, f.apiError, 0) == [industries.Failure?, legalForms.Failure?, amlTypes.Failure?, states.Failure?]
      && (f.apiError == "" <==> industries.Success? && legalForms.Success? && amlTypes.Success? && states.Success?)
  {
    var failed := [industries.Failure?, legalForms.Failure?, amlTypes.Failure?, states.Failure?];
    var f := Fetched(industries, legalForms, amlTypes, states);
    assert f.legalEntityForms == ArrayOrEmpty(Received(legalForms)) && f.amlProgramTypes == ArrayOrEmpty(Received(amlTypes));
    assert f.industryCategories == ArrayOrEmpty(Received(industries)) && f.states == ArrayOrEmpty(Received(states));
    assert f.apiError == BannerFrom(Notices, failed, 0);
    NoticesDistinguishable();
    BannerNamesFailures(Notices, failed, 0);
    if BannerFrom(Notices, failed, 0) == "" {
      assert FailuresNamed(Notices, "", 0) == [false, false, false, false];
    }
  }

  /** Fetched with its banner written out notice by notice. */
  lemma FetchedPieces(industries: Result<Json, Thrown>, legalForms: Result<Json, Thrown>,
                      amlTypes: Result<Json, Thrown>, states: Result<Json, Thrown>)
    ensures var i, l, a, s := Received(industries), Received(legalForms), Received(amlTypes), Received(states);
      Fetched(industries, legalForms, amlTypes, states)
      == if i.JNull? || l.JNull? || a.JNull? || s.JNull? then ReferenceLists([], [], [], [], ConnectError)
         else ReferenceLists(ArrayOrEmpty(i), ArrayOrEmpty(l), ArrayOrEmpty(a), ArrayOrEmpty(s),
                             NoticeIf(Notices, industries.Failure?, 0) + NoticeIf(Notices, legalForms.Failure?, 1)
                             + NoticeIf(Notices, amlTypes.Failure?, 2) + NoticeIf(Notices, states.Failure?, 3))
  {
    BannerPieces(Notices, [industries.Failure?, legalForms.Failure?, amlTypes.Failure?, states.Failure?]);
  }

  /** A null result from any lookup empties all four lists. */
  lemma NullResultEmptiesAll(industries: Result<Json, Thrown>, legalForms: Result<Json, Thrown>,
                             amlTypes: Result<Json, Thrown>, states: Result<Json, Thrown>)
    requires states == Success(JNull)
    ensures Fetched(industries, legalForms, amlTypes, states) == ReferenceLists([], [], [], [], ConnectError)
  {
  }

  // ---------------------------------------------------------------------------
  // The page object.

  /** storage with the keys from AllKeys[..n] removed, one after another. */
  function RemovedUpTo(s: Storage, n: nat): Storage
    requires n <= |AllKeys|
  {
    if n == 0 then s else Removed(RemovedUpTo(s, n - 1), AllKeys[n - 1])
  }

  lemma RemovingAllKeys(s: Storage)
    ensures RemovedUpTo(s, |AllKeys|) == NoStorage
  {
    assert RemovedUpTo(s, 1) == s.(step := None);
    assert RemovedUpTo(s, 2) == s.(step := None, form := None);
    assert RemovedUpTo(s, 3) == s.(step := None, form := None, account := None);
    assert RemovedUpTo(s, 4) == s.(step := None, form := None, account := None, company := None);
  }

  class OnboardingWizard {
    var currentStep: int
    var formData: FormData
    var completedSteps: seq<int>
    var accountData: Json
    var companyId: Option<Json>
    var storage: Storage
    var reference: ReferenceLists
    var loading: bool

    function State(): WizardState
      reads this
    {
      WizardState(currentStep, formData, completedSteps, accountData, companyId)
    }

    /** Mounting: the state is loaded from `saved`, and the save effects run
        for the first render and again for the loaded state. */
    constructor (saved: Storage)
      ensures State() == Restore(saved)
      ensures storage == Mounted(saved)
      ensures reference == NoReference && loading
    {
      var step := 1;
      var form: FormData := map[];
      var account := JNull;
      var company := Some(JStr(""));
      var completed: seq<int> := [];
      var aborted := false;
      if saved.step.Some? {
        step := saved.step.value;
      }
      if saved.form == Some(Garbled) {
        aborted := true;
      } else if saved.form.Some? {
        form := saved.form.value.value;
      }
      if !aborted {
        if saved.account == Some(Garbled) {
          aborted := true;
        } else if saved.account.Some? {
          account := saved.account.value.value;
        }
      }
      if !aborted {
        if saved.company.Some? && saved.company.value != "" {
          company := Some(JStr(saved.company.value));
        }
        if saved.completed == Some(Garbled) {
          aborted := true;
        } else if saved.completed.Some? {
          completed := Deduplicated(saved.completed.value.value);
        }
      }
      currentStep, formData, completedSteps, accountData, companyId := step, form, completed, account, company;
      reference := NoReference;
      loading := true;
      new;
      storage := Persisted(Initial, State(), FirstRenderWrites(saved));
    }

    /** fetchReferenceData, with the four lookup results as parameters. */
    method FetchReferenceData(industries: Result<Json, Thrown>, legalForms: Result<Json, Thrown>,
                              amlTypes: Result<Json, Thrown>, states: Result<Json, Thrown>)
      modifies this
      ensures reference == Fetched(industries, legalForms, amlTypes, states)
      ensures !loading
      ensures State() == old(State()) && storage == old(storage)
    {
      var apiError := "";
      var industriesRes := JArr([]);
      var legalFormsRes := JArr([]);
      var amlTypesRes := JArr([]);
      var statesRes := JArr([]);
      if industries.Failure? { apiError := apiError + Notices[0]; } else { industriesRes := industries.value; }
      assert apiError == NoticeIf(Notices, industries.Failure?, 0);
      if legalForms.Failure? { apiError := apiError + Notices[1]; } else { legalFormsRes := legalForms.value; }
      assert apiError == NoticeIf(Notices, industries.Failure?, 0) + NoticeIf(Notices, legalForms.Failure?, 1);
      if amlTypes.Failure? { apiError := apiError + Notices[2]; } else { amlTypesRes := amlTypes.value; }
      assert apiError == NoticeIf(Notices, industries.Failure?, 0) + NoticeIf(Notices, legalForms.Failure?, 1)
                         + NoticeIf(Notices, amlTypes.Failure?, 2);
      if states.Failure? { apiError := apiError + Notices[3]; } else { statesRes := states.value; }
      assert apiError == NoticeIf(Notices, industries.Failure?, 0) + NoticeIf(Notices, legalForms.Failure?, 1)
                         + NoticeIf(Notices, amlTypes.Failure?, 2) + NoticeIf(Notices, states.Failure?, 3);
      FetchedPieces(industries, legalForms, amlTypes, states);
      if industriesRes.JNull? || legalFormsRes.JNull? || amlTypesRes.JNull? || statesRes.JNull? {
        reference := ReferenceLists([], [], [], [], ConnectError);
      } else {
        reference := ReferenceLists(ArrayOrEmpty(industriesRes), ArrayOrEmpty(legalFormsRes),
                                    ArrayOrEmpty(amlTypesRes), ArrayOrEmpty(statesRes), apiError);
      }
      loading := false;
    }

    /** canSkipToStep: every step before `stepId` is completed. */
    method CanSkipToStep(stepId: int) returns (ok: bool)
      ensures ok <==> forall i :: 1 <= i < stepId ==> i in completedSteps
    {
      var i := 1;
      while i < stepId
        invariant 1 <= i
        invariant forall j :: 1 <= j < i ==> j in completedSteps
      {
        if i !in completedSteps {
          return false;
        }
        i := i + 1;
      }
      return true;
    }

    /** A step indicator's onClick. */
    method JumpToStep(target: int)
      modifies this
      ensures State() == JumpTo(old(State()), target)
      ensures storage == Persisted(old(State()), State(), old(storage))
      ensures reference == old(reference) && loading == old(loading)
    {
      var before := State();
      var ok := CanSkipToStep(target);
      if ok {
        currentStep := target;
      }
      storage := Persisted(before, State(), storage);
    }

    /** handlePrevious */
    method HandlePrevious()
      modifies this
      ensures State() == Previous(old(State()))
      ensures storage == Persisted(old(State()), State(), old(storage))
      ensures reference == old(reference) && loading == old(loading)
    {
      var before := State();
      if currentStep > 1 {
        currentStep := currentStep - 1;
      }
      storage := Persisted(before, State(), storage);
    }

    /** handleFormChange */
    method HandleFormChange(stepData: StepData)
      modifies this
      ensures State() == FormChange(old(State()), stepData)
      ensures storage == Persisted(old(State()), State(), old(storage))
      ensures reference == old(reference) && loading == old(loading)
    {
      var before := State();
      formData := formData[currentStep := stepData];
      storage := Persisted(before, State(), storage);
    }

    /** clearPersistedData: remove the five keys; the state is left as it is. */
    method ClearPersistedData()
      modifies this
      ensures storage == NoStorage
      ensures State() == old(State()) && reference == old(reference) && loading == old(loading)
    {
      var i := 0;
      while i < |AllKeys|
        invariant 0 <= i <= |AllKeys|
        invariant storage == RemovedUpTo(old(storage), i)
        invariant State() == old(State()) && reference == old(reference) && loading == old(loading)
      {
        storage := Removed(storage, AllKeys[i]);
        i := i + 1;
      }
      RemovingAllKeys(old(storage));
    }

    /** handleNext's step 1 branch: create the account from the contact payload. */
    method CreateAccountStep(server: Server) returns (calls: seq<Call>, alert: Option<string>)
      modifies this
      ensures var c := CommitAccount(old(State()), server);
        State() == c.next && calls == c.calls && alert == c.alert
      ensures storage == old(storage) && reference == old(reference) && loading == old(loading)
    {
      alert := None;
      var call := CreateAccount(ContactOf(formData));
      calls := [call];
      var response := server(0, call);
      if response.Failure? {
        alert := Some(AccountAlert);
        return;
      }
      accountData := response.value;
      completedSteps := Added(completedSteps, 1);
    }

    /** handleNext's step 2 branch: create the company, recording its id. */
    method CreateCompanyStep(server: Server) returns (calls: seq<Call>, alert: Option<string>)
      modifies this
      ensures var c := CommitCompany(old(State()), server);
        State() == c.next && calls == c.calls && alert == c.alert
      ensures storage == old(storage) && reference == old(reference) && loading == old(loading)
    {
      calls, alert := [], None;
      if !Truthy(accountData) {
        alert := Some(CompanyAlertPrefix + MissingAccount);
        return;
      }
      var contact := ContactOf(formData);
      if contact.None? {
        alert := Some(CompanyAlertPrefix + MissingContact);
        return;
      }
      var call := CompanyCall(formData, contact.value);
      calls := [call];
      var response := server(0, call);
      if response.Failure? {
        alert := Some(CompanyAlertPrefix + Message(response.error));
        return;
      }
      if response.value.JNull? {
        alert := Some(CompanyAlertPrefix + NullCompany);
        return;
      }
      companyId := Property(response.value, "id");
      completedSteps := Added(completedSteps, 2);
    }

    /** handleNext's step 3 branch: create the directors one after another,
        stopping at the first failure. */
    method CreateDirectorsStep(server: Server) returns (calls: seq<Call>, alert: Option<string>)
      modifies this
      ensures var c := CommitDirectors(old(State()), server);
        State() == c.next && calls == c.calls && alert == c.alert
      ensures storage == old(storage) && reference == old(reference) && loading == old(loading)
    {
      calls, alert := [], None;
      var roster := DirectorsOf(formData);
      if roster.None? {
        alert := Some(DirectorsAlert);
        return;
      }
      var directors := roster.value;
      var i := 0;
      assert [] + DirectorRun(directors, companyId, server, 0).0 == DirectorRun(directors, companyId, server, 0).0;
      while i < |directors|
        invariant 0 <= i <= |directors|
        invariant DirectorRun(directors, companyId, server, 0)
                  == (calls + DirectorRun(directors, companyId, server, i).0, DirectorRun(directors, companyId, server, i).1)
        invariant State() == old(State()) && storage == old(storage)
        invariant reference == old(reference) && loading == old(loading)
      {
        var call := DirectorCall(directors[i], companyId);
        var rest := DirectorRun(directors, companyId, server, i + 1);
        assert calls + ([call] + rest.0) == (calls + [call]) + rest.0;
        calls := calls + [call];
        if server(i, call).Failure? {
          alert := Some(DirectorsAlert);
          return;
        }
        i := i + 1;
      }
      completedSteps := Added(completedSteps, 3);
    }

    /** handleNext: commit the current step if it is not completed, then move
        on; on the last step submit the AML answers and leave the page. */
    method HandleNext(server: Server) returns (calls: seq<Call>, alert: Option<string>, redirect: Option<string>)
      modifies this
      ensures var o := Advance(old(State()), server);
        && State() == o.next && calls == o.calls && alert == o.alert && redirect == o.redirect
        && storage == (if o.redirect.Some? then NoStorage else Persisted(old(State()), o.next, old(storage)))
      ensures reference == old(reference) && loading == old(loading)
    {
      var before := State();
      calls, alert, redirect := [], None, None;
      if currentStep < StepCount {
        ghost var c :=
          if currentStep == 1 && 1 !in completedSteps then CommitAccount(before, server)
          else if currentStep == 2 && 2 !in completedSteps then CommitCompany(before, server)
          else if currentStep == 3 && 3 !in completedSteps then CommitDirectors(before, server)
          else Outcome(before, [], None, None);
        if currentStep == 1 && 1 !in completedSteps {
          calls, alert := CreateAccountStep(server);
        } else if currentStep == 2 && 2 !in completedSteps {
          calls, alert := CreateCompanyStep(server);
        } else if currentStep == 3 && 3 !in completedSteps {
          calls, alert := CreateDirectorsStep(server);
        }
        assert State() == c.next && calls == c.calls && alert == c.alert;
        if alert.Some? {
          return;
        }
        currentStep := currentStep + 1;
        storage := Persisted(before, State(), storage);
      } else {
        var call := AmlCall(State());
        calls := [call];
        if server(0, call).Failure? {
          alert := Some(SubmitAlert);
          return;
        }
        ClearPersistedData();
        redirect := Some(DocumentsRoute);
      }
    }
  }
}
