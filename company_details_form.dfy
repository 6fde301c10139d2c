/** The step 2 form (src/components/onboarding/company-details-form.tsx): a
    record state merged from defaults, the two linked fields kept in sync with
    the account and the step 1 contact, and the reference-list selects. */
module CompanyDetailsForm {
  import opened Wrappers
  import opened Types
  import opened Api

  /** `keyof CompanyDetailsData`. */
  datatype CompanyField =
    | ContactPersonField | StateField | LegalName | TradingName | CountryOfIncorporation
    | IncorporationRegistrationNumber | RegisteredAddress | OperatingAddress | CompanyEmail
    | CompanyPhone | TaxCertificate | IndustryCategory | LegalEntityForm | WebsiteUrl
    | RegulatoryLicenseInfo | AccountField

  function Get(c: CompanyDetails, f: CompanyField): Option<string> {
    match f
    case ContactPersonField => c.contactPerson
    case StateField => c.state
    case LegalName => c.legalName
    case TradingName => c.tradingName
    case CountryOfIncorporation => c.countryOfIncorporation
    case IncorporationRegistrationNumber => c.incorporationRegistrationNumber
    case RegisteredAddress => c.registeredAddress
    case OperatingAddress => c.operatingAddress
    case CompanyEmail => c.companyEmail
    case CompanyPhone => c.companyPhone
    case TaxCertificate => c.taxCertificate
    case IndustryCategory => c.industryCategory
    case LegalEntityForm => c.legalEntityForm
    case WebsiteUrl => c.websiteUrl
    case RegulatoryLicenseInfo => c.regulatoryLicenseInfo
    case AccountField => c.account
  }

  /** `{...prev, [field]: value}`. */
  function With(c: CompanyDetails, f: CompanyField, v: string): CompanyDetails {
    match f
    case ContactPersonField => c.(contactPerson := Some(v))
    case StateField => c.(state := Some(v))
    case LegalName => c.(legalName := Some(v))
    case TradingName => c.(tradingName := Some(v))
    case CountryOfIncorporation => c.(countryOfIncorporation := Some(v))
    case IncorporationRegistrationNumber => c.(incorporationRegistrationNumber := Some(v))
    case RegisteredAddress => c.(registeredAddress := Some(v))
    case OperatingAddress => c.(operatingAddress := Some(v))
    case CompanyEmail => c.(companyEmail := Some(v))
    case CompanyPhone => c.(companyPhone := Some(v))
    case TaxCertificate => c.(taxCertificate := Some(v))
    case IndustryCategory => c.(industryCategory := Some(v))
    case LegalEntityForm => c.(legalEntityForm := Some(v))
    case WebsiteUrl => c.(websiteUrl := Some(v))
    case RegulatoryLicenseInfo => c.(regulatoryLicenseInfo := Some(v))
    case AccountField => c.(account := Some(v))
  }

  /** Two records that agree on every field are equal. */
  lemma FieldsDetermineCompany(a: CompanyDetails, b: CompanyDetails)
    requires forall f :: Get(a, f) == Get(b, f)
    ensures a == b
  {
    assert Get(a, ContactPersonField) == Get(b, ContactPersonField);
    assert Get(a, StateField) == Get(b, StateField);
    assert Get(a, LegalName) == Get(b, LegalName);
    assert Get(a, TradingName) == Get(b, TradingName);
    assert Get(a, CountryOfIncorporation) == Get(b, CountryOfIncorporation);
    assert Get(a, IncorporationRegistrationNumber) == Get(b, IncorporationRegistrationNumber);
    assert Get(a, RegisteredAddress) == Get(b, RegisteredAddress);
    assert Get(a, OperatingAddress) == Get(b, OperatingAddress);
    assert Get(a, CompanyEmail) == Get(b, CompanyEmail);
    assert Get(a, CompanyPhone) == Get(b, CompanyPhone);
    assert Get(a, TaxCertificate) == Get(b, TaxCertificate);
    assert Get(a, IndustryCategory) == Get(b, IndustryCategory);
    assert Get(a, LegalEntityForm) == Get(b, LegalEntityForm);
    assert Get(a, WebsiteUrl) == Get(b, WebsiteUrl);
    assert Get(a, RegulatoryLicenseInfo) == Get(b, RegulatoryLicenseInfo);
    assert Get(a, AccountField) == Get(b, AccountField);
  }

  /** `handleChange(field, value)` sets exactly that field. */
  lemma ChangeSetsOnlyItsField(c: CompanyDetails, f: CompanyField, v: string, g: CompanyField)
    ensures Get(With(c, f, v), g) == if g == f then Some(v) else Get(c, g)
  {
  }

  /** Of two edits to one field the later wins. */
  lemma LaterChangeWins(c: CompanyDetails, f: CompanyField, v: string, w: string)
    ensures With(With(c, f, v), f, w) == With(c, f, w)
  {
    forall g ensures Get(With(With(c, f, v), f, w), g) == Get(With(c, f, w), g) {
      ChangeSetsOnlyItsField(With(c, f, v), f, w, g);
      ChangeSetsOnlyItsField(c, f, v, g);
      ChangeSetsOnlyItsField(c, f, w, g);
    }
    FieldsDetermineCompany(With(With(c, f, v), f, w), With(c, f, w));
  }

  /** The thirteen text inputs that start as "". */
  predicate DefaultsToEmpty(f: CompanyField) {
    f != ContactPersonField && f != StateField && f != AccountField
  }

  /** `{legal_name: "", ..., contact_person: accountUsername, account:
      contactPersonName, ...data}`; `state` has no default. */
  function Initial(data: CompanyDetails, accountUsername: Option<string>, contactPersonName: string): CompanyDetails {
    var e := Some("");
    CompanyDetails(
      data.contactPerson.Or(accountUsername), data.state, data.legalName.Or(e), data.tradingName.Or(e),
      data.countryOfIncorporation.Or(e), data.incorporationRegistrationNumber.Or(e),
      data.registeredAddress.Or(e), data.operatingAddress.Or(e), data.companyEmail.Or(e),
      data.companyPhone.Or(e), data.taxCertificate.Or(e), data.industryCategory.Or(e),
      data.legalEntityForm.Or(e), data.websiteUrl.Or(e), data.regulatoryLicenseInfo.Or(e),
      data.account.Or(Some(contactPersonName)))
  }

  /** Every field present in the saved payload keeps its value; an absent
      field takes its default: "" for a text input, the account's username
      for `contact_person`, the contact's name for `account`, none for `state`. */
  lemma InitialOverridesDefaults(data: CompanyDetails, accountUsername: Option<string>, contactPersonName: string, f: CompanyField)
    ensures Get(data, f).Some? ==> Get(Initial(data, accountUsername, contactPersonName), f) == Get(data, f)
    ensures Get(data, f).None? ==>
      Get(Initial(data, accountUsername, contactPersonName), f) ==
        if DefaultsToEmpty(f) then Some("")
        else if f == ContactPersonField then accountUsername
        else if f == AccountField then Some(contactPersonName)
        else None
  {
  }

  // ---------------------------------------------------------------------------
  // The linked-field effect

  /** A JavaScript string is truthy when it is defined and not "". */
  predicate NonEmpty(s: Option<string>) {
    s.Some? && s.value != ""
  }

  /** `{...prev, ...updates}` for a partial record. */
  function Overlaid(prev: CompanyDetails, updates: CompanyDetails): (r: CompanyDetails)
    ensures forall f :: Get(r, f) == Get(updates, f).Or(Get(prev, f))
  {
    CompanyDetails(
      updates.contactPerson.Or(prev.contactPerson), updates.state.Or(prev.state),
      updates.legalName.Or(prev.legalName), updates.tradingName.Or(prev.tradingName),
      updates.countryOfIncorporation.Or(prev.countryOfIncorporation),
      updates.incorporationRegistrationNumber.Or(prev.incorporationRegistrationNumber),
      updates.registeredAddress.Or(prev.registeredAddress), updates.operatingAddress.Or(prev.operatingAddress),
      updates.companyEmail.Or(prev.companyEmail), updates.companyPhone.Or(prev.companyPhone),
      updates.taxCertificate.Or(prev.taxCertificate), updates.industryCategory.Or(prev.industryCategory),
      updates.legalEntityForm.Or(prev.legalEntityForm), updates.websiteUrl.Or(prev.websiteUrl),
      updates.regulatoryLicenseInfo.Or(prev.regulatoryLicenseInfo), updates.account.Or(prev.account))
  }

  /** Whether the effect rewrites `contact_person`, and whether `account`. */
  predicate ContactNeedsSync(form: CompanyDetails, accountUsername: Option<string>) {
    NonEmpty(accountUsername) && form.contactPerson != accountUsername
  }

  predicate AccountNeedsSync(form: CompanyDetails, contactPersonName: string) {
    contactPersonName != "" && form.account != Some(contactPersonName)
  }

  /** The state after the effect: `formData` overlaid with its `updates`
      when `hasChanged`, unchanged otherwise. */
  function Synced(form: CompanyDetails, accountUsername: Option<string>, contactPersonName: string): CompanyDetails {
    var u1 := if ContactNeedsSync(form, accountUsername) then NoCompanyDetails.(contactPerson := accountUsername) else NoCompanyDetails;
    var u2 := if AccountNeedsSync(form, contactPersonName) then u1.(account := Some(contactPersonName)) else u1;
    if ContactNeedsSync(form, accountUsername) || AccountNeedsSync(form, contactPersonName) then Overlaid(form, u2) else form
  }

  /** The sync rule: `contact_person` becomes the username when that is
      non-empty and differs, `account` becomes the contact's name when that is
      non-empty and differs, and no other field changes. */
  lemma SyncRule(form: CompanyDetails, accountUsername: Option<string>, contactPersonName: string, f: CompanyField)
    ensures Get(Synced(form, accountUsername, contactPersonName), f) ==
      if f == ContactPersonField && ContactNeedsSync(form, accountUsername) then accountUsername
      else if f == AccountField && AccountNeedsSync(form, contactPersonName) then Some(contactPersonName)
      else Get(form, f)
  {
  }

  /** Once synced, the effect finds nothing to update and leaves the state
      as it is. */
  lemma SyncIdempotent(form: CompanyDetails, accountUsername: Option<string>, contactPersonName: string)
    ensures var once := Synced(form, accountUsername, contactPersonName);
      !ContactNeedsSync(once, accountUsername) && !AccountNeedsSync(once, contactPersonName) &&
      Synced(once, accountUsername, contactPersonName) == once
  {
    SyncRule(form, accountUsername, contactPersonName, ContactPersonField);
    SyncRule(form, accountUsername, contactPersonName, AccountField);
  }

  /** The effect's test for `onChange`: `JSON.stringify(formData) !== JSON.stringify(data)`. */
  predicate Notifies(form: CompanyDetails, data: CompanyDetails) {
    form != data
  }

  // ---------------------------------------------------------------------------
  // Reference-list selects

  /** An entry of a select: an option valued by an entry's `name`, or the
      disabled placeholder valued "loading". */
  datatype SelectItem = Choice(value: Option<Json>) | Placeholder(value: Option<Json>, caption: string)

  const LegalEntityFormsLoading := "Loading legal entity forms..."
  const IndustryCategoriesLoading := "Loading industry categories..."

  /** The items of a select over a reference list. */
  function SelectItems(list: seq<Json>, loadingLabel: string): (r: seq<SelectItem>)
    ensures |list| == 0 ==> r == [Placeholder(Some(JStr("loading")), loadingLabel)]
    ensures |list| > 0 ==> |r| == |list| && forall i :: 0 <= i < |r| ==> r[i] == Choice(NamesOf(list)[i])
  {
    if |list| == 0 then [Placeholder(Some(JStr("loading")), loadingLabel)]
    else
      var names := NamesOf(list);
      seq(|list|, i requires 0 <= i < |list| => Choice(names[i]))
  }

  /** The placeholder is offered exactly when the list is empty, and it is
      then the only item; otherwise the choosable values are the entries'
      names in list order. */
  lemma PlaceholderOnlyWhenEmpty(list: seq<Json>, loadingLabel: string)
    ensures (exists i :: 0 <= i < |SelectItems(list, loadingLabel)| && SelectItems(list, loadingLabel)[i].Placeholder?) <==> |list| == 0
    ensures |list| > 0 ==> forall i :: 0 <= i < |list| ==> SelectItems(list, loadingLabel)[i].value == Property(list[i], "name")
  {
    if |list| == 0 {
      assert SelectItems(list, loadingLabel)[0].Placeholder?;
    }
  }

  /** The red "No ... available" note under a select. */
  predicate WarnsEmpty(list: seq<Json>) {
    |list| == 0
  }

  /** The component: its form state and its props. */
  class CompanyDetailsForm {
    var formData: CompanyDetails
    const data: CompanyDetails

    constructor (data: CompanyDetails, accountUsername: Option<string>, contactPersonName: string)
      ensures this.data == data && formData == Initial(data, accountUsername, contactPersonName)
    {
      this.data := data;
      formData := Initial(data, accountUsername, contactPersonName);
    }

    predicate ShouldNotify()
      reads this
    {
      Notifies(formData, data)
    }

    method HandleChange(f: CompanyField, v: string)
      modifies this
      ensures formData == With(old(formData), f, v)
    {
      formData := With(formData, f, v);
    }

    /** The linked-field effect, building `updates` with a `hasChanged` flag. */
    method SyncLinkedFields(accountUsername: Option<string>, contactPersonName: string) returns (hasChanged: bool)
      modifies this
      ensures hasChanged <==> ContactNeedsSync(old(formData), accountUsername) || AccountNeedsSync(old(formData), contactPersonName)
      ensures formData == Synced(old(formData), accountUsername, contactPersonName)
    {
      hasChanged := false;
      var updates := NoCompanyDetails;
      if NonEmpty(accountUsername) && formData.contactPerson != accountUsername {
        updates := updates.(contactPerson := accountUsername);
        hasChanged := true;
      }
      if contactPersonName != "" && formData.account != Some(contactPersonName) {
        updates := updates.(account := Some(contactPersonName));
        hasChanged := true;
      }
      if hasChanged {
        formData := Overlaid(formData, updates);
      }
    }
  }
}
