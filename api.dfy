/** The data rules of the HTTP gateway (src/lib/api.ts): what `request` makes of
    a response, the error-message rule, and the field projections that turn step
    payloads into request bodies. JSON documents are values of `Json`; the
    transport itself is not modelled. */
module Api {
  import opened Wrappers
  import opened Types

  /** A parsed JSON document. Numbers are integers here (floats are not modelled). */
  datatype Json =
    | JNull
    | JBool(b: bool)
    | JNum(n: int)
    | JStr(s: string)
    | JArr(items: seq<Json>)
    | JObj(fields: map<string, Json>)

  const EmptyObject := JObj(map[])

  /** JavaScript truthiness of a JSON value (NaN cannot occur). */
  predicate Truthy(v: Json) {
    match v
    case JNull => false
    case JBool(b) => b
    case JNum(n) => n != 0
    case JStr(s) => s != ""
    case JArr(_) => true
    case JObj(_) => true
  }

  /** `v[key]` on a non-null value: only objects carry the keys this code reads
      ("message", "error", "data", "status", "id"); `None` is `undefined`. */
  function Property(v: Json, key: string): (r: Option<Json>)
    ensures r.Some? <==> v.JObj? && key in v.fields
    ensures r.Some? ==> r.value == v.fields[key]
  {
    if v.JObj? && key in v.fields then Some(v.fields[key]) else None
  }

  predicate TruthyProperty(v: Json, key: string) {
    var p := Property(v, key);
    p.Some? && Truthy(p.value)
  }

  /** `item.name` of each entry of a reference list (IndustryCategory,
      LegalEntityForm, AMLProgramType), in order. */
  function NamesOf(items: seq<Json>): (r: seq<Option<Json>>)
    ensures |r| == |items|
    ensures forall i :: 0 <= i < |items| ==> r[i] == Property(items[i], "name")
  {
    seq(|items|, i requires 0 <= i < |items| => Property(items[i], "name"))
  }

  // ---------------------------------------------------------------------------
  // Decimal text of numbers (template literals and String()).

  predicate IsDigit(c: char) { '0' <= c <= '9' }

  function DigitChar(d: nat): (c: char)
    requires d < 10
    ensures IsDigit(c) && c as int - '0' as int == d
  {
    ('0' as int + d) as char
  }

  /** `${n}` for a natural number: its shortest decimal spelling. */
  function NatToString(n: nat): (s: string)
    ensures |s| > 0 && forall i :: 0 <= i < |s| ==> IsDigit(s[i])
    ensures |s| > 1 ==> s[0] != '0'
  {
    if n < 10 then [DigitChar(n)] else NatToString(n / 10) + [DigitChar(n % 10)]
  }

  /** Reads a string of decimal digits back as a number (the inverse partner of NatToString). */
  function DigitsValue(s: string): nat
    requires forall i :: 0 <= i < |s| ==> IsDigit(s[i])
  {
    if s == [] then 0
    else
      assert IsDigit(s[|s| - 1]);
      DigitsValue(s[..|s| - 1]) * 10 + (s[|s| - 1] as int - '0' as int)
  }

  lemma {:induction false} NatToStringRoundTrip(n: nat)
    ensures DigitsValue(NatToString(n)) == n
  {
    if n >= 10 {
      NatToStringRoundTrip(n / 10);
      var s := NatToString(n);
      assert s[..|s| - 1] == NatToString(n / 10);
    }
  }

  /** Two different numbers never print the same (the message rule below relies on it). */
  lemma NatToStringInjective(m: nat, n: nat)
    requires NatToString(m) == NatToString(n)
    ensures m == n
  {
    NatToStringRoundTrip(m);
    NatToStringRoundTrip(n);
  }

  function IntToString(n: int): string {
    if n < 0 then "-" + NatToString(-n) else NatToString(n)
  }

  /** String(v): the message `new Error(v)` carries. Array elements that are null
      print as empty, as Array.prototype.join does. */
  function JsString(v: Json): string
    decreases v, 1
  {
    match v
    case JNull => "null"
    case JBool(b) => if b then "true" else "false"
    case JNum(n) => IntToString(n)
    case JStr(s) => s
    case JArr(items) => JoinedItems(items, v)
    case JObj(_) => "[object Object]"
  }

  function JoinedItems(items: seq<Json>, ghost parent: Json): string
    requires forall i :: 0 <= i < |items| ==> items[i] < parent
    decreases parent, 0, |items|
  {
    if items == [] then ""
    else
      var head := if items[0].JNull? then "" else JsString(items[0]);
      if |items| == 1 then head else head + "," + JoinedItems(items[1..], parent)
  }

  // ---------------------------------------------------------------------------
  // The response rules.

  /** What a call to the gateway can reject with. */
  datatype Thrown =
    | ErrorWithMessage(value: Json)   // new Error(data.message || data.error)
    | ErrorWithStatus(status: nat)    // new Error(`HTTP error! status: ${status}`)
    | ReadOnNull                      // a `null` error body: reading `.message` throws a TypeError
    | UnreadableBody                  // upload only: response.json() rejects
    | FetchFailed                     // fetch itself rejects (no response at all)

  /** error.message of each kind. The TypeError, SyntaxError and fetch texts are
      the wording of the V8 engine and differ between browsers. */
  function Message(t: Thrown): string {
    match t
    case ErrorWithMessage(v) => JsString(v)
    case ErrorWithStatus(s) => StatusMessage(s)
    case ReadOnNull => "Cannot read properties of null (reading 'message')"
    case UnreadableBody => "Unexpected end of JSON input"
    case FetchFailed => "Failed to fetch"
  }

  function StatusMessage(status: nat): string {
    "HTTP error! status: " + NatToString(status)
  }

  /** The result of one fetch: a response with its status and its body as
      response.json() reads it (`None`: the body is empty or not JSON). */
  datatype Exchange =
    | Responded(ok: bool, status: nat, body: Option<Json>)
    | NoResponse

  /** `data.message || data.error || "HTTP error! status: " + status` (api.ts:60, 265). */
  function ErrorFor(data: Json, status: nat): (t: Thrown)
    ensures t.ReadOnNull? <==> data.JNull?
    ensures t.ErrorWithStatus? ==> t.status == status
  {
    if data.JNull? then ReadOnNull
    else if TruthyProperty(data, "message") then ErrorWithMessage(data.fields["message"])
    else if TruthyProperty(data, "error") then ErrorWithMessage(data.fields["error"])
    else ErrorWithStatus(status)
  }

  /** The Django envelope `{ message, data, status: "success" }`. */
  predicate IsEnvelope(data: Json) {
    data.JObj? && "data" in data.fields && Property(data, "status") == Some(JStr("success"))
  }

  function Unwrapped(data: Json): Json {
    if IsEnvelope(data) then data.fields["data"] else data
  }

  /** ApiClient.request (api.ts:28-76): an unreadable body counts as `{}`; a
      non-OK status rejects with the selected message; otherwise the envelope is
      unwrapped when there is one. */
  function Request(x: Exchange): (r: Result<Json, Thrown>)
    ensures x.NoResponse? ==> r == Failure(FetchFailed)
    ensures x.Responded? ==> (r.Success? <==> x.ok)
  {
    match x
    case NoResponse => Failure(FetchFailed)
    case Responded(ok, status, body) =>
      var data := body.GetOr(EmptyObject);
      if !ok then Failure(ErrorFor(data, status)) else Success(Unwrapped(data))
  }

  /** ApiClient.uploadDocument (api.ts:249-275): the same message rule, but the
      body is read without a fallback and returned without unwrapping. */
  function UploadDocument(x: Exchange): (r: Result<Json, Thrown>)
    ensures x.Responded? && x.body.None? ==> r == Failure(UnreadableBody)
    ensures r.Success? <==> x.Responded? && x.ok && x.body.Some?
  {
    match x
    case NoResponse => Failure(FetchFailed)
    case Responded(ok, status, body) =>
      match body
      case None => Failure(UnreadableBody)
      case Some(data) => if !ok then Failure(ErrorFor(data, status)) else Success(data)
  }

  // How the Django side writes its bodies: the partners of the rules above.

  function Envelope(payload: Json, message: string): Json {
    JObj(map["message" := JStr(message), "data" := payload, "status" := JStr("success")])
  }

  function ErrorBody(key: string, message: string): Json {
    JObj(map[key := JStr(message)])
  }

  lemma EnvelopeRoundTrip(payload: Json, message: string, status: nat)
    ensures Request(Responded(true, status, Some(Envelope(payload, message)))) == Success(payload)
  {
  }

  /** A body without the envelope, or with a status other than "success", comes back whole. */
  lemma NonEnvelopePassesThrough(data: Json, status: nat)
    requires !IsEnvelope(data)
    ensures Request(Responded(true, status, Some(data))) == Success(data)
  {
  }

  lemma UnreadableBodyIsEmptyObject(ok: bool, status: nat)
    ensures Request(Responded(ok, status, None)) == Request(Responded(ok, status, Some(EmptyObject)))
    ensures !ok ==> Message(Request(Responded(ok, status, None)).error) == StatusMessage(status)
    ensures ok ==> Request(Responded(ok, status, None)) == Success(EmptyObject)
  {
  }

  /** The server's message reaches the caller verbatim whether it sits under
      "message" or under "error"; "message" wins when both are set. */
  lemma ServerMessageSurfaces(key: string, message: string, status: nat)
    requires key == "message" || key == "error"
    requires message != ""
    ensures Request(Responded(false, status, Some(ErrorBody(key, message)))) == Failure(ErrorWithMessage(JStr(message)))
    ensures Message(Request(Responded(false, status, Some(ErrorBody(key, message)))).error) == message
  {
  }

  lemma MessageBeatsError(m: string, e: string, status: nat)
    requires m != ""
    ensures ErrorFor(JObj(map["message" := JStr(m), "error" := JStr(e)]), status) == ErrorWithMessage(JStr(m))
  {
  }

  /** Without a usable message the error names the status, and different
      statuses give different messages. */
  lemma StatusMessageWhenNoText(data: Json, status: nat)
    requires !data.JNull? && !TruthyProperty(data, "message") && !TruthyProperty(data, "error")
    ensures Message(ErrorFor(data, status)) == StatusMessage(status)
    ensures forall other: nat :: StatusMessage(other) == StatusMessage(status) ==> other == status
  {
    forall other: nat | StatusMessage(other) == StatusMessage(status)
      ensures other == status
    {
      var prefix := "HTTP error! status: ";
      assert NatToString(other) == StatusMessage(other)[|prefix|..];
      assert NatToString(status) == StatusMessage(status)[|prefix|..];
      NatToStringInjective(other, status);
    }
  }

  /** uploadDocument rejects exactly as request does on a readable non-OK body,
      and on success returns the body even when it is an envelope. */
  lemma UploadSharesErrorRule(status: nat, data: Json)
    ensures UploadDocument(Responded(false, status, Some(data))) == Request(Responded(false, status, Some(data)))
    ensures UploadDocument(Responded(true, status, Some(data))) == Success(data)
  {
  }

  lemma UploadDoesNotUnwrap(payload: Json, status: nat)
    ensures UploadDocument(Responded(true, status, Some(Envelope(payload, "")))) == Success(Envelope(payload, ""))
    ensures Request(Responded(true, status, Some(Envelope(payload, "")))) == Success(payload)
  {
  }

  // ---------------------------------------------------------------------------
  // Request bodies (api.ts:89-105, 116-124, 135-144).

  /** The createCompany body: the fifteen listed keys and nothing else. */
  datatype CompanyBody = CompanyBody(
    contactPerson: Option<string>,
    state: Option<string>,
    legalName: Option<string>,
    tradingName: Option<string>,
    countryOfIncorporation: Option<string>,
    incorporationRegistrationNumber: Option<string>,
    registeredAddress: Option<string>,
    operatingAddress: Option<string>,
    companyEmail: Option<string>,
    companyPhone: Option<string>,
    taxCertificate: Option<string>,
    industryCategory: Option<string>,
    legalEntityForm: Option<string>,
    websiteUrl: Option<string>,
    regulatoryLicenseInfo: Option<string>)

  /** The createDirector body: `id` is not among its keys. The company is a
      JSON value because the wizard puts the company id there as the server
      returned it. */
  datatype DirectorBody = DirectorBody(
    company: Option<Json>,
    state: Option<string>,
    fullName: string,
    validIdOrPassportNumber: string,
    isUboShareholder: bool,
    ownershipPercentage: real,
    hasOtherDirectors: bool)

  /** The createAMLCompliance body: the company travels under the key "company". */
  datatype AmlBody = AmlBody(
    company: Option<Json>,
    state: Option<string>,
    isRegulated: Option<bool>,
    hasAmlCftProgram: Option<bool>,
    hasShellOrgPrevention: Option<bool>,
    hasTransactionScreening: Option<bool>,
    amlCftProgramType: Option<string>,
    toolsUsed: Option<string>)

  /** A string-typed payload field as the JSON value it is sent as. */
  function StringValue(o: Option<string>): (r: Option<Json>)
    ensures r.Some? <==> o.Some?
  {
    if o.Some? then Some(JStr(o.value)) else None
  }

  function StringOfValue(o: Option<Json>): Option<string> {
    if o.Some? && o.value.JStr? then Some(o.value.s) else None
  }

  function CompanyBodyOf(d: CompanyDetails): CompanyBody {
    CompanyBody(d.contactPerson, d.state, d.legalName, d.tradingName, d.countryOfIncorporation,
                d.incorporationRegistrationNumber, d.registeredAddress, d.operatingAddress,
                d.companyEmail, d.companyPhone, d.taxCertificate, d.industryCategory,
                d.legalEntityForm, d.websiteUrl, d.regulatoryLicenseInfo)
  }

  function DirectorBodyOf(d: Director): DirectorBody {
    DirectorBody(StringValue(d.company), d.state, d.fullName, d.validIdOrPassportNumber,
                 d.isUboShareholder, d.ownershipPercentage, d.hasOtherDirectors)
  }

  function AmlBodyOf(d: AmlCompliance): AmlBody {
    AmlBody(StringValue(d.companyId), d.state, d.isRegulated, d.hasAmlCftProgram, d.hasShellOrgPrevention,
            d.hasTransactionScreening, d.amlCftProgramType, d.toolsUsed)
  }

  // Reading a body back as a payload: the partners of the projections.

  function CompanyOfBody(b: CompanyBody): CompanyDetails {
    CompanyDetails(b.contactPerson, b.state, b.legalName, b.tradingName, b.countryOfIncorporation,
                   b.incorporationRegistrationNumber, b.registeredAddress, b.operatingAddress,
                   b.companyEmail, b.companyPhone, b.taxCertificate, b.industryCategory,
                   b.legalEntityForm, b.websiteUrl, b.regulatoryLicenseInfo, None)
  }

  function DirectorOfBody(b: DirectorBody): Director {
    Director(None, StringOfValue(b.company), b.state, b.fullName, b.validIdOrPassportNumber,
             b.isUboShareholder, b.ownershipPercentage, b.hasOtherDirectors)
  }

  function AmlOfBody(b: AmlBody): AmlCompliance {
    AmlCompliance(StringOfValue(b.company), b.state, b.isRegulated, b.hasAmlCftProgram, b.hasShellOrgPrevention,
                  b.hasTransactionScreening, b.amlCftProgramType, b.toolsUsed)
  }

  /** Everything but `account` survives the company projection, and `account`
      never influences the body. */
  lemma CompanyProjection(d: CompanyDetails, account: Option<string>)
    ensures CompanyOfBody(CompanyBodyOf(d)) == d.(account := None)
    ensures CompanyBodyOf(d.(account := account)) == CompanyBodyOf(d)
    ensures CompanyBodyOf(CompanyOfBody(CompanyBodyOf(d))) == CompanyBodyOf(d)
  {
  }

  /** The director projection forgets exactly the transient id. */
  lemma DirectorProjection(d: Director, id: Option<string>)
    ensures DirectorOfBody(DirectorBodyOf(d)) == d.(id := None)
    ensures DirectorBodyOf(d.(id := id)) == DirectorBodyOf(d)
  {
  }

  /** The AML projection is a pure renaming: nothing is lost. */
  lemma AmlProjection(d: AmlCompliance)
    ensures AmlOfBody(AmlBodyOf(d)) == d
    ensures AmlBodyOf(d).company == StringValue(d.companyId)
  {
  }

  // ---------------------------------------------------------------------------
  // The four create calls the wizard makes.

  datatype Call =
    | CreateAccount(account: Option<ContactPerson>)   // None: formData[1] is absent, the body is undefined
    | CreateCompany(company: CompanyBody)
    | CreateDirector(director: DirectorBody)
    | CreateAmlCompliance(compliance: AmlBody)

  /** The endpoint each call is POSTed to. */
  function Endpoint(c: Call): string {
    match c
    case CreateAccount(_) => "/base/accounts/create/"
    case CreateCompany(_) => "/core/companies/create/"
    case CreateDirector(_) => "/core/directors/create/"
    case CreateAmlCompliance(_) => "/core/aml-compliance/create/"
  }
}
