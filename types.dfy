/** The records exchanged between the forms, the wizard and the gateway
    (src/lib/types.ts). A key that a JavaScript object may lack is an `Option`
    field; `None` is an absent (or `undefined`) key, which JSON.stringify drops. */
module Types {
  import opened Wrappers

  /** ContactPersonData: the step 1 payload. `username` is declared by the type
      but no form field sets it. */
  datatype ContactPerson = ContactPerson(
    username: Option<string>,
    email: Option<string>,
    fullName: Option<string>,
    position: Option<string>,
    phone: Option<string>)

  /** CompanyDetailsData: the step 2 payload. */
  datatype CompanyDetails = CompanyDetails(
    contactPerson: Option<string>,
    state: Option<string>,
    legalName: Option<string>,
    tradingName: Option<string>,
    countryOfIncorporation: Option<string>,
    incorporationRegistrationNumber: Option<string>,
    registeredAddress: Option<string>,
    operatingAddress: Option<string>,
    companyEmail: Option<string>,
    companyPhone: Option<string>,
    taxCertificate: Option<string>,
    industryCategory: Option<string>,
    legalEntityForm: Option<string>,
    websiteUrl: Option<string>,
    regulatoryLicenseInfo: Option<string>,
    account: Option<string>)

  /** The object `{}`: what spreading an absent company payload contributes. */
  const NoCompanyDetails := CompanyDetails(None, None, None, None, None, None, None, None,
                                           None, None, None, None, None, None, None, None)

  /** Director: one roster entry. `id` is the form's transient identity; the
      ownership percentage is a JavaScript number, kept as a real that is only
      stored and forwarded. */
  datatype Director = Director(
    id: Option<string>,
    company: Option<string>,
    state: Option<string>,
    fullName: string,
    validIdOrPassportNumber: string,
    isUboShareholder: bool,
    ownershipPercentage: real,
    hasOtherDirectors: bool)

  /** AMLComplianceData: the step 4 payload. */
  datatype AmlCompliance = AmlCompliance(
    companyId: Option<string>,
    state: Option<string>,
    isRegulated: Option<bool>,
    hasAmlCftProgram: Option<bool>,
    hasShellOrgPrevention: Option<bool>,
    hasTransactionScreening: Option<bool>,
    amlCftProgramType: Option<string>,
    toolsUsed: Option<string>)

  const NoAmlCompliance := AmlCompliance(None, None, None, None, None, None, None, None)

  /** IndustryVerticalsData (UI only). */
  datatype IndustryVerticals = IndustryVerticals(
    selectedIndustries: Option<seq<string>>,
    otherIndustry: Option<string>)

  /** AcknowledgmentData (UI only). */
  datatype Acknowledgment = Acknowledgment(
    dataAccuracyConfirmed: Option<bool>,
    digitalSignature: Option<string>)
}
