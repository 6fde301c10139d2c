/** The step 4 form (src/components/onboarding/aml-compliance-form.tsx): a
    record state merged from defaults, four yes/no radio groups and two text
    answers, and the program-type select. */
module AmlComplianceForm {
  import opened Wrappers
  import opened Types
  import opened Api

  /** The four yes/no questions, each a radio group. */
  datatype AmlFlag = IsRegulated | HasAmlCftProgram | HasShellOrgPrevention | HasTransactionScreening

  /** The two text answers. */
  datatype AmlText = AmlCftProgramType | ToolsUsed

  function GetFlag(a: AmlCompliance, f: AmlFlag): Option<bool> {
    match f
    case IsRegulated => a.isRegulated
    case HasAmlCftProgram => a.hasAmlCftProgram
    case HasShellOrgPrevention => a.hasShellOrgPrevention
    case HasTransactionScreening => a.hasTransactionScreening
  }

  function GetText(a: AmlCompliance, t: AmlText): Option<string> {
    match t
    case AmlCftProgramType => a.amlCftProgramType
    case ToolsUsed => a.toolsUsed
  }

  /** Two records that agree on the company, the state and every answer are equal. */
  lemma AnswersDetermineRecord(a: AmlCompliance, b: AmlCompliance)
    requires a.companyId == b.companyId && a.state == b.state
    requires forall f :: GetFlag(a, f) == GetFlag(b, f)
    requires forall t :: GetText(a, t) == GetText(b, t)
    ensures a == b
  {
    assert GetFlag(a, IsRegulated) == GetFlag(b, IsRegulated);
    assert GetFlag(a, HasAmlCftProgram) == GetFlag(b, HasAmlCftProgram);
    assert GetFlag(a, HasShellOrgPrevention) == GetFlag(b, HasShellOrgPrevention);
    assert GetFlag(a, HasTransactionScreening) == GetFlag(b, HasTransactionScreening);
    assert GetText(a, AmlCftProgramType) == GetText(b, AmlCftProgramType);
    assert GetText(a, ToolsUsed) == GetText(b, ToolsUsed);
  }

  /** `{is_regulated: false, ..., aml_cft_program_type: "", tools_used: "", ...data}`. */
  function Initial(data: AmlCompliance): AmlCompliance {
    var no := Some(false);
    AmlCompliance(data.companyId, data.state, data.isRegulated.Or(no), data.hasAmlCftProgram.Or(no),
                  data.hasShellOrgPrevention.Or(no), data.hasTransactionScreening.Or(no),
                  data.amlCftProgramType.Or(Some("")), data.toolsUsed.Or(Some("")))
  }

  /** Saved answers are kept; a missing yes/no answer starts as no and a
      missing text as ""; the company and state keys pass through. */
  lemma InitialOverridesDefaults(data: AmlCompliance, f: AmlFlag, t: AmlText)
    ensures GetFlag(Initial(data), f) == if GetFlag(data, f).Some? then GetFlag(data, f) else Some(false)
    ensures GetText(Initial(data), t) == if GetText(data, t).Some? then GetText(data, t) else Some("")
    ensures Initial(data).companyId == data.companyId && Initial(data).state == data.state
  {
  }

  /** A radio group's value: `value === "true"`. */
  function FromRadio(value: string): (b: bool)
    ensures b <==> value == "true"
  {
    value == "true"
  }

  /** `formData.is_regulated.toString()`, the group's displayed value. */
  function RadioText(b: bool): string {
    if b then "true" else "false"
  }

  /** Choosing the displayed value keeps the answer; the label of the other
      item flips it. */
  lemma RadioRoundTrip(b: bool)
    ensures FromRadio(RadioText(b)) == b
    ensures FromRadio(RadioText(!b)) == !b
  {
  }

  /** `handleBooleanChange(field, value)`. */
  function WithFlag(a: AmlCompliance, f: AmlFlag, value: string): AmlCompliance {
    var b := Some(FromRadio(value));
    match f
    case IsRegulated => a.(isRegulated := b)
    case HasAmlCftProgram => a.(hasAmlCftProgram := b)
    case HasShellOrgPrevention => a.(hasShellOrgPrevention := b)
    case HasTransactionScreening => a.(hasTransactionScreening := b)
  }

  /** `handleStringChange(field, value)`. */
  function WithText(a: AmlCompliance, t: AmlText, value: string): AmlCompliance {
    match t
    case AmlCftProgramType => a.(amlCftProgramType := Some(value))
    case ToolsUsed => a.(toolsUsed := Some(value))
  }

  /** A radio change stores true exactly for "true" in its own question and
      leaves every other answer, the company and the state alone. */
  lemma FlagChangeOnlyItsAnswer(a: AmlCompliance, f: AmlFlag, value: string, g: AmlFlag, t: AmlText)
    ensures GetFlag(WithFlag(a, f, value), g) == if g == f then Some(value == "true") else GetFlag(a, g)
    ensures GetText(WithFlag(a, f, value), t) == GetText(a, t)
    ensures WithFlag(a, f, value).companyId == a.companyId && WithFlag(a, f, value).state == a.state
  {
  }

  /** A text change stores the value verbatim in its own answer only. */
  lemma TextChangeOnlyItsAnswer(a: AmlCompliance, t: AmlText, value: string, f: AmlFlag, u: AmlText)
    ensures GetText(WithText(a, t, value), u) == if u == t then Some(value) else GetText(a, u)
    ensures GetFlag(WithText(a, t, value), f) == GetFlag(a, f)
    ensures WithText(a, t, value).companyId == a.companyId && WithText(a, t, value).state == a.state
  {
  }

  /** Re-choosing a question's current answer leaves the record as it is. */
  lemma SameAnswerNoChange(a: AmlCompliance, f: AmlFlag, b: bool)
    requires GetFlag(a, f) == Some(b)
    ensures WithFlag(a, f, RadioText(b)) == a
  {
    forall g ensures GetFlag(WithFlag(a, f, RadioText(b)), g) == GetFlag(a, g) {
      FlagChangeOnlyItsAnswer(a, f, RadioText(b), g, ToolsUsed);
    }
    forall t ensures GetText(WithFlag(a, f, RadioText(b)), t) == GetText(a, t) {
      FlagChangeOnlyItsAnswer(a, f, RadioText(b), f, t);
    }
    AnswersDetermineRecord(WithFlag(a, f, RadioText(b)), a);
  }

  /** The program-type select: one option per entry, valued `type.name`, in
      order; unlike the company form there is no placeholder for an empty list. */
  function ProgramTypeOptions(amlProgramTypes: seq<Json>): (r: seq<Option<Json>>)
    ensures |r| == |amlProgramTypes|
    ensures forall i :: 0 <= i < |r| ==> r[i] == Property(amlProgramTypes[i], "name")
  {
    NamesOf(amlProgramTypes)
  }

  /** The effect's test for `onChange`. */
  predicate Notifies(form: AmlCompliance, data: AmlCompliance) {
    form != data
  }

  /** Mounting reports the form exactly when the payload lacked an answer. */
  lemma MountNotifiesIffAnswerMissing(data: AmlCompliance)
    ensures Notifies(Initial(data), data) <==>
      data.isRegulated.None? || data.hasAmlCftProgram.None? || data.hasShellOrgPrevention.None? ||
      data.hasTransactionScreening.None? || data.amlCftProgramType.None? || data.toolsUsed.None?
  {
  }

  /** The component: its form state and the payload it was given. */
  class AmlComplianceForm {
    var formData: AmlCompliance
    const data: AmlCompliance

    constructor (data: AmlCompliance)
      ensures this.data == data && formData == Initial(data)
    {
      this.data := data;
      formData := Initial(data);
    }

    predicate ShouldNotify()
      reads this
    {
      Notifies(formData, data)
    }

    method HandleBooleanChange(f: AmlFlag, value: string)
      modifies this
      ensures formData == WithFlag(old(formData), f, value)
    {
      formData := WithFlag(formData, f, value);
    }

    method HandleStringChange(t: AmlText, value: string)
      modifies this
      ensures formData == WithText(old(formData), t, value)
    {
      formData := WithText(formData, t, value);
    }
  }
}
