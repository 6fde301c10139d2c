/** The acknowledgment form (src/components/onboarding/acknowledgement-form.tsx):
    a confirmation checkbox and a typed signature, and the warning shown
    until both are given. */
module AcknowledgementForm {
  import opened Wrappers
  import opened Types

  /** `{dataAccuracyConfirmed: false, digitalSignature: "", ...data}`. */
  function Initial(data: Acknowledgment): Acknowledgment {
    Acknowledgment(data.dataAccuracyConfirmed.Or(Some(false)), data.digitalSignature.Or(Some("")))
  }

  /** The two inputs' calls of `handleChange(field, value)`. */
  datatype AckEdit = Confirm(checked: bool) | Sign(signature: string)

  function Edited(a: Acknowledgment, e: AckEdit): Acknowledgment {
    match e
    case Confirm(c) => a.(dataAccuracyConfirmed := Some(c))
    case Sign(s) => a.(digitalSignature := Some(s))
  }

  /** An edit changes only its own field. */
  lemma EditChangesOnlyItsField(a: Acknowledgment, e: AckEdit)
    ensures e.Confirm? ==> Edited(a, e).dataAccuracyConfirmed == Some(e.checked) && Edited(a, e).digitalSignature == a.digitalSignature
    ensures e.Sign? ==> Edited(a, e).digitalSignature == Some(e.signature) && Edited(a, e).dataAccuracyConfirmed == a.dataAccuracyConfirmed
  {
  }

  /** Checking the box and signing commute. */
  lemma EditsOfDifferentFieldsCommute(a: Acknowledgment, c: bool, s: string)
    ensures Edited(Edited(a, Confirm(c)), Sign(s)) == Edited(Edited(a, Sign(s)), Confirm(c))
  {
  }

  /** `!formData.dataAccuracyConfirmed || !formData.digitalSignature`. */
  predicate Warns(a: Acknowledgment) {
    !(a.dataAccuracyConfirmed.Some? && a.dataAccuracyConfirmed.value) ||
    !(a.digitalSignature.Some? && a.digitalSignature.value != "")
  }

  /** The warning disappears exactly when the box is checked and the
      signature is not empty. */
  lemma WarningRule(a: Acknowledgment)
    ensures !Warns(a) <==> a.dataAccuracyConfirmed == Some(true) && a.digitalSignature.Some? && |a.digitalSignature.value| > 0
  {
  }

  /** A fresh form warns; confirming and signing with any non-empty name
      clears the warning, in either order, and unchecking brings it back. */
  lemma WarningLifecycle(data: Acknowledgment, name: string)
    requires name != ""
    ensures Warns(Initial(Acknowledgment(None, None)))
    ensures !Warns(Edited(Edited(Initial(data), Confirm(true)), Sign(name)))
    ensures !Warns(Edited(Edited(Initial(data), Sign(name)), Confirm(true)))
    ensures Warns(Edited(Edited(Edited(Initial(data), Confirm(true)), Sign(name)), Confirm(false)))
  {
  }

  /** The effect's test for `onChange`. */
  predicate Notifies(form: Acknowledgment, data: Acknowledgment) {
    form != data
  }

  /** Mounting reports the form exactly when the payload lacked a field. */
  lemma MountNotifiesIffFieldMissing(data: Acknowledgment)
    ensures Notifies(Initial(data), data) <==> data.dataAccuracyConfirmed.None? || data.digitalSignature.None?
  {
  }

  /** The component: its form state and the payload it was given. */
  class AcknowledgmentForm {
    var formData: Acknowledgment
    const data: Acknowledgment

    constructor (data: Acknowledgment)
      ensures this.data == data && formData == Initial(data)
    {
      this.data := data;
      formData := Initial(data);
    }

    predicate ShouldNotify()
      reads this
    {
      Notifies(formData, data)
    }

    /** Whether the yellow warning is rendered. */
    predicate ShowsWarning()
      reads this
    {
      Warns(formData)
    }

    method HandleChange(e: AckEdit)
      modifies this
      ensures formData == Edited(old(formData), e)
    {
      formData := Edited(formData, e);
    }
  }
}
