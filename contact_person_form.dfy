/** The step 1 form (src/components/onboarding/contact-person-form.tsx): a
    record state merged from defaults and the saved payload, updated one field
    at a time, and the E.164 pattern of its phone input. */
module ContactPersonForm {
  import opened Wrappers
  import opened Types
  import Api

  /** `keyof ContactPersonData`. */
  datatype ContactField = Username | Email | FullName | Position | Phone

  function Get(c: ContactPerson, f: ContactField): Option<string> {
    match f
    case Username => c.username
    case Email => c.email
    case FullName => c.fullName
    case Position => c.position
    case Phone => c.phone
  }

  /** `{...prev, [field]: value}`. */
  function With(c: ContactPerson, f: ContactField, v: string): ContactPerson {
    match f
    case Username => c.(username := Some(v))
    case Email => c.(email := Some(v))
    case FullName => c.(fullName := Some(v))
    case Position => c.(position := Some(v))
    case Phone => c.(phone := Some(v))
  }

  /** Two records that agree on every field are equal. */
  lemma FieldsDetermineContact(a: ContactPerson, b: ContactPerson)
    requires forall f :: Get(a, f) == Get(b, f)
    ensures a == b
  {
    assert Get(a, Username) == Get(b, Username);
    assert Get(a, Email) == Get(b, Email);
    assert Get(a, FullName) == Get(b, FullName);
    assert Get(a, Position) == Get(b, Position);
    assert Get(a, Phone) == Get(b, Phone);
  }

  /** `handleChange(field, value)` sets exactly that field. */
  lemma ChangeSetsOnlyItsField(c: ContactPerson, f: ContactField, v: string, g: ContactField)
    ensures Get(With(c, f, v), g) == if g == f then Some(v) else Get(c, g)
  {
  }

  /** Typing a field's current text again changes nothing; of two edits to
      one field the later wins. */
  lemma ChangeIsOverwrite(c: ContactPerson, f: ContactField, v: string, w: string)
    ensures Get(c, f) == Some(v) ==> With(c, f, v) == c
    ensures With(With(c, f, v), f, w) == With(c, f, w)
  {
    forall g ensures Get(With(With(c, f, v), f, w), g) == Get(With(c, f, w), g) {
      ChangeSetsOnlyItsField(With(c, f, v), f, w, g);
      ChangeSetsOnlyItsField(c, f, v, g);
      ChangeSetsOnlyItsField(c, f, w, g);
    }
    FieldsDetermineContact(With(With(c, f, v), f, w), With(c, f, w));
    if Get(c, f) == Some(v) {
      forall g ensures Get(With(c, f, v), g) == Get(c, g) {
        ChangeSetsOnlyItsField(c, f, v, g);
      }
      FieldsDetermineContact(With(c, f, v), c);
    }
  }

  /** `{email: "", full_name: "", position: "", phone: "", ...data}`. */
  function Initial(data: ContactPerson): ContactPerson {
    ContactPerson(data.username, data.email.Or(Some("")), data.fullName.Or(Some("")),
                  data.position.Or(Some("")), data.phone.Or(Some("")))
  }

  /** A field present in the saved payload keeps its value; every field the
      form shows starts present ("" when the payload lacks it). */
  lemma InitialOverridesDefaults(data: ContactPerson, f: ContactField)
    ensures Get(data, f).Some? ==> Get(Initial(data), f) == Get(data, f)
    ensures f != Username && Get(data, f).None? ==> Get(Initial(data), f) == Some("")
    ensures f == Username ==> Get(Initial(data), f) == Get(data, f)
  {
  }

  /** The effect's test: `JSON.stringify(formData) !== JSON.stringify(data)`. */
  predicate Notifies(form: ContactPerson, data: ContactPerson) {
    form != data
  }

  /** Mounting reports the form exactly when the payload lacked one of the
      shown fields; once the parent stores that report, mounting again over
      it reports nothing. */
  lemma MountNotifiesIffFieldMissing(data: ContactPerson)
    ensures Notifies(Initial(data), data) <==>
      data.email.None? || data.fullName.None? || data.position.None? || data.phone.None?
    ensures !Notifies(Initial(Initial(data)), Initial(data))
  {
  }

  // ---------------------------------------------------------------------------
  // The phone pattern `^\+[1-9]\d{1,14}$`

  /** One element of an anchored pattern: the character class [lo-hi]
      repeated between `min` and `max` times. */
  datatype Piece = Piece(lo: char, hi: char, min: nat, max: nat)

  /** `^\+[1-9]\d{1,14}$` as pieces. */
  const PhonePattern: seq<Piece> := [Piece('+', '+', 1, 1), Piece('1', '9', 1, 1), Piece('0', '9', 1, 14)]

  predicate InClass(p: Piece, s: string) {
    forall i :: 0 <= i < |s| ==> p.lo <= s[i] <= p.hi
  }

  /** The whole of `s` matches the pieces in order, each taking some number
      of characters within its bounds. */
  predicate Matches(ps: seq<Piece>, s: string)
    decreases |ps|
  {
    if |ps| == 0 then |s| == 0
    else exists k: nat | k <= |s| :: ps[0].min <= k <= ps[0].max && InClass(ps[0], s[..k]) && Matches(ps[1..], s[k..])
  }

  /** An E.164 number written with its international prefix: '+', then the
      national significant digits, at most 15 of them (clause 6 of ITU-T
      Recommendation E.164) and here at least 2, the first not 0. */
  predicate IsE164(s: string) {
    |s| >= 1 && s[0] == '+' &&
    var digits := s[1..];
    2 <= |digits| <= 15 && digits[0] != '0' && forall i :: 0 <= i < |digits| ==> Api.IsDigit(digits[i])
  }

  /** Matching a piece that takes the first `k` characters, then the rest. */
  lemma MatchStep(p: Piece, ps: seq<Piece>, s: string, k: nat)
    requires k <= |s| && p.min <= k <= p.max && InClass(p, s[..k]) && Matches(ps, s[k..])
    ensures Matches([p] + ps, s)
  {
    assert ([p] + ps)[1..] == ps;
  }

  /** A piece that takes exactly one character takes the first one. */
  lemma SingleStep(p: Piece, ps: seq<Piece>, s: string)
    requires p.min == 1 && p.max == 1 && Matches([p] + ps, s)
    ensures |s| >= 1 && p.lo <= s[0] <= p.hi && Matches(ps, s[1..])
  {
    assert ([p] + ps)[1..] == ps;
    var k: nat :| k <= |s| && p.min <= k <= p.max && InClass(p, s[..k]) && Matches(ps, s[k..]);
    assert s[..k][0] == s[0];
  }

  /** The pattern's last piece takes everything left, and that is all digits. */
  lemma LastStep(p: Piece, s: string)
    requires Matches([p], s)
    ensures p.min <= |s| <= p.max && InClass(p, s)
  {
    assert [p][1..] == [];
    var k: nat :| k <= |s| && p.min <= k <= p.max && InClass(p, s[..k]) && Matches([], s[k..]);
    assert s[..k] == s;
  }

  /** Every E.164 number matches the phone pattern. */
  lemma E164Matches(s: string)
    requires IsE164(s)
    ensures Matches(PhonePattern, s)
  {
    var plus, lead, rest := PhonePattern[0], PhonePattern[1], PhonePattern[2];
    var t1 := s[1..];
    var t2 := t1[1..];
    assert InClass(rest, t2[..|t2|]) by {
      forall i | 0 <= i < |t2| ensures rest.lo <= t2[..|t2|][i] <= rest.hi {
        assert t2[..|t2|][i] == t1[i + 1];
      }
    }
    MatchStep(rest, [], t2, |t2|);
    assert [rest] + [] == [rest];
    assert InClass(lead, t1[..1]);
    MatchStep(lead, [rest], t1, 1);
    assert InClass(plus, s[..1]);
    MatchStep(plus, [lead] + [rest], s, 1);
    assert [plus] + ([lead] + [rest]) == PhonePattern;
  }

  /** Everything the three pieces of the phone pattern match is an E.164
      number; stated over the pieces' bounds rather than the constant. */
  lemma PiecesMatchE164(plus: Piece, lead: Piece, rest: Piece, s: string)
    requires plus == Piece('+', '+', 1, 1) && lead == Piece('1', '9', 1, 1) && rest == Piece('0', '9', 1, 14)
    requires Matches([plus] + ([lead] + [rest]), s)
    ensures IsE164(s)
  {
    SingleStep(plus, [lead] + [rest], s);
    var t1 := s[1..];
    SingleStep(lead, [rest], t1);
    var t2 := t1[1..];
    LastStep(rest, t2);
    forall i | 0 <= i < |t1| ensures Api.IsDigit(t1[i]) {
      if i > 0 {
        assert t1[i] == t2[i - 1];
      }
    }
  }

  /** Everything the phone pattern matches is an E.164 number. */
  lemma MatchesE164(s: string)
    requires Matches(PhonePattern, s)
    ensures IsE164(s)
  {
    assert PhonePattern == [PhonePattern[0]] + ([PhonePattern[1]] + [PhonePattern[2]]);
    PiecesMatchE164(PhonePattern[0], PhonePattern[1], PhonePattern[2], s);
  }

  /** The input's pattern accepts exactly the E.164 numbers. */
  lemma PhonePatternIsE164(s: string)
    ensures Matches(PhonePattern, s) <==> IsE164(s)
  {
    if IsE164(s) {
      E164Matches(s);
    }
    if Matches(PhonePattern, s) {
      MatchesE164(s);
    }
  }

  /** The placeholder and help text's example is a valid number. */
  lemma ExampleNumberAccepted()
    ensures Matches(PhonePattern, "+254712345678")
  {
    var s := "+254712345678";
    assert s[1..] == "254712345678";
    assert IsE164(s);
    PhonePatternIsE164(s);
  }

  /** Numbers the pattern refuses: one national digit, sixteen, and a leading 0. */
  lemma NonNumbersRefused()
    ensures !Matches(PhonePattern, "+2")
    ensures !Matches(PhonePattern, "+1234567890123456")
    ensures !Matches(PhonePattern, "+0712345678")
  {
    PhonePatternIsE164("+2");
    PhonePatternIsE164("+1234567890123456");
    PhonePatternIsE164("+0712345678");
    assert |"+1234567890123456"[1..]| == 16;
    assert "+0712345678"[1..][0] == '0';
  }

  /** The component: its form state and the payload it was given. */
  class ContactPersonForm {
    var formData: ContactPerson
    const data: ContactPerson

    constructor (data: ContactPerson)
      ensures this.data == data && formData == Initial(data)
    {
      this.data := data;
      formData := Initial(data);
    }

    /** Whether the effect calls `onChange(formData)`. */
    predicate ShouldNotify()
      reads this
    {
      Notifies(formData, data)
    }

    method HandleChange(f: ContactField, v: string)
      modifies this
      ensures formData == With(old(formData), f, v)
    {
      formData := With(formData, f, v);
    }
  }
}
