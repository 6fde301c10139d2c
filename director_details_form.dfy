/** The director roster editor (src/components/onboarding/director-details-form.tsx).
    The roster is the component's state; `addDirector`, `removeDirector` and
    `updateDirector` replace it by a roster computed purely with spread,
    filter and map. */
module DirectorDetailsForm {
  import opened Wrappers
  import opened Types
  import Api

  /** A director whose text fields are "", flags false and ownership 0. */
  function Blank(id: Option<string>, company: Option<string>): Director {
    Director(id, company, None, "", "", false, 0.0, false)
  }

  /** `data.directors || [blank]`: a saved roster is kept as it is, even an
      empty one (an array is truthy); only an absent roster becomes one blank
      director with id "1" that names the company. */
  function InitialRoster(saved: Option<seq<Director>>, companyLegalName: Option<string>): (r: seq<Director>)
    ensures saved.Some? ==> r == saved.value
    ensures saved.None? ==> r == [Blank(Some("1"), companyLegalName)]
  {
    if saved.Some? then saved.value else [Blank(Some("1"), companyLegalName)]
  }

  /** The effect's test: `JSON.stringify(directors) !== JSON.stringify(data.directors)`. */
  predicate Notifies(roster: seq<Director>, saved: Option<seq<Director>>) {
    saved != Some(roster)
  }

  /** Mounting over a saved roster reports nothing; mounting without one
      reports the blank roster. */
  lemma MountNotifiesOnlyWithoutSavedRoster(saved: Option<seq<Director>>, companyLegalName: Option<string>)
    ensures Notifies(InitialRoster(saved, companyLegalName), saved) <==> saved.None?
  {
  }

  // ---------------------------------------------------------------------------
  // addDirector

  /** `[...directors, newDirector]`: a blank director with the fresh id and no
      `company` key goes at the end. */
  function Appended(roster: seq<Director>, newId: string): (r: seq<Director>)
    ensures |r| == |roster| + 1
    ensures r[..|roster|] == roster
    ensures r[|roster|].id == Some(newId) && r[|roster|].company.None?
    ensures r[|roster|] == Blank(Some(newId), None)
  {
    roster + [Blank(Some(newId), None)]
  }

  // ---------------------------------------------------------------------------
  // removeDirector

  /** `directors.filter(director => director.id !== id)`. */
  function WithoutId(roster: seq<Director>, id: Option<string>): seq<Director> {
    if |roster| == 0 then []
    else (if roster[0].id == id then [] else [roster[0]]) + WithoutId(roster[1..], id)
  }

  /** The filter keeps exactly the entries with another id, with their
      multiplicities, and is never longer than its input. */
  lemma {:induction false} WithoutIdKeeps(roster: seq<Director>, id: Option<string>)
    ensures |WithoutId(roster, id)| <= |roster|
    ensures forall d :: multiset(WithoutId(roster, id))[d] == if d.id == id then 0 else multiset(roster)[d]
  {
    if |roster| > 0 {
      WithoutIdKeeps(roster[1..], id);
      assert roster == [roster[0]] + roster[1..];
    }
  }

  /** The filter preserves order: it distributes over concatenation. */
  lemma {:induction false} WithoutIdAppend(a: seq<Director>, b: seq<Director>, id: Option<string>)
    ensures WithoutId(a + b, id) == WithoutId(a, id) + WithoutId(b, id)
  {
    if |a| == 0 {
      assert a + b == b;
    } else {
      assert (a + b)[1..] == a[1..] + b;
      WithoutIdAppend(a[1..], b, id);
    }
  }

  /** A filter that finds nothing to drop returns the roster itself. */
  lemma {:induction false} WithoutAbsentId(roster: seq<Director>, id: Option<string>)
    requires forall i :: 0 <= i < |roster| ==> roster[i].id != id
    ensures WithoutId(roster, id) == roster
  {
    if |roster| > 0 {
      WithoutAbsentId(roster[1..], id);
    }
  }

  /** `removeDirector`: nothing happens to a roster of one; otherwise every
      entry carrying the id goes, and every other entry stays. */
  function Removed(roster: seq<Director>, id: Option<string>): (r: seq<Director>)
    ensures |roster| <= 1 ==> r == roster
    ensures |roster| > 1 ==> forall d :: d in r <==> d in roster && d.id != id
    ensures |roster| > 1 && (exists d :: d in roster && d.id != id) ==> |r| > 0
  {
    if |roster| > 1 then
      WithoutIdKeeps(roster, id);
      assert forall d :: d in WithoutId(roster, id) <==> multiset(WithoutId(roster, id))[d] > 0;
      WithoutId(roster, id)
    else roster
  }

  /** Removing a freshly added director restores the roster, as long as the
      fresh id was not already in use. */
  lemma RemoveUndoesAdd(roster: seq<Director>, newId: string)
    requires |roster| >= 1
    requires forall i :: 0 <= i < |roster| ==> roster[i].id != Some(newId)
    ensures Removed(Appended(roster, newId), Some(newId)) == roster
  {
    var blank := Blank(Some(newId), None);
    WithoutIdAppend(roster, [blank], Some(newId));
    WithoutAbsentId(roster, Some(newId));
    assert WithoutId([blank], Some(newId)) == [] + WithoutId([], Some(newId));
  }

  /** The length guard does not keep a director when every entry carries the
      removed id: two directors added within the same millisecond share an
      id, and removing one removes both. */
  lemma RemoveCanEmptyRoster()
    ensures Removed([Blank(Some("7"), None), Blank(Some("7"), None)], Some("7")) == []
  {
    var twin := Blank(Some("7"), None);
    assert [twin, twin][1..] == [twin];
    assert [twin][1..] == [];
  }

  // ---------------------------------------------------------------------------
  // updateDirector

  /** The fields of a director, as named by `keyof Director`. */
  datatype DirectorField =
    | IdField | CompanyField | StateField | FullNameField | IdOrPassportField
    | UboShareholderField | OwnershipField | OtherDirectorsField

  /** The value of one field. */
  datatype FieldValue = Text(text: string) | Flag(flag: bool) | Amount(amount: real) | Missing | Present(present: string)

  function OptionalText(o: Option<string>): FieldValue {
    if o.Some? then Present(o.value) else Missing
  }

  function Get(d: Director, f: DirectorField): FieldValue {
    match f
    case IdField => OptionalText(d.id)
    case CompanyField => OptionalText(d.company)
    case StateField => OptionalText(d.state)
    case FullNameField => Text(d.fullName)
    case IdOrPassportField => Text(d.validIdOrPassportNumber)
    case UboShareholderField => Flag(d.isUboShareholder)
    case OwnershipField => Amount(d.ownershipPercentage)
    case OtherDirectorsField => Flag(d.hasOtherDirectors)
  }

  /** Two directors that agree on every field are the same director. */
  lemma FieldsDetermineDirector(a: Director, b: Director)
    requires forall f :: Get(a, f) == Get(b, f)
    ensures a == b
  {
    assert Get(a, IdField) == Get(b, IdField);
    assert Get(a, CompanyField) == Get(b, CompanyField);
    assert Get(a, StateField) == Get(b, StateField);
    assert Get(a, FullNameField) == Get(b, FullNameField);
    assert Get(a, IdOrPassportField) == Get(b, IdOrPassportField);
    assert Get(a, UboShareholderField) == Get(b, UboShareholderField);
    assert Get(a, OwnershipField) == Get(b, OwnershipField);
    assert Get(a, OtherDirectorsField) == Get(b, OtherDirectorsField);
  }

  /** The edits the form's inputs make. An ownership edit carries the parsed
      number, `None` when `parseFloat` gives NaN; `|| 0` then stores 0. */
  datatype DirectorEdit =
    | FullName(name: string)
    | IdOrPassport(number: string)
    | UboShareholder(isUbo: bool)
    | Ownership(parsed: Option<real>)
    | OtherDirectors(hasOthers: bool)

  function FieldOf(e: DirectorEdit): DirectorField {
    match e
    case FullName(_) => FullNameField
    case IdOrPassport(_) => IdOrPassportField
    case UboShareholder(_) => UboShareholderField
    case Ownership(_) => OwnershipField
    case OtherDirectors(_) => OtherDirectorsField
  }

  function ValueOf(e: DirectorEdit): FieldValue {
    match e
    case FullName(v) => Text(v)
    case IdOrPassport(v) => Text(v)
    case UboShareholder(v) => Flag(v)
    case Ownership(p) => Amount(p.GetOr(0.0))
    case OtherDirectors(v) => Flag(v)
  }

  /** `{...director, [field]: value}`. */
  function Edited(d: Director, e: DirectorEdit): Director {
    match e
    case FullName(v) => d.(fullName := v)
    case IdOrPassport(v) => d.(validIdOrPassportNumber := v)
    case UboShareholder(v) => d.(isUboShareholder := v)
    case Ownership(p) => d.(ownershipPercentage := p.GetOr(0.0))
    case OtherDirectors(v) => d.(hasOtherDirectors := v)
  }

  /** An edit sets its own field to its value and leaves every other field,
      the id included, as it was. */
  lemma EditSetsOnlyItsField(d: Director, e: DirectorEdit, f: DirectorField)
    ensures Get(Edited(d, e), f) == if f == FieldOf(e) then ValueOf(e) else Get(d, f)
  {
  }

  /** Of two edits to the same field the later wins. */
  lemma LaterEditWins(d: Director, e1: DirectorEdit, e2: DirectorEdit)
    requires FieldOf(e1) == FieldOf(e2)
    ensures Edited(Edited(d, e1), e2) == Edited(d, e2)
  {
    forall f ensures Get(Edited(Edited(d, e1), e2), f) == Get(Edited(d, e2), f) {
      EditSetsOnlyItsField(Edited(d, e1), e2, f);
      EditSetsOnlyItsField(d, e1, f);
      EditSetsOnlyItsField(d, e2, f);
    }
    FieldsDetermineDirector(Edited(Edited(d, e1), e2), Edited(d, e2));
  }

  /** `directors.map(director => director.id === id ? {...director, [field]: value} : director)`. */
  function Updated(roster: seq<Director>, id: Option<string>, e: DirectorEdit): (r: seq<Director>)
    ensures |r| == |roster|
    ensures forall i :: 0 <= i < |r| ==> r[i] == if roster[i].id == id then Edited(roster[i], e) else roster[i]
  {
    seq(|roster|, i requires 0 <= i < |roster| => if roster[i].id == id then Edited(roster[i], e) else roster[i])
  }

  /** An update keeps every position's id, so later removals and updates find
      the same entries. */
  lemma UpdateKeepsIds(roster: seq<Director>, id: Option<string>, e: DirectorEdit)
    ensures forall i :: 0 <= i < |roster| ==> Updated(roster, id, e)[i].id == roster[i].id
  {
    forall i | 0 <= i < |roster| ensures Updated(roster, id, e)[i].id == roster[i].id {
      EditSetsOnlyItsField(roster[i], e, IdField);
    }
  }

  /** Updating an entry's field twice leaves only the second value. */
  lemma LaterUpdateWins(roster: seq<Director>, id: Option<string>, e1: DirectorEdit, e2: DirectorEdit)
    requires FieldOf(e1) == FieldOf(e2)
    ensures Updated(Updated(roster, id, e1), id, e2) == Updated(roster, id, e2)
  {
    var once := Updated(roster, id, e1);
    UpdateKeepsIds(roster, id, e1);
    forall i | 0 <= i < |roster|
      ensures Updated(once, id, e2)[i] == Updated(roster, id, e2)[i]
    {
      if roster[i].id == id {
        LaterEditWins(roster[i], e1, e2);
      }
    }
  }

  /** The component: its roster state, and the saved roster it was given. */
  class DirectorDetailsForm {
    var directors: seq<Director>
    const saved: Option<seq<Director>>

    constructor (saved: Option<seq<Director>>, companyLegalName: Option<string>)
      ensures this.saved == saved
      ensures directors == InitialRoster(saved, companyLegalName)
    {
      this.saved := saved;
      directors := InitialRoster(saved, companyLegalName);
    }

    /** Whether the effect after the last change calls `onChange({directors})`. */
    predicate ShouldNotify()
      reads this
    {
      Notifies(directors, saved)
    }

    /** `addDirector`, given the millisecond clock reading. */
    method AddDirector(now: nat)
      modifies this
      ensures directors == Appended(old(directors), Api.NatToString(now))
    {
      directors := directors + [Blank(Some(Api.NatToString(now)), None)];
    }

    /** `removeDirector(director.id!)`: the id is `None` for a saved entry
        that has no id. */
    method RemoveDirector(id: Option<string>)
      modifies this
      ensures directors == Removed(old(directors), id)
    {
      if |directors| > 1 {
        directors := WithoutId(directors, id);
      }
    }

    method UpdateDirector(id: Option<string>, e: DirectorEdit)
      modifies this
      ensures directors == Updated(old(directors), id, e)
    {
      directors := Updated(directors, id, e);
    }
  }
}
