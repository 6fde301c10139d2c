/** The industry checkboxes (src/components/onboarding/industry-verticals-form.tsx):
    a selection list updated by append and filter, a free-text "other"
    answer, and the warning shown while both are empty. */
module IndustryVerticalsForm {
  import opened Wrappers
  import opened Types

  /** The fixed checkbox labels, in display order. */
  const IndustryOptions: seq<string> := [
    "Financial Services", "Technology", "Healthcare", "Manufacturing",
    "Retail & E-commerce", "Agriculture", "Real Estate", "Transportation & Logistics",
    "Education", "Energy & Utilities", "Media & Entertainment", "Professional Services"]

  /** There are twelve options and no label repeats, so each checkbox's
      `key` and `id` are unique. */
  lemma OptionsAreTwelveDistinct()
    ensures |IndustryOptions| == 12
    ensures forall i, j :: 0 <= i < j < |IndustryOptions| ==> IndustryOptions[i] != IndustryOptions[j]
  {
  }

  /** `data.selectedIndustries || []` and `data.otherIndustry || ""`. */
  function InitialSelection(data: IndustryVerticals): seq<string> {
    data.selectedIndustries.GetOr([])
  }

  function InitialOther(data: IndustryVerticals): string {
    data.otherIndustry.GetOr("")
  }

  /** `selectedIndustries.filter(i => i !== industry)`. */
  function Without(s: seq<string>, industry: string): seq<string> {
    if |s| == 0 then []
    else (if s[0] == industry then [] else [s[0]]) + Without(s[1..], industry)
  }

  /** The filter drops every occurrence of the industry and keeps every
      other entry with its multiplicity. */
  lemma {:induction false} WithoutCounts(s: seq<string>, industry: string)
    ensures forall x :: multiset(Without(s, industry))[x] == if x == industry then 0 else multiset(s)[x]
  {
    if |s| > 0 {
      WithoutCounts(s[1..], industry);
      assert s == [s[0]] + s[1..];
    }
  }

  /** The filter keeps the others in their order: it distributes over
      concatenation. */
  lemma {:induction false} WithoutAppend(a: seq<string>, b: seq<string>, industry: string)
    ensures Without(a + b, industry) == Without(a, industry) + Without(b, industry)
  {
    if |a| == 0 {
      assert a + b == b;
    } else {
      assert (a + b)[1..] == a[1..] + b;
      WithoutAppend(a[1..], b, industry);
    }
  }

  /** Filtering out an industry that is not selected changes nothing. */
  lemma {:induction false} WithoutAbsent(s: seq<string>, industry: string)
    requires industry !in s
    ensures Without(s, industry) == s
  {
    if |s| > 0 {
      WithoutAbsent(s[1..], industry);
    }
  }

  /** `handleIndustryChange(industry, checked)`. */
  function Toggled(s: seq<string>, industry: string, checked: bool): seq<string> {
    if checked then s + [industry] else Without(s, industry)
  }

  /** Checking appends the industry at the end, even when it is already
      selected (one more occurrence); unchecking leaves no occurrence and
      every other entry as often as before. */
  lemma ToggleCounts(s: seq<string>, industry: string, x: string)
    ensures Toggled(s, industry, true)[..|s|] == s && Toggled(s, industry, true)[|s|] == industry
    ensures multiset(Toggled(s, industry, true))[industry] == multiset(s)[industry] + 1
    ensures multiset(Toggled(s, industry, false))[x] == if x == industry then 0 else multiset(s)[x]
    ensures industry !in Toggled(s, industry, false)
  {
    WithoutCounts(s, industry);
    assert multiset(Toggled(s, industry, false))[industry] == 0;
  }

  /** Checking an unselected industry and unchecking it again restores the
      selection; unchecking twice is unchecking once. */
  lemma ToggleRoundTrip(s: seq<string>, industry: string)
    ensures industry !in s ==> Toggled(Toggled(s, industry, true), industry, false) == s
    ensures Toggled(Toggled(s, industry, false), industry, false) == Toggled(s, industry, false)
  {
    WithoutCounts(s, industry);
    assert multiset(Without(s, industry))[industry] == 0;
    WithoutAbsent(Without(s, industry), industry);
    if industry !in s {
      WithoutAppend(s, [industry], industry);
      WithoutAbsent(s, industry);
      assert Without([industry], industry) == [] + Without([], industry);
    }
  }

  /** A checkbox shows `selectedIndustries.includes(industry)` and reports
      the opposite when clicked, so clicks through the page never create a
      duplicate in a selection that had none. */
  lemma ClicksKeepSelectionDistinct(s: seq<string>, industry: string)
    requires forall i, j :: 0 <= i < j < |s| ==> s[i] != s[j]
    ensures var r := Toggled(s, industry, industry !in s);
      forall i, j :: 0 <= i < j < |r| ==> r[i] != r[j]
  {
    var r := Toggled(s, industry, industry !in s);
    WithoutCounts(s, industry);
    if industry in s {
      forall i, j | 0 <= i < j < |r| ensures r[i] != r[j] {
        if r[i] == r[j] {
          DistinctCount(s, r[i]);
          RepeatCount(r, i, j);
          assert false;
        }
      }
    }
  }

  /** In a list without repeats each entry occurs at most once. */
  lemma {:induction false} DistinctCount(s: seq<string>, x: string)
    requires forall i, j :: 0 <= i < j < |s| ==> s[i] != s[j]
    ensures multiset(s)[x] <= 1
  {
    if |s| > 0 {
      DistinctCount(s[1..], x);
      assert s == [s[0]] + s[1..];
      if s[0] == x {
        assert x !in s[1..] by {
          forall k | 0 <= k < |s[1..]| ensures s[1..][k] != x {
            assert s[1..][k] == s[k + 1];
          }
        }
      }
    }
  }

  /** An entry at two positions occurs at least twice. */
  lemma RepeatCount(s: seq<string>, i: nat, j: nat)
    requires i < j < |s| && s[i] == s[j]
    ensures multiset(s)[s[i]] >= 2
  {
    assert s == s[..i] + [s[i]] + s[i + 1..j] + [s[j]] + s[j + 1..];
  }

  /** `selectedIndustries.length === 0 && !otherIndustry`. */
  predicate Warns(selected: seq<string>, other: string) {
    |selected| == 0 && other == ""
  }

  /** The warning is shown exactly while nothing is checked and "other" is
      empty: checking any box or typing any text clears it. */
  lemma WarningRule(selected: seq<string>, other: string, industry: string)
    ensures !Warns(Toggled(selected, industry, true), other)
    ensures other != "" ==> !Warns(selected, other)
    ensures Warns(Toggled([industry], industry, false), "")
  {
    assert [industry][1..] == [];
    assert Toggled([industry], industry, false) == [] + Without([], industry);
  }

  /** The effect's test: `JSON.stringify({selectedIndustries, otherIndustry}) !== JSON.stringify(data)`. */
  predicate Notifies(selected: seq<string>, other: string, data: IndustryVerticals) {
    data != IndustryVerticals(Some(selected), Some(other))
  }

  /** Mounting reports the answers exactly when the payload lacked one. */
  lemma MountNotifiesIffAnswerMissing(data: IndustryVerticals)
    ensures Notifies(InitialSelection(data), InitialOther(data), data) <==>
      data.selectedIndustries.None? || data.otherIndustry.None?
  {
  }

  /** The component: its two state values and the payload it was given. */
  class IndustryVerticalsForm {
    var selectedIndustries: seq<string>
    var otherIndustry: string
    const data: IndustryVerticals

    constructor (data: IndustryVerticals)
      ensures this.data == data
      ensures selectedIndustries == InitialSelection(data) && otherIndustry == InitialOther(data)
    {
      this.data := data;
      selectedIndustries := InitialSelection(data);
      otherIndustry := InitialOther(data);
    }

    predicate ShouldNotify()
      reads this
    {
      Notifies(selectedIndustries, otherIndustry, data)
    }

    predicate ShowsWarning()
      reads this
    {
      Warns(selectedIndustries, otherIndustry)
    }

    method HandleIndustryChange(industry: string, checked: bool)
      modifies this
      ensures selectedIndustries == Toggled(old(selectedIndustries), industry, checked)
      ensures otherIndustry == old(otherIndustry)
    {
      if checked {
        selectedIndustries := selectedIndustries + [industry];
      } else {
        selectedIndustries := Without(selectedIndustries, industry);
      }
    }

    method SetOtherIndustry(value: string)
      modifies this
      ensures otherIndustry == value && selectedIndustries == old(selectedIndustries)
    {
      otherIndustry := value;
    }
  }
}
