/** Which answers the top-level choice makes mandatory, how a submit checks them, and the gate on posting. */
module Validation {
  import opened FormData

  const Option1: string := "Option 1"
  const Option2: string := "Option 2"

  /** The branch rule: "Option 1" requires questions 2 to 5, "Option 2" questions 6 to 9, anything else nothing. */
  predicate Required(choice: string, f: Field)
  {
    || (choice == Option1 && 2 <= f.Number() <= 5)
    || (choice == Option2 && 6 <= f.Number() <= 9)
  }

  /**
   * `shouldValidate(fieldName)`, with the current `formData.question1` passed as `choice`: on the
   * form's own field names it is exactly the branch rule, and it is false for any other name.
   */
  function ShouldValidate(choice: string, fieldName: string): (r: bool)
    ensures forall f: Field :: f.Name() == fieldName ==> (r <==> Required(choice, f))
    ensures r ==> exists f: Field :: f.Name() == fieldName
  {
    assert Question2.Name() == "question2" && Question3.Name() == "question3";
    assert Question4.Name() == "question4" && Question5.Name() == "question5";
    assert Question6.Name() == "question6" && Question7.Name() == "question7";
    assert Question8.Name() == "question8" && Question9.Name() == "question9";
    if choice == Option1 then
      fieldName in ["question2", "question3", "question4", "question5"]
    else if choice == Option2 then
      fieldName in ["question6", "question7", "question8", "question9"]
    else
      false
  }

  /** An answer that counts as given (`!!value` for a string, `value.length > 0` for a list): one that is not empty. */
  predicate Filled(d: FormRecord, f: Field)
    ensures Filled(d, f) <==> Get(d, f) != Empty(f)
  {
    match Get(d, f)
    case Text(s) => s != ""
    case Choices(vs) => |vs| > 0
  }

  /** The `validated` state: `false` until a submit (or after a clear), otherwise the last validity map. */
  datatype Validated = NotValidated | Checked(results: map<string, bool>)

  /** The validity map a submit under "Option 1" stores. */
  function Option1Results(d: FormRecord): (m: map<string, bool>)
    ensures forall f: Field :: f.Name() in m <==> Required(Option1, f)
    ensures forall f: Field :: f.Name() in m ==> m[f.Name()] == Filled(d, f)
    ensures forall k :: k in m ==> exists f: Field :: f.Name() == k
  {
    assert Question2.Name() == "question2" && Question3.Name() == "question3";
    assert Question4.Name() == "question4" && Question5.Name() == "question5";
    var m := map[
      "question2" := d.question2 != "",
      "question3" := d.question3 != "",
      "question4" := |d.question4| > 0,
      "question5" := d.question5 != ""];
    assert forall f: Field :: f.Name() in m <==> Required(Option1, f) by {
      forall f: Field ensures f.Name() in m <==> Required(Option1, f) {
        assert f.Name() in m <==> ShouldValidate(Option1, f.Name());
      }
    }
    m
  }

  /** The validity map a submit under "Option 2" stores. */
  function Option2Results(d: FormRecord): (m: map<string, bool>)
    ensures forall f: Field :: f.Name() in m <==> Required(Option2, f)
    ensures forall f: Field :: f.Name() in m ==> m[f.Name()] == Filled(d, f)
    ensures forall k :: k in m ==> exists f: Field :: f.Name() == k
  {
    assert Question6.Name() == "question6" && Question7.Name() == "question7";
    assert Question8.Name() == "question8" && Question9.Name() == "question9";
    var m := map[
      "question6" := d.question6 != "",
      "question7" := d.question7 != "",
      "question8" := |d.question8| > 0,
      "question9" := d.question9 != ""];
    assert forall f: Field :: f.Name() in m <==> Required(Option2, f) by {
      forall f: Field ensures f.Name() in m <==> Required(Option2, f) {
        assert f.Name() in m <==> ShouldValidate(Option2, f.Name());
      }
    }
    m
  }

  /** `validated` once `handleSubmit` has called `setValidated`: the map of the chosen branch, else unchanged. */
  function ValidatedAfterSubmit(d: FormRecord, v: Validated): (r: Validated)
    ensures d.question1 == Option1 || d.question1 == Option2 ==>
      && r.Checked?
      && (forall f: Field :: f.Name() in r.results <==> Required(d.question1, f))
      && (forall f: Field :: f.Name() in r.results ==> r.results[f.Name()] == Filled(d, f))
      && (forall k :: k in r.results ==> exists f: Field :: f.Name() == k)
    ensures d.question1 != Option1 && d.question1 != Option2 ==> r == v
  {
    if d.question1 == Option1 then Checked(Option1Results(d))
    else if d.question1 == Option2 then Checked(Option2Results(d))
    else v
  }

  /**
   * `Object.values(validated).every(value => value === true)`. `Object.values(false)` is empty, so
   * the gate passes before any submit; on a map it passes exactly when every entry is true.
   */
  predicate GateOpen(v: Validated)
    ensures v.NotValidated? ==> GateOpen(v)
    ensures v.Checked? ==> (GateOpen(v) <==> forall k :: k in v.results ==> v.results[k])
  {
    match v
    case NotValidated => true
    case Checked(m) =>
      assert forall k :: k in m ==> m[k] in m.Values;
      forall b :: b in m.Values ==> b
  }

  /** All mandatory answers of the chosen branch are given. */
  predicate BranchComplete(d: FormRecord)
  {
    forall f: Field :: Required(d.question1, f) ==> Filled(d, f)
  }

  /** A map stored by a submit opens the gate exactly when every mandatory answer of its branch was given. */
  lemma StoredResultsOpenGateIffComplete(d: FormRecord, v: Validated)
    requires d.question1 == Option1 || d.question1 == Option2
    ensures GateOpen(ValidatedAfterSubmit(d, v)) <==> BranchComplete(d)
  {
    var m := if d.question1 == Option1 then Option1Results(d) else Option2Results(d);
    assert ValidatedAfterSubmit(d, v) == Checked(m);
    if BranchComplete(d) {
      forall k | k in m ensures m[k] {
        var f: Field :| f.Name() == k;
      }
    }
  }

  /** A character the pattern `[a-zA-Z]` accepts. */
  predicate IsAsciiLetter(c: char)
  {
    ('a' <= c <= 'z') || ('A' <= c <= 'Z')
  }

  /** `/^[a-zA-Z]+$/.test(s)`: non-empty and made of ASCII letters only; a passing answer is also non-empty. */
  predicate LettersOnly(s: string)
    ensures LettersOnly(s) ==> s != ""
  {
    |s| > 0 && forall i :: 0 <= i < |s| ==> IsAsciiLetter(s[i])
  }

  /** The anchored pattern read as a matcher: one letter, then either the end or `[a-zA-Z]+` again. */
  predicate MatchesLetterPlus(s: string)
  {
    |s| > 0 && IsAsciiLetter(s[0]) && (|s| == 1 || MatchesLetterPlus(s[1..]))
  }

  /** The closed form of the letter test agrees with the pattern's one-or-more reading on every string. */
  lemma {:induction false} LettersOnlyMatchesPattern(s: string)
    ensures LettersOnly(s) <==> MatchesLetterPlus(s)
  {
    if |s| > 1 {
      LettersOnlyMatchesPattern(s[1..]);
      assert forall i :: 1 <= i < |s| ==> s[i] == s[1..][i - 1];
    }
  }

  /** The render-time `is-invalid` condition of question 2: "Option 1" is chosen and the answer is not letters only. */
  predicate Question2Invalid(d: FormRecord)
    ensures Question2Invalid(d) <==> d.question1 == Option1 && !LettersOnly(d.question2)
  {
    ShouldValidate(d.question1, "question2") && (d.question2 == "" || !LettersOnly(d.question2))
  }

  /**
   * The render-time `is-invalid` condition of question 6, whose input is shown only while the
   * "Option 2" branch is. It tests the truthiness of `validated`, not `shouldValidate`: some submit
   * has stored a map, and the answer is not letters only.
   */
  predicate Question6Invalid(v: Validated, d: FormRecord)
    ensures Question6Invalid(v, d) <==> v.Checked? && !LettersOnly(d.question6)
  {
    v.Checked? && (d.question6 == "" || !LettersOnly(d.question6))
  }

  /**
   * The submit-time check of question 2 is non-emptiness only: an answer with a digit passes the
   * submit check and opens the gate on the next submit while the field is still flagged at render time.
   */
  lemma SubmitCheckIgnoresLetterRule()
    ensures
      var d := FormRecord(Option1, "abc1", "Value1", ["V1"], "text", "", "", [], "");
      && GateOpen(ValidatedAfterSubmit(d, NotValidated))
      && Question2Invalid(d)
  {
    var d := FormRecord(Option1, "abc1", "Value1", ["V1"], "text", "", "", [], "");
    assert !IsAsciiLetter(d.question2[3]);
    StoredResultsOpenGateIffComplete(d, NotValidated);
    assert BranchComplete(d) by {
      forall f: Field | Required(d.question1, f) ensures Filled(d, f) {
      }
    }
  }
}
