/** The answer record of the NewForm questionnaire and the edits the change handler makes to it. */
module FormData {

  /** The nine answer fields, under the input names the form's markup gives them. */
  datatype Field =
    | Question1 | Question2 | Question3 | Question4 | Question5
    | Question6 | Question7 | Question8 | Question9
  {
    /** The question number, 1 to 9. */
    function Number(): (n: nat)
      ensures 1 <= n <= 9
    {
      match this
      case Question1 => 1
      case Question2 => 2
      case Question3 => 3
      case Question4 => 4
      case Question5 => 5
      case Question6 => 6
      case Question7 => 7
      case Question8 => 8
      case Question9 => 9
    }

    /** The key of this field in the record and in the validity map. */
    function Name(): string
    {
      match this
      case Question1 => "question1"
      case Question2 => "question2"
      case Question3 => "question3"
      case Question4 => "question4"
      case Question5 => "question5"
      case Question6 => "question6"
      case Question7 => "question7"
      case Question8 => "question8"
      case Question9 => "question9"
    }

    /** Questions 4 and 8 are checkbox groups; their answer is a list of the checked values. */
    predicate IsList()
    {
      Number() == 4 || Number() == 8
    }
  }

  /** The form's answer record; question4 and question8 hold lists, the others strings. */
  datatype FormRecord = FormRecord(
    question1: string,
    question2: string,
    question3: string,
    question4: seq<string>,
    question5: string,
    question6: string,
    question7: string,
    question8: seq<string>,
    question9: string)

  /** The value of one field, seen uniformly. */
  datatype Answer = Text(text: string) | Choices(values: seq<string>)

  /** What the record holds under `f`; the kind of answer follows the kind of field. */
  function Get(d: FormRecord, f: Field): (a: Answer)
    ensures a.Choices? <==> f.IsList()
  {
    match f
    case Question1 => Text(d.question1)
    case Question2 => Text(d.question2)
    case Question3 => Text(d.question3)
    case Question4 => Choices(d.question4)
    case Question5 => Text(d.question5)
    case Question6 => Text(d.question6)
    case Question7 => Text(d.question7)
    case Question8 => Choices(d.question8)
    case Question9 => Text(d.question9)
  }

  /** The list held by a checkbox field. */
  function ListOf(d: FormRecord, f: Field): (vs: seq<string>)
    requires f.IsList()
    ensures Get(d, f) == Choices(vs)
  {
    if f == Question4 then d.question4 else d.question8
  }

  /** The record `{ ...d, [f.Name()]: a }`: `f` now holds `a`, every other field is as in `d`. */
  function With(d: FormRecord, f: Field, a: Answer): (r: FormRecord)
    requires a.Choices? <==> f.IsList()
    ensures Get(r, f) == a
    ensures forall g: Field :: g != f ==> Get(r, g) == Get(d, g)
  {
    match f
    case Question1 => d.(question1 := a.text)
    case Question2 => d.(question2 := a.text)
    case Question3 => d.(question3 := a.text)
    case Question4 => d.(question4 := a.values)
    case Question5 => d.(question5 := a.text)
    case Question6 => d.(question6 := a.text)
    case Question7 => d.(question7 := a.text)
    case Question8 => d.(question8 := a.values)
    case Question9 => d.(question9 := a.text)
  }

  /** The empty answer of a field: an empty list for a checkbox group, an empty string otherwise. */
  function Empty(f: Field): (a: Answer)
    ensures a.Choices? <==> f.IsList()
  {
    if f.IsList() then Choices([]) else Text("")
  }

  /** `initialFormData`: the record the form starts from and is cleared back to; every answer is empty. */
  function Initial(): (d: FormRecord)
    ensures forall f: Field :: Get(d, f) == Empty(f)
  {
    FormRecord("", "", "", [], "", "", "", [], "")
  }

  /** `vs.filter(val => val !== v)`: the same list with every occurrence of `v` dropped. */
  function Without(vs: seq<string>, v: string): (r: seq<string>)
    ensures v !in r
    ensures |r| <= |vs|
  {
    if vs == [] then []
    else (if vs[0] == v then [] else [vs[0]]) + Without(vs[1..], v)
  }

  /** Unchecking removes exactly the occurrences of `v`: every other value keeps its multiplicity. */
  lemma {:induction false} WithoutMultiset(vs: seq<string>, v: string)
    ensures multiset(Without(vs, v)) == multiset(vs)[v := 0]
  {
    if vs != [] {
      WithoutMultiset(vs[1..], v);
      assert vs == [vs[0]] + vs[1..];
    }
  }

  /** Filtering keeps the order: it distributes over concatenation, element by element. */
  lemma {:induction false} WithoutConcat(a: seq<string>, b: seq<string>, v: string)
    ensures Without(a + b, v) == Without(a, v) + Without(b, v)
  {
    if a == [] {
      assert a + b == b;
    } else {
      WithoutConcat(a[1..], b, v);
      assert (a + b)[1..] == a[1..] + b;
      var head := if a[0] == v then [] else [a[0]];
      calc {
        Without(a + b, v);
        head + Without(a[1..] + b, v);
        head + (Without(a[1..], v) + Without(b, v));
        (head + Without(a[1..], v)) + Without(b, v);
        Without(a, v) + Without(b, v);
      }
    }
  }

  /** A list that does not contain `v` is left as it is. */
  lemma {:induction false} WithoutAbsent(vs: seq<string>, v: string)
    requires v !in vs
    ensures Without(vs, v) == vs
  {
    if vs != [] {
      WithoutAbsent(vs[1..], v);
    }
  }

  /** Unchecking twice is the same as unchecking once. */
  lemma WithoutIdempotent(vs: seq<string>, v: string)
    ensures Without(Without(vs, v), v) == Without(vs, v)
  {
    WithoutAbsent(Without(vs, v), v);
  }

  /** Checking a value that was not in the list and then unchecking it restores the list. */
  lemma CheckThenUncheck(vs: seq<string>, v: string)
    requires v !in vs
    ensures Without(vs + [v], v) == vs
  {
    WithoutConcat(vs, [v], v);
    WithoutAbsent(vs, v);
    assert Without([v], v) == [];
  }

  /** The `e.target` of a change event, as `handleChange` reads it. */
  datatype ChangeEvent =
    | Input(name: Field, value: string)                      // text input, select or text area
    | Checkbox(name: Field, value: string, checked: bool)    // `type === 'checkbox'`
  {
    /**
     * The markup wires checkboxes only to the list fields and the other inputs only to string
     * fields; question 1's radios call `handleRadioChange`, never `handleChange`.
     */
    predicate WellFormed()
      ensures WellFormed() <==>
        && (Checkbox? <==> name in {Question4, Question8})
        && (Input? ==> name != Question1)
    {
      && (Checkbox? <==> name.IsList())
      && (Input? ==> name.Number() != 1)
    }
  }

  /** The record after `handleChange(e)`. */
  function ApplyChange(d: FormRecord, e: ChangeEvent): (r: FormRecord)
    requires e.WellFormed()
    ensures e.Input? ==> Get(r, e.name) == Text(e.value)
    ensures e.Checkbox? && e.checked ==> ListOf(r, e.name) == ListOf(d, e.name) + [e.value]
    ensures e.Checkbox? && !e.checked ==> ListOf(r, e.name) == Without(ListOf(d, e.name), e.value)
    ensures forall g: Field :: g != e.name ==> Get(r, g) == Get(d, g)
  {
    match e
    case Input(name, value) => With(d, name, Text(value))
    case Checkbox(name, value, checked) =>
      var updated := if checked then ListOf(d, name) + [value] else Without(ListOf(d, name), value);
      With(d, name, Choices(updated))
  }
}
