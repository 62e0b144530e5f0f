/** The NewForm component: its state hooks, each handler as a transition of that state, and the object that holds it. */
module Component {
  import opened FormData
  import opened Validation

  datatype Option<T> = None | Some(value: T)

  /** The four `useState` hooks of the component. */
  datatype FormState = FormState(
    formData: FormRecord,
    validated: Validated,
    showQuestions2to5: bool,
    showQuestions6to9: bool)

  /** The state on first render: every answer empty, not validated, both branches hidden. */
  function InitialState(): (s: FormState)
    ensures forall f: Field :: Get(s.formData, f) == Empty(f)
    ensures s.validated == NotValidated
    ensures !s.showQuestions2to5 && !s.showQuestions6to9
  {
    FormState(Initial(), NotValidated, false, false)
  }

  /** `handleChange(e)`: only the named answer changes. */
  function AfterChange(s: FormState, e: ChangeEvent): (r: FormState)
    requires e.WellFormed()
    ensures r.formData == ApplyChange(s.formData, e)
    ensures forall g: Field :: g != e.name ==> Get(r.formData, g) == Get(s.formData, g)
    ensures r.validated == s.validated
    ensures r.showQuestions2to5 == s.showQuestions2to5 && r.showQuestions6to9 == s.showQuestions6to9
  {
    s.(formData := ApplyChange(s.formData, e))
  }

  /** `handleRadioChange(value)`: the top-level choice and the two branch flags. */
  function AfterRadioChange(s: FormState, value: string): (r: FormState)
    ensures r.formData == With(s.formData, Question1, Text(value))
    ensures r.showQuestions2to5 <==> value == Option1
    ensures r.showQuestions6to9 <==> value == Option2
    ensures !(r.showQuestions2to5 && r.showQuestions6to9)
    ensures r.validated == s.validated
  {
    s.(formData := s.formData.(question1 := value),
       showQuestions2to5 := value == Option1,
       showQuestions6to9 := value == Option2)
  }

  /**
   * `handleSubmit`: the new `validated` and the record posted, if any. The gate reads the
   * `validated` of the render the handler belongs to, that is, the value from before this submit.
   */
  function AfterSubmit(s: FormState): (r: (FormState, Option<FormRecord>))
    ensures r.1.Some? <==> GateOpen(s.validated)
    ensures r.1.Some? ==> r.1.value == s.formData
    ensures r.0.formData == s.formData
    ensures r.0.validated == ValidatedAfterSubmit(s.formData, s.validated)
    ensures r.0.showQuestions2to5 == s.showQuestions2to5 && r.0.showQuestions6to9 == s.showQuestions6to9
  {
    var validated := ValidatedAfterSubmit(s.formData, s.validated);
    var isValid := GateOpen(s.validated);
    (s.(validated := validated), if isValid then Some(s.formData) else None)
  }

  /** `handleClearForm`: every answer empty, `validated` back to `false`, the branch flags untouched. */
  function AfterClear(s: FormState): (r: FormState)
    ensures forall f: Field :: Get(r.formData, f) == Empty(f)
    ensures r.validated == NotValidated
    ensures r.showQuestions2to5 == s.showQuestions2to5 && r.showQuestions6to9 == s.showQuestions6to9
  {
    s.(formData := Initial(), validated := NotValidated)
  }

  /** The component instance; its fields are the state hooks and its methods the handlers. */
  class NewForm {
    var formData: FormRecord
    var validated: Validated
    var showQuestions2to5: bool
    var showQuestions6to9: bool

    /** The hooks' current values, as one state. */
    function State(): FormState
      reads this
    {
      FormState(formData, validated, showQuestions2to5, showQuestions6to9)
    }

    constructor ()
      ensures State() == InitialState()
    {
      formData := Initial();
      validated := NotValidated;
      showQuestions2to5 := false;
      showQuestions6to9 := false;
    }

    method HandleChange(e: ChangeEvent)
      requires e.WellFormed()
      modifies this
      ensures State() == AfterChange(old(State()), e)
    {
      if e.Checkbox? {
        var updatedCheckboxes := ListOf(formData, e.name);
        if e.checked {
          updatedCheckboxes := updatedCheckboxes + [e.value];
        } else {
          updatedCheckboxes := Without(updatedCheckboxes, e.value);
        }
        formData := With(formData, e.name, Choices(updatedCheckboxes));
      } else {
        formData := With(formData, e.name, Text(e.value));
      }
    }

    method HandleSubmit() returns (post: Option<FormRecord>)
      modifies this
      ensures (State(), post) == AfterSubmit(old(State()))
    {
      var captured := validated;
      if formData.question1 == Option1 {
        validated := Checked(Option1Results(formData));
      } else if formData.question1 == Option2 {
        validated := Checked(Option2Results(formData));
      }
      var isValid := GateOpen(captured);
      if isValid {
        post := Some(formData);
      } else {
        post := None;
      }
    }

    method HandleRadioChange(value: string)
      modifies this
      ensures State() == AfterRadioChange(old(State()), value)
    {
      formData := formData.(question1 := value);
      showQuestions2to5 := value == Option1;
      showQuestions6to9 := value == Option2;
    }

    method HandleClearForm()
      modifies this
      ensures State() == AfterClear(old(State()))
    {
      formData := Initial();
      validated := NotValidated;
    }
  }
}
