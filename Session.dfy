/** Sequences of user events on one NewForm instance, and what they post. */
module Session {
  import opened FormData
  import opened Validation
  import opened Component

  /** One handler invocation. */
  datatype Event =
    | Change(change: ChangeEvent)
    | RadioChange(value: string)
    | Submit
    | Clear
  {
    predicate WellFormed()
    {
      Change? ==> change.WellFormed()
    }
  }

  predicate AllWellFormed(evs: seq<Event>)
  {
    forall i :: 0 <= i < |evs| ==> evs[i].WellFormed()
  }

  /** One handler run: the next state and the record posted, if any. */
  function Step(s: FormState, ev: Event): (r: (FormState, Option<FormRecord>))
    requires ev.WellFormed()
    ensures r.1.Some? ==> ev.Submit?
  {
    match ev
    case Change(e) => (AfterChange(s, e), None)
    case RadioChange(value) => (AfterRadioChange(s, value), None)
    case Submit => AfterSubmit(s)
    case Clear => (AfterClear(s), None)
  }

  function PostsOf(p: Option<FormRecord>): seq<FormRecord>
  {
    if p.Some? then [p.value] else []
  }

  /** How many of the events are submits. */
  function SubmitCount(evs: seq<Event>): nat
  {
    if evs == [] then 0
    else SubmitCount(evs[..|evs| - 1]) + (if evs[|evs| - 1].Submit? then 1 else 0)
  }

  /** The state after the events, in order, and every record posted along the way: at most one per submit. */
  function Run(s: FormState, evs: seq<Event>): (r: (FormState, seq<FormRecord>))
    requires AllWellFormed(evs)
    ensures |r.1| <= SubmitCount(evs)
    decreases |evs|
  {
    if evs == [] then (s, [])
    else
      var (t, posts) := Run(s, evs[..|evs| - 1]);
      var (u, p) := Step(t, evs[|evs| - 1]);
      (u, posts + PostsOf(p))
  }

  /** Running `evs` and then `ev` is one step after the run of `evs`. */
  lemma RunSnoc(s: FormState, evs: seq<Event>, ev: Event)
    requires AllWellFormed(evs) && ev.WellFormed()
    ensures AllWellFormed(evs + [ev])
    ensures Run(s, evs + [ev]) ==
      (Step(Run(s, evs).0, ev).0, Run(s, evs).1 + PostsOf(Step(Run(s, evs).0, ev).1))
  {
    assert (evs + [ev])[..|evs + [ev]| - 1] == evs;
  }

  predicate NoSubmit(evs: seq<Event>)
  {
    forall i :: 0 <= i < |evs| ==> !evs[i].Submit?
  }

  /** Without a submit, nothing is posted and `validated` stays `false` once it is. */
  lemma {:induction false} NoSubmitKeepsNotValidated(s: FormState, evs: seq<Event>)
    requires AllWellFormed(evs) && NoSubmit(evs)
    requires s.validated == NotValidated
    ensures Run(s, evs).0.validated == NotValidated
    ensures Run(s, evs).1 == []
    decreases |evs|
  {
    if evs != [] {
      var init := evs[..|evs| - 1];
      assert AllWellFormed(init) && NoSubmit(init);
      NoSubmitKeepsNotValidated(s, init);
    }
  }

  /**
   * The stale read: from a state with `validated == false` (the first render, or any clear), the
   * first submit posts the current record whatever its answers are.
   */
  lemma FirstSubmitAlwaysPosts(s: FormState, evs: seq<Event>)
    requires AllWellFormed(evs) && NoSubmit(evs)
    requires s.validated == NotValidated
    ensures AllWellFormed(evs + [Submit])
    ensures Run(s, evs + [Submit]).1 == [Run(s, evs).0.formData]
  {
    NoSubmitKeepsNotValidated(s, evs);
    RunSnoc(s, evs, Submit);
  }

  /** A run of `a + b` is the run of `b` from where the run of `a` ends; the posts concatenate. */
  lemma {:induction false} RunAppend(s: FormState, a: seq<Event>, b: seq<Event>)
    requires AllWellFormed(a) && AllWellFormed(b)
    ensures AllWellFormed(a + b)
    ensures Run(s, a + b) == (Run(Run(s, a).0, b).0, Run(s, a).1 + Run(Run(s, a).0, b).1)
    decreases |b|
  {
    var t := Run(s, a).0;
    var pa := Run(s, a).1;
    if b == [] {
      assert a + b == a;
      assert pa + [] == pa;
    } else {
      var init := b[..|b| - 1];
      var last := b[|b| - 1];
      assert AllWellFormed(init);
      assert b == init + [last];
      assert a + b == (a + init) + [last];
      RunAppend(s, a, init);
      RunSnoc(s, a + init, last);
      RunSnoc(t, init, last);
      var mid := Run(t, init);
      var step := Step(mid.0, last);
      assert Run(s, a + init) == (mid.0, pa + mid.1);
      assert Run(s, a + b) == (step.0, (pa + mid.1) + PostsOf(step.1));
      assert Run(t, b) == (step.0, mid.1 + PostsOf(step.1));
      assert (pa + mid.1) + PostsOf(step.1) == pa + (mid.1 + PostsOf(step.1));
    }
  }

  /** After a clear, whatever happens next short of a submit, the next submit posts. */
  lemma SubmitAfterClearPosts(s: FormState, evs: seq<Event>)
    requires AllWellFormed(evs) && NoSubmit(evs)
    ensures AllWellFormed([Clear] + evs + [Submit])
    ensures Run(s, [Clear] + evs + [Submit]).1 == [Run(s, [Clear] + evs).0.formData]
  {
    var t := AfterClear(s);
    assert Run(s, [Clear]) == (t, []) by {
      assert [Clear][..0] == [];
    }
    assert [Clear] + evs + [Submit] == [Clear] + (evs + [Submit]);
    FirstSubmitAlwaysPosts(t, evs);
    RunAppend(s, [Clear], evs + [Submit]);
    RunAppend(s, [Clear], evs);
  }

  /**
   * Two submits in a row under a branch choice: the first stores the validity map, and the second
   * posts exactly when every mandatory answer of that branch is given.
   */
  lemma SecondSubmitPostsIffComplete(s: FormState)
    requires s.formData.question1 == Option1 || s.formData.question1 == Option2
    ensures AfterSubmit(AfterSubmit(s).0).1.Some? <==> BranchComplete(s.formData)
  {
    StoredResultsOpenGateIffComplete(s.formData, s.validated);
  }

  /** The two branch flags are never both set, whatever the user does. */
  lemma {:induction false} FlagsExclusive(s: FormState, evs: seq<Event>)
    requires AllWellFormed(evs)
    requires !(s.showQuestions2to5 && s.showQuestions6to9)
    ensures !(Run(s, evs).0.showQuestions2to5 && Run(s, evs).0.showQuestions6to9)
    decreases |evs|
  {
    if evs != [] {
      var init := evs[..|evs| - 1];
      assert AllWellFormed(init);
      FlagsExclusive(s, init);
    }
  }

  /** A branch choice in question 1 has its questions shown. */
  predicate FlagsMatchChoice(s: FormState)
  {
    && (s.formData.question1 == Option1 ==> s.showQuestions2to5)
    && (s.formData.question1 == Option2 ==> s.showQuestions6to9)
  }

  /**
   * Every handler keeps a chosen branch shown: only a radio change writes question 1, and it sets
   * the flags from the same value; a clear empties question 1, which chooses no branch.
   */
  lemma {:induction false} FlagsFollowChoice(s: FormState, evs: seq<Event>)
    requires AllWellFormed(evs)
    requires FlagsMatchChoice(s)
    ensures FlagsMatchChoice(Run(s, evs).0)
    decreases |evs|
  {
    if evs != [] {
      var init := evs[..|evs| - 1];
      assert AllWellFormed(init);
      FlagsFollowChoice(s, init);
      var t := Run(s, init).0;
      var ev := evs[|evs| - 1];
      if ev.Change? {
        assert Get(AfterChange(t, ev.change).formData, Question1) == Get(t.formData, Question1);
      }
    }
  }

  /**
   * From the first render, whatever the user does: the branch that question 1 chooses is shown, so
   * question 2 is on screen whenever its render-time condition flags it.
   */
  lemma ChosenBranchIsShown(evs: seq<Event>)
    requires AllWellFormed(evs)
    ensures FlagsMatchChoice(Run(InitialState(), evs).0)
    ensures Question2Invalid(Run(InitialState(), evs).0.formData) ==> Run(InitialState(), evs).0.showQuestions2to5
  {
    FlagsFollowChoice(InitialState(), evs);
  }

  /** Without a radio change, the branch flags stay as they were. */
  lemma {:induction false} FlagsOnlyFollowRadio(s: FormState, evs: seq<Event>)
    requires AllWellFormed(evs)
    requires forall i :: 0 <= i < |evs| ==> !evs[i].RadioChange?
    ensures Run(s, evs).0.showQuestions2to5 == s.showQuestions2to5
    ensures Run(s, evs).0.showQuestions6to9 == s.showQuestions6to9
    decreases |evs|
  {
    if evs != [] {
      var init := evs[..|evs| - 1];
      assert AllWellFormed(init);
      FlagsOnlyFollowRadio(s, init);
    }
  }

  /**
   * Choosing "Option 1" and submitting at once posts the record, although every mandatory
   * answer of that branch is still empty; and a clear after the choice leaves the Option-1
   * questions shown while question 1 is empty again.
   */
  lemma IncompleteFirstSubmitPosts()
    ensures
      var chosen := AfterRadioChange(InitialState(), Option1);
      && !BranchComplete(chosen.formData)
      && AfterSubmit(chosen).1 == Some(chosen.formData)
      && AfterClear(chosen).showQuestions2to5
      && AfterClear(chosen).formData.question1 == ""
  {
    var chosen := AfterRadioChange(InitialState(), Option1);
    assert Required(Option1, Question2) && !Filled(chosen.formData, Question2);
  }

  /** Answer changes alone post nothing and leave `validated` as it is. */
  lemma {:induction false} ChangesKeepValidated(s: FormState, evs: seq<Event>)
    requires AllWellFormed(evs)
    requires forall i :: 0 <= i < |evs| ==> evs[i].Change?
    ensures Run(s, evs).0.validated == s.validated
    ensures Run(s, evs).1 == []
    decreases |evs|
  {
    if evs != [] {
      var init := evs[..|evs| - 1];
      assert AllWellFormed(init);
      ChangesKeepValidated(s, init);
    }
  }

  /**
   * From a closed gate, after answer changes only: the next submit is refused, and if the map it
   * stores opens the gate, the submit after it posts the record as the changes left it.
   */
  lemma ClosedGateBlocksOneSubmit(t: FormState, evs: seq<Event>)
    requires AllWellFormed(evs)
    requires forall i :: 0 <= i < |evs| ==> evs[i].Change?
    requires !GateOpen(t.validated)
    requires GateOpen(AfterSubmit(Run(t, evs).0).0.validated)
    ensures AllWellFormed(evs + [Submit]) && AllWellFormed(evs + [Submit, Submit])
    ensures Run(t, evs + [Submit]).1 == []
    ensures Run(t, evs + [Submit, Submit]).1 == [Run(t, evs).0.formData]
  {
    ChangesKeepValidated(t, evs);
    var u := Run(t, evs).0;
    var u2 := AfterSubmit(u).0;
    assert Run(t, evs + [Submit]) == (u2, []) by {
      assert Step(u, Submit) == (u2, None);
      RunSnoc(t, evs, Submit);
      assert Run(t, evs + [Submit]).1 == [] + PostsOf(None);
    }
    assert Step(u2, Submit) == (AfterSubmit(u2).0, Some(u.formData));
    assert evs + [Submit, Submit] == (evs + [Submit]) + [Submit];
    RunSnoc(t, evs + [Submit], Submit);
  }

  /**
   * The stale read after an incomplete submit: the stored map has a false entry, so once the
   * user has given every mandatory answer, the next submit is still refused, because it reads
   * that old map; it stores the new, all-true map, and only the submit after it posts.
   */
  lemma CompletedAnswersPostOnSecondTry(s: FormState, evs: seq<Event>)
    requires s.formData.question1 == Option1 || s.formData.question1 == Option2
    requires !BranchComplete(s.formData)
    requires AllWellFormed(evs)
    requires forall i :: 0 <= i < |evs| ==> evs[i].Change?
    requires
      var u := Run(AfterSubmit(s).0, evs).0;
      (u.formData.question1 == Option1 || u.formData.question1 == Option2) && BranchComplete(u.formData)
    ensures AllWellFormed(evs + [Submit]) && AllWellFormed(evs + [Submit, Submit])
    ensures Run(AfterSubmit(s).0, evs + [Submit]).1 == []
    ensures Run(AfterSubmit(s).0, evs + [Submit, Submit]).1 == [Run(AfterSubmit(s).0, evs).0.formData]
  {
    var t := AfterSubmit(s).0;
    var u := Run(t, evs).0;
    StoredResultsOpenGateIffComplete(s.formData, s.validated);
    StoredResultsOpenGateIffComplete(u.formData, u.validated);
    ClosedGateBlocksOneSubmit(t, evs);
  }

  /**
   * Question 6's `is-invalid` condition tests `validated`, not `shouldValidate('question6')`:
   * after a submit under "Option 1", switching to "Option 2" shows question 6 flagged at once,
   * although no submit has checked it and the stored map has no entry for it.
   */
  lemma Question6FlaggedOnBranchSwitch(s: FormState)
    requires s.formData.question1 == Option1
    requires !LettersOnly(s.formData.question6)
    ensures
      var t := AfterRadioChange(AfterSubmit(s).0, Option2);
      && t.showQuestions6to9
      && Question6Invalid(t.validated, t.formData)
      && t.validated.Checked?
      && "question6" !in t.validated.results
  {
    assert !Required(Option1, Question6);
  }
}
