# NewForm questionnaire: a verified model of its form-state machine

`NewForm` is a browser form with nine answers. Question 1 is a radio choice. "Option 1" shows
and requires questions 2 to 5; "Option 2" shows and requires questions 6 to 9. Questions 4 and 8
are checkbox groups whose answer is a list of the checked values; the others are strings. The
component keeps four pieces of state: the answer record `formData`, the `validated` value
(`false`, or the validity map stored by the last submit), and one visibility flag per branch.
Five handlers change that state: `handleChange`, `handleRadioChange`, `handleSubmit`,
`handleClearForm`, and `shouldValidate` derives the required set from the choice.

The project models that state machine:

- `FormData.dfy` (module `FormData`): the fields, the record, `initialFormData`, the
  `{ ...prev, [name]: value }` update, the checkbox append / `filter` of `handleChange`. The
  update's contract frames every other field ("nothing else changes"), and lemmas prove the list
  laws (order kept, exactly the unchecked value removed, check-then-uncheck restores).
- `Validation.dfy` (module `Validation`): the branch rule, `shouldValidate`, the two validity
  maps `handleSubmit` stores, the `every` gate, the letter-only test `^[a-zA-Z]+$` and the
  render-time `is-invalid` conditions of questions 2 and 6 that use it.
- `Component.dfy` (module `Component`): the component's state as a value, each handler as a
  transition of it, and the class `NewForm` whose fields are the state hooks and whose methods
  are the handlers, each proved to make exactly that transition.
- `Session.dfy` (module `Session`): runs of handler events and the records they post, with the
  lemmas about whole runs (the first submit posts, the flags are exclusive, and so on).

The network call is an output: `HandleSubmit` returns `Some(record)` for the one post it
issues and `None` otherwise, and a run collects the posted records in order.

Three behaviours of the code are modelled as written:

- The stale read. The gate at form.tsx:60 reads the `validated` of the render the handler
  closes over. That is the value from before this submit, because `setValidated` does not
  update the closure. `Object.values(false)` is empty, so `every` passes vacuously. The first
  submit, and the first submit after a clear, always posts, whatever the answers are
  (`FirstSubmitAlwaysPosts`, `SubmitAfterClearPosts`, `IncompleteFirstSubmitPosts`). The other
  side of it: after a submit with a mandatory answer missing, a user who then gives every
  mandatory answer is refused once more, because that submit reads the old map with its false
  entry. Only the submit after it posts (`CompletedAnswersPostOnSecondTry`).
- The submit check tests only that question 2 and question 6 are non-empty. The letter-only
  pattern is used only when rendering (`SubmitCheckIgnoresLetterRule`).
- Question 6's `is-invalid` condition tests whether `validated` is truthy, not
  `shouldValidate('question6')` as question 2's does. After a submit under "Option 1",
  switching to "Option 2" shows question 6 flagged at once. No submit has checked that answer,
  and the stored map has no entry for it (`Question6FlaggedOnBranchSwitch`).

The source suggests stricter checking than it performs. The comment at form.tsx:59 reads "Check
if all relevant fields are valid". The fields carry "(Mandatory)" labels, `required` attributes and,
on questions 2 and 6, `pattern="^[a-zA-Z]+$"` (form.tsx:195-196, 347-348). But the form is marked
`noValidate` (form.tsx:129), which turns off the browser's own check of those attributes. So the
only check at submit is the handler's. That check lets the first submit through whatever the
answers are, and it never applies the pattern. The model follows the code.

## Model

| member | source | states |
|---|---|---|
| `FormData.Get` | form.tsx:7-17 | the record holds a list exactly under question4 and question8 and a string under every other field |
| `FormData.Initial` | form.tsx:7-17 | `initialFormData` holds the empty answer in every field: an empty list for question4 and question8, an empty string for the other seven |
| `FormData.Empty` | form.tsx:7-17 | the empty answer is a list exactly for the checkbox groups and a string for every other field |
| `FormData.ChangeEvent.WellFormed` | form.tsx:148-300 | the events the markup sends to `handleChange`: checkbox events only for question4 and question8 (lines 242-300 and 387-445), text events only for questions 2, 3, 5, 6, 7 and 9 (lines 194, 219, 319, 346, 367, 465); question1's radios (lines 148, 165) go to `handleRadioChange` instead |
| `FormData.ListOf` | form.tsx:27 | the list copied out of a checkbox field is the answer that field holds |
| `FormData.With` | form.tsx:33-35 | the updated record holds the new answer under the named field, and every other field is unchanged |
| `FormData.Without` | form.tsx:31 | after unchecking, the value no longer occurs in the list and the list did not grow |
| `FormData.WithoutMultiset` | form.tsx:31 | unchecking removes every occurrence of the value and keeps every other value with its multiplicity |
| `FormData.WithoutConcat` | form.tsx:31 | unchecking distributes over concatenation, so the remaining elements keep their order |
| `FormData.WithoutAbsent` | form.tsx:31 | unchecking a value that is not in the list leaves the list as it is |
| `FormData.WithoutIdempotent` | form.tsx:30-31 | unchecking the same value twice has the effect of unchecking it once |
| `FormData.CheckThenUncheck` | form.tsx:28-31 | checking a value that was absent and then unchecking it restores the original list |
| `FormData.ApplyChange` | form.tsx:24-37 | a text change sets the named field to the value; a check appends the value at the end of the list; an uncheck filters it out; all other fields are unchanged |
| `Validation.Required` | form.tsx:107-118 | the branch rule, stated by question number independently of the name lists: "Option 1" requires questions 2 to 5, "Option 2" questions 6 to 9, any other choice nothing |
| `Validation.ShouldValidate` | form.tsx:107-118 | on each of the nine field names, `shouldValidate` equals the branch rule; it holds only of one of the nine names |
| `Validation.Filled` | form.tsx:45-48 | the submit check of an answer (`!!x` for a string, `.length > 0` for a list) holds exactly when the answer differs from the field's empty answer |
| `Validation.Option1Results` | form.tsx:43-49 | the "Option 1" map has one key per field from question 2 to question 5 and no others; each entry says whether that answer is given (non-empty string, non-empty list) |
| `Validation.Option2Results` | form.tsx:50-56 | the "Option 2" map has one key per field from question 6 to question 9 and no others; each entry says whether that answer is given |
| `Validation.ValidatedAfterSubmit` | form.tsx:43-57 | under a branch choice, submit stores that branch's map, keyed exactly by its required fields; under any other choice `validated` is unchanged |
| `Validation.GateOpen` | form.tsx:60 | `every` over `Object.values`: the gate passes on `false` (no values), and on a map exactly when every entry is true |
| `Validation.StoredResultsOpenGateIffComplete` | form.tsx:43-60 | a map stored under a branch choice opens the gate exactly when every required answer of that branch is given |
| `Validation.IsAsciiLetter` | form.tsx:187 | a character of the class `[a-zA-Z]` |
| `Validation.LettersOnly` | form.tsx:187 | `/^[a-zA-Z]+$/.test(s)`: a non-empty string of ASCII letters; a string that passes is non-empty |
| `Validation.LettersOnlyMatchesPattern` | form.tsx:187 | the closed form agrees on every string with the pattern read as a one-or-more matcher (one letter, then the end or the pattern again) |
| `Validation.Question2Invalid` | form.tsx:184-190 | question 2 is flagged at render time exactly when the choice is "Option 1" and the answer fails `^[a-zA-Z]+$` |
| `Validation.Question6Invalid` | form.tsx:336-342 | the `is-invalid` condition of question 6 (the input is rendered only while `showQuestions6to9` is set, form.tsx:328): `validated` is a map (is truthy) and the answer fails `^[a-zA-Z]+$`; `shouldValidate` plays no part |
| `Validation.SubmitCheckIgnoresLetterRule` | form.tsx:185-187 | an answer "abc1" to question 2 passes the submit check and opens the gate, while it is still flagged at render time |
| `Component.InitialState` | form.tsx:19-22 | the first render has every answer empty, `validated` false and both branches hidden |
| `Component.AfterChange` | form.tsx:24-37 | a change sets the record to the changed record, leaves every other answer, `validated` and both flags unchanged |
| `Component.AfterRadioChange` | form.tsx:94-99 | a radio change sets question1 to the value and only that field; sets the Option-1 flag to `value == "Option 1"` and the Option-2 flag to `value == "Option 2"`, so the flags are never both set; leaves `validated` unchanged |
| `Component.AfterSubmit` | form.tsx:39-70 | submit posts exactly when the gate passes on the pre-submit `validated`; the post carries the full record; the new `validated` is the branch map; answers and flags are unchanged |
| `Component.AfterClear` | form.tsx:120-123 | clear empties every answer and sets `validated` back to `false` and leaves both flags as they were |
| `Component.NewForm.constructor` | form.tsx:19-22 | the component starts with `initialFormData`, `validated` false and both branches hidden |
| `Component.NewForm.HandleChange` | form.tsx:24-37 | the handler makes exactly the change transition: the record becomes the changed record, nothing else moves |
| `Component.NewForm.HandleSubmit` | form.tsx:39-92 | the handler makes exactly the submit transition and returns the single post, issued exactly when the gate passes on the old `validated` |
| `Component.NewForm.HandleRadioChange` | form.tsx:94-99 | the handler makes exactly the radio transition |
| `Component.NewForm.HandleClearForm` | form.tsx:120-123 | the handler makes exactly the clear transition |
| `Session.Step` | form.tsx:62-70 | only a submit posts |
| `Session.Run` | form.tsx:62-70 | over a whole run, there are at most as many posts as submit events |
| `Session.NoSubmitKeepsNotValidated` | form.tsx:20-22 | without a submit, nothing is posted, and a `validated` of `false` stays `false` |
| `Session.FirstSubmitAlwaysPosts` | form.tsx:60-70 | from `validated == false`, after any events short of a submit, the next submit posts exactly the current record |
| `Session.SubmitAfterClearPosts` | form.tsx:120-123 | after a clear, whatever events come before it, the next submit posts the current record |
| `Session.SecondSubmitPostsIffComplete` | form.tsx:43-62 | under a branch choice, a second submit in a row posts exactly when every required answer of that branch is given |
| `Session.FlagsExclusive` | form.tsx:97-98 | over any run of events, the two branch flags are never both set |
| `Session.FlagsOnlyFollowRadio` | form.tsx:94-99 | the flags change only through a radio change; a clear leaves them as they were |
| `Session.FlagsFollowChoice` | form.tsx:94-99 | every handler keeps the invariant that question1 == "Option 1" has questions 2 to 5 shown and question1 == "Option 2" has questions 6 to 9 shown |
| `Session.ChosenBranchIsShown` | form.tsx:175-190 | over every run from the first render, the branch question1 chooses is shown, so question 2 is on screen whenever its `is-invalid` condition holds |
| `Session.IncompleteFirstSubmitPosts` | form.tsx:60-70 | choosing "Option 1" and submitting at once posts a record whose required answers are all empty; a clear afterwards leaves the Option-1 questions shown while question 1 is empty again |
| `Session.ChangesKeepValidated` | form.tsx:24-37 | answer changes alone post nothing and leave `validated` as it is |
| `Session.ClosedGateBlocksOneSubmit` | form.tsx:59-70 | from a closed gate, after answer changes only, the next submit posts nothing; if the map it stores opens the gate, the submit after it posts the record as the changes left it |
| `Session.CompletedAnswersPostOnSecondTry` | form.tsx:43-70 | after a submit with a mandatory answer missing, once the changes that follow give every mandatory answer, the next submit is still refused and the one after it posts the completed record |
| `Session.Question6FlaggedOnBranchSwitch` | form.tsx:328-342 | after a submit under "Option 1" with a question-6 answer that fails the pattern, a switch to "Option 2" shows question 6 and flags it invalid, while the stored map has no "question6" entry |

## Left out

- JSX markup, Bootstrap class strings, and `showInvalidFeedback` are presentation only, so they are not modelled (form.tsx:101-105, 126-484). The exception is the two render-time `is-invalid` conditions that use the letter-only test. Those are modelled as `Question2Invalid` and `Question6Invalid`.
- The SweetAlert popups and `console.log`/`console.error` are UI and logging side effects.
- The `axios.post` call is reduced to its request record. Its `.then`/`.catch` branching is asynchronous network I/O. Neither the endpoint URL nor the outcome of the request changes the component's state.
- `e.preventDefault()` has no effect on the modelled state.
- React rendering and update batching are not modelled, except for the stale read of `validated` in `handleSubmit`. Between two handler calls, the model assumes every setter has taken effect.
- The JavaScript regex engine is not modelled. `^[a-zA-Z]+$` is the predicate "non-empty, and every character is in 'a'..'z' or 'A'..'Z'".
- `HandleChange` requires a well-formed event. A checkbox event names question 4 or question 8, and a text event names question 2, 3, 5, 6, 7 or 9. The markup wires its inputs only that way: question 1 is changed only by `handleRadioChange`. In JavaScript, an event for another field name would add a new key to the record, change the kind of an answer, or set question 1 without its flags. The model does not cover these events: the typed record cannot represent the first two, and the markup never sends the third.
