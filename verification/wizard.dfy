/** The four-step booking wizard of src/pages/Book.tsx: its state
    (lines 35-47), the events its views offer, and the transition function. */
module Wizard {
  import opened Catalog
  import opened Selection

  /** The `formData` record (lines 38-47). */
  datatype Form = Form(
    name: string,
    email: string,
    phone: string,
    address: string,
    preferredDate: string,
    preferredTime: string,
    notes: string,
    paymentPreference: string)

  /** The page's state: `step`, `selectedServices`, `frequency`, `formData`. */
  datatype State = State(step: int, selected: seq<string>, frequency: string, form: Form)

  /** The free-text (and select) fields of the details step. */
  datatype Field = Name | Email | Phone | Address | PreferredDate | PreferredTime | Notes

  /** Everything the user can do on the page. */
  datatype Event =
    | ToggleService(id: string)        // click a service card (line 135)
    | PickFrequency(id: string)        // click a frequency card (line 183)
    | EditField(field: Field, value: string)  // change a details input (lines 243-314)
    | ChoosePayment(value: string)     // check a payment radio (lines 398, 409)
    | Continue                         // lines 161, 223, 335
    | Back                             // lines 213, 325, 423
    | Submit                           // the form's submit (lines 57-77, 428-435)

  /** The form as `useState` first creates it (lines 38-47). */
  const InitialForm: Form := Form("", "", "", "", "", "", "", "online")

  /** The state the page mounts with (lines 35-47). */
  const Initial: State := State(1, [], "", InitialForm)

  /** The state `handleSubmit` writes back (lines 64-76); written out on its
      own, as the handler does, so that it can be compared with `Initial`. */
  function Reset(): (r: State)
    ensures r == Initial
  {
    State(1, [], "", Form("", "", "", "", "", "", "", "online"))
  }

  /** The details Continue button is enabled (line 334). */
  predicate DetailsComplete(f: Form) {
    f.name != "" && f.email != "" && f.phone != "" && f.address != ""
  }

  /** The Continue button of the current step is enabled
      (lines 160, 222, 334); step 4 has no Continue button. */
  predicate CanContinue(s: State) {
    || (s.step == 1 && |s.selected| != 0)
    || (s.step == 2 && s.frequency != "")
    || (s.step == 3 && DetailsComplete(s.form))
  }

  /** `setFormData({...formData, <field>: value})` (lines 243-314). */
  function SetField(f: Form, field: Field, v: string): (r: Form)
    ensures r.paymentPreference == f.paymentPreference
    ensures r.name == (if field == Name then v else f.name)
    ensures r.email == (if field == Email then v else f.email)
    ensures r.phone == (if field == Phone then v else f.phone)
    ensures r.address == (if field == Address then v else f.address)
    ensures r.preferredDate == (if field == PreferredDate then v else f.preferredDate)
    ensures r.preferredTime == (if field == PreferredTime then v else f.preferredTime)
    ensures r.notes == (if field == Notes then v else f.notes)
  {
    match field
    case Name => f.(name := v)
    case Email => f.(email := v)
    case Phone => f.(phone := v)
    case Address => f.(address := v)
    case PreferredDate => f.(preferredDate := v)
    case PreferredTime => f.(preferredTime := v)
    case Notes => f.(notes := v)
  }

  /** One event. Each control exists only in the view of its own step
      (`step === 1/2/3/4`, lines 123, 171, 233, 345) and only produces the
      values it offers (a card's id, a select option, a radio value), and a
      disabled Continue ignores clicks; an event no control can produce in the
      current state leaves the state as it is. */
  function Step(s: State, e: Event): State
  {
    match e
    case ToggleService(id) => ClickService(s, id)
    case PickFrequency(id) => ClickFrequency(s, id)
    case EditField(field, v) => Edit(s, field, v)
    case ChoosePayment(v) => CheckPayment(s, v)
    case Continue => ClickContinue(s)
    case Back => ClickBack(s)
    case Submit => SubmitForm(s)
  }

  /** A service card (lines 127-135) calls the toggle handler. */
  function ClickService(s: State, id: string): State {
    if s.step == 1 && id in ServiceIds() then s.(selected := Toggle(s.selected, id)) else s
  }

  /** A frequency card (lines 175-183) sets the frequency to its id. */
  function ClickFrequency(s: State, id: string): State {
    if s.step == 2 && id in FrequencyIds() then s.(frequency := id) else s
  }

  /** A details control (lines 237-318); the time select only offers its
      options. */
  function Edit(s: State, field: Field, v: string): State {
    if s.step == 3 && (field == PreferredTime ==> v in TimeOptions)
    then s.(form := SetField(s.form, field, v))
    else s
  }

  /** A payment radio (lines 393-412) sets the preference to its value. */
  function CheckPayment(s: State, v: string): State {
    if s.step == 4 && v in PaymentOptions then s.(form := s.form.(paymentPreference := v)) else s
  }

  /** The Continue buttons (lines 156-165, 218-227, 330-339). */
  function ClickContinue(s: State): State {
    if s.step == 1 && |s.selected| != 0 then s.(step := 2)
    else if s.step == 2 && s.frequency != "" then s.(step := 3)
    else if s.step == 3 && DetailsComplete(s.form) then s.(step := 4)
    else s
  }

  /** The Back buttons (lines 209-217, 321-329, 419-427). */
  function ClickBack(s: State): State {
    if s.step == 2 then s.(step := 1)
    else if s.step == 3 then s.(step := 2)
    else if s.step == 4 then s.(step := 3)
    else s
  }

  /** The form's submit, whose only button is on the review step
      (lines 57-77, 428-435). */
  function SubmitForm(s: State): State {
    if s.step == 4 then Reset() else s
  }

  /** The state after a sequence of events, in order. */
  function Run(s: State, events: seq<Event>): State
    decreases |events|
  {
    if |events| == 0 then s else Run(Step(s, events[0]), events[1..])
  }

  /** Running `a` and then `b` is running `a + b`. */
  lemma {:induction false} RunAppend(s: State, a: seq<Event>, b: seq<Event>)
    ensures Run(s, a + b) == Run(Run(s, a), b)
    decreases |a|
  {
    if |a| != 0 {
      assert (a + b)[0] == a[0];
      assert (a + b)[1..] == a[1..] + b;
      RunAppend(Step(s, a[0]), a[1..], b);
    } else {
      assert a + b == b;
    }
  }

  /** Each part of the state has its own handlers, each rendered on its own
      step: the selection changes only by a service click at step 1, the
      frequency only by a frequency click at step 2, the form only by an edit
      at step 3 or a payment radio at step 4, and the step only by Continue
      (one forward), Back (one back) or Submit (back to the mounting state). */
  lemma StepConfined(s: State, e: Event)
    ensures var r := Step(s, e);
            r.selected != s.selected ==>
              (s.step == 1 && e.ToggleService?) || (s.step == 4 && e.Submit?)
    ensures var r := Step(s, e);
            r.frequency != s.frequency ==>
              (s.step == 2 && e.PickFrequency?) || (s.step == 4 && e.Submit?)
    ensures var r := Step(s, e);
            r.form != s.form ==>
              (s.step == 3 && e.EditField?) || (s.step == 4 && (e.ChoosePayment? || e.Submit?))
    ensures var r := Step(s, e);
            r.step != s.step ==>
              || (e.Continue? && r.step == s.step + 1 && r == s.(step := r.step))
              || (e.Back? && r.step == s.step - 1 && r == s.(step := r.step))
              || (e.Submit? && r == Initial)
    ensures 1 <= s.step <= 4 ==> 1 <= Step(s, e).step <= 4
  {
  }

  /** Over any run, the step stays in [1, 4], and the selection can only
      change if the run clicks a service card or submits. */
  lemma {:induction false} RunConfined(s: State, events: seq<Event>)
    ensures 1 <= s.step <= 4 ==> 1 <= Run(s, events).step <= 4
    ensures (forall i :: 0 <= i < |events| ==> !events[i].ToggleService? && !events[i].Submit?)
              ==> Run(s, events).selected == s.selected
    decreases |events|
  {
    if |events| != 0 {
      StepConfined(s, events[0]);
      RunConfined(Step(s, events[0]), events[1..]);
      assert forall i :: 0 <= i < |events[1..]| ==> events[1..][i] == events[i + 1];
    }
  }

  /** Continue advances exactly one step, and only from a step whose guard
      holds; otherwise nothing at all changes. Selection, frequency and form
      are never touched by it. */
  lemma ContinueGuarded(s: State)
    ensures Step(s, Continue).step == s.step + 1 <==> CanContinue(s)
    ensures !CanContinue(s) ==> Step(s, Continue) == s
    ensures Step(s, Continue).selected == s.selected
    ensures Step(s, Continue).frequency == s.frequency
    ensures Step(s, Continue).form == s.form
  {
  }

  /** Back from steps 2 to 4 goes to the previous step and keeps every piece
      of entered data; step 1 has no Back button. */
  lemma BackKeepsData(s: State)
    ensures 2 <= s.step <= 4 ==> Step(s, Back) == s.(step := s.step - 1)
    ensures !(2 <= s.step <= 4) ==> Step(s, Back) == s
  {
  }

  /** Submitting from the review step restores exactly the mounting state:
      step 1, nothing selected, no frequency, every text field empty and
      online payment. */
  lemma SubmitRestoresInitial(s: State)
    requires s.step == 4
    ensures Step(s, Submit) == Initial
    ensures Step(s, Submit).step == 1 && Step(s, Submit).selected == []
    ensures Step(s, Submit).frequency == ""
    ensures Step(s, Submit).form.paymentPreference == "online"
    ensures var f := Step(s, Submit).form;
            f.name == f.email == f.phone == f.address == f.preferredDate
            == f.preferredTime == f.notes == ""
  {
  }

  /** A payment radio changes the payment preference, to one of its two
      values, and nothing else. */
  lemma PaymentOnlyChangesPayment(s: State, v: string)
    ensures var t := Step(s, ChoosePayment(v));
            t == s.(form := s.form.(paymentPreference := t.form.paymentPreference))
    ensures var t := Step(s, ChoosePayment(v));
            t.form.paymentPreference != s.form.paymentPreference ==>
              s.step == 4 && t.form.paymentPreference == v && v in PaymentOptions
  {
  }

  /** A details edit changes only the one field it edits, and only at step 3. */
  lemma EditOnlyChangesField(s: State, field: Field, v: string)
    ensures var t := Step(s, EditField(field, v));
            t.step == s.step && t.selected == s.selected && t.frequency == s.frequency
    ensures var t := Step(s, EditField(field, v));
            t != s ==> s.step == 3 && t.form == SetField(s.form, field, v)
  {
  }

  /** Picking a frequency changes only the frequency, only at step 2, and
      only to an id of the frequency table; at step 2 every card click sets
      the frequency to its id, whatever was chosen before. */
  lemma PickOnlyChangesFrequency(s: State, id: string)
    ensures var t := Step(s, PickFrequency(id));
            t == s.(frequency := t.frequency)
    ensures var t := Step(s, PickFrequency(id));
            t.frequency != s.frequency ==> s.step == 2 && t.frequency == id && id in FrequencyIds()
    ensures s.step == 2 && id in FrequencyIds() ==> Step(s, PickFrequency(id)).frequency == id
  {
  }

  /** Toggling a service changes only the selection, only at step 1; at
      step 1 every card click applies the toggle, whatever is selected. */
  lemma ToggleOnlyChangesSelection(s: State, id: string)
    ensures var t := Step(s, ToggleService(id));
            t == s.(selected := t.selected)
    ensures var t := Step(s, ToggleService(id));
            t.selected != s.selected ==> s.step == 1 && t.selected == Toggle(s.selected, id)
    ensures s.step == 1 && id in ServiceIds() ==> Step(s, ToggleService(id)).selected == Toggle(s.selected, id)
  {
  }
}
