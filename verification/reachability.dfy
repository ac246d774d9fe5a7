/** Which states the booking wizard can reach from the state it mounts with.
    The selection is edited only at step 1, the frequency only at step 2 and
    the details only at step 3, and every Continue is guarded, so a later
    step always has the earlier steps' data filled in. `Consistent` states
    this exactly for the model's events, in which a text field may take any
    string: every run from `Initial` ends in a consistent state, and every
    consistent state is the end of some run. */
module Reachability {
  import opened Catalog
  import opened Selection
  import opened Wizard

  /** The invariant of the wizard's state. */
  predicate Consistent(s: State) {
    && 1 <= s.step <= 4
    && NoDuplicates(s.selected)
    && Within(s.selected, ServiceIds())
    && (s.frequency == "" || s.frequency in FrequencyIds())
    && s.form.preferredTime in TimeOptions
    && s.form.paymentPreference in PaymentOptions
    && (s.step >= 2 ==> |s.selected| != 0)
    && (s.step >= 3 ==> s.frequency != "")
    && (s.step == 4 ==> DetailsComplete(s.form))
    // the details can only have been edited after a frequency was chosen,
    // and a chosen frequency is only ever cleared together with the details
    && (s.frequency == "" ==> s.form == InitialForm)
  }

  lemma InitialIsConsistent()
    ensures Consistent(Initial)
  {
  }

  /** Every event keeps the invariant. */
  lemma StepKeepsConsistent(s: State, e: Event)
    requires Consistent(s)
    ensures Consistent(Step(s, e))
  {
    if e.ToggleService? && s.step == 1 && e.id in ServiceIds() {
      ToggleStaysWithin(s.selected, e.id, ServiceIds());
    }
  }

  /** Every run from a consistent state ends in a consistent state. */
  lemma {:induction false} RunKeepsConsistent(s: State, events: seq<Event>)
    requires Consistent(s)
    ensures Consistent(Run(s, events))
    decreases |events|
  {
    if |events| != 0 {
      StepKeepsConsistent(s, events[0]);
      RunKeepsConsistent(Step(s, events[0]), events[1..]);
    }
  }

  /** What every reachable state satisfies: the step stays in [1, 4], the
      selection is a duplicate-free list of service-table ids, and each
      later step implies the earlier steps' data is filled in. */
  lemma ReachableStates(events: seq<Event>)
    ensures var t := Run(Initial, events);
            && 1 <= t.step <= 4
            && NoDuplicates(t.selected)
            && Within(t.selected, ServiceIds())
            && (t.frequency == "" || t.frequency in FrequencyIds())
            && t.form.paymentPreference in PaymentOptions
            && (t.step >= 2 ==> |t.selected| > 0)
            && (t.step >= 3 ==> t.frequency != "")
            && (t.step == 4 ==> DetailsComplete(t.form))
  {
    InitialIsConsistent();
    RunKeepsConsistent(Initial, events);
  }

  // ---------------------------------------------------------------------
  // The converse: a route from `Initial` to every consistent state.

  /** One click on each of the given service cards, in order. */
  function Toggles(ids: seq<string>): seq<Event>
  {
    seq(|ids|, i requires 0 <= i < |ids| => ToggleService(ids[i]))
  }

  /** `n` clicks on Continue. */
  function Advance(n: nat): seq<Event>
  {
    seq(n, i => Continue)
  }

  /** Pass steps 1 and 2 with a placeholder selection and the wanted frequency. */
  function PassSelection(frequency: string): seq<Event> {
    [ToggleService("windows"), Continue, PickFrequency(frequency), Continue]
  }

  /** Visit the review step to choose the payment, and come back. */
  function VisitReview(payment: string): seq<Event> {
    [Continue, ChoosePayment(payment), Back]
  }

  /** Enter the required details of `f`. */
  function EnterRequired(f: Form): seq<Event> {
    [EditField(Name, f.name), EditField(Email, f.email), EditField(Phone, f.phone),
     EditField(Address, f.address)]
  }

  /** Enter the optional details of `f`. */
  function EnterOptional(f: Form): seq<Event> {
    [EditField(PreferredDate, f.preferredDate), EditField(PreferredTime, f.preferredTime),
     EditField(Notes, f.notes)]
  }

  /** Go back to step 1 and clear the placeholder selection. */
  function ReturnToStart(): seq<Event> {
    [Back, Back, ToggleService("windows")]
  }

  /** The events that set `t`'s frequency and form and return to step 1 with
      nothing selected: pass steps 1 and 2, fill the required details with
      placeholders so that the review step opens, choose the payment there,
      come back, enter the real details and return to step 1. */
  function Detour(t: State): seq<Event> {
    PassSelection(t.frequency) + EnterRequired(Placeholder("")) + VisitReview(t.form.paymentPreference)
    + EnterRequired(t.form) + EnterOptional(t.form) + ReturnToStart()
  }

  /** A sequence of events that leads from `Initial` to `t`. */
  function Route(t: State): seq<Event> {
    var finish := Toggles(t.selected) + Advance(if t.step >= 1 then t.step - 1 else 0);
    if t.frequency == "" then finish else Detour(t) + finish
  }

  /** At step 1, clicking distinct service cards in order appends their ids
      in that order. */
  lemma {:induction false} RunToggles(s: State, ids: seq<string>)
    requires s.step == 1
    requires NoDuplicates(s.selected + ids)
    requires Within(ids, ServiceIds())
    ensures Run(s, Toggles(ids)) == s.(selected := s.selected + ids)
    decreases |ids|
  {
    if |ids| != 0 {
      var x := ids[0];
      assert (s.selected + ids)[|s.selected|] == x;
      assert forall k :: 0 <= k < |s.selected| ==> (s.selected + ids)[k] == s.selected[k];
      assert x !in s.selected;
      var s' := s.(selected := s.selected + [x]);
      assert Step(s, ToggleService(x)) == s';
      assert Toggles(ids)[1..] == Toggles(ids[1..]);
      assert s'.selected + ids[1..] == s.selected + ids;
      RunToggles(s', ids[1..]);
    } else {
      assert s.selected + ids == s.selected;
    }
  }

  /** Repeated Continue climbs one step at a time to any step whose guards
      the data already meets. */
  lemma {:induction false} RunAdvance(s: State, n: nat)
    requires 1 <= s.step
    requires Consistent(s.(step := s.step + n))
    ensures Run(s, Advance(n)) == s.(step := s.step + n)
    decreases n
  {
    if n != 0 {
      assert CanContinue(s);
      assert Advance(n)[1..] == Advance(n - 1);
      RunAdvance(s.(step := s.step + 1), n - 1);
    }
  }

  /** A run of one event is that event's step. */
  lemma RunSingle(s: State, e: Event)
    ensures Run(s, [e]) == Step(s, e)
  {
    assert [e][1..] == [];
  }

  /** A run of three events is their three steps in turn. */
  lemma RunThree(s: State, a: Event, b: Event, c: Event)
    ensures Run(s, [a, b, c]) == Step(Step(Step(s, a), b), c)
  {
    RunSingle(s, a);
    RunSingle(Step(s, a), b);
    RunSingle(Step(Step(s, a), b), c);
    RunAppend(s, [a], [b]);
    RunAppend(s, [a] + [b], [c]);
    assert [a] + [b] + [c] == [a, b, c];
  }

  /** A run of four events is their four steps in turn. */
  lemma RunFour(s: State, a: Event, b: Event, c: Event, d: Event)
    ensures Run(s, [a, b, c, d]) == Step(Step(Step(Step(s, a), b), c), d)
  {
    RunThree(s, a, b, c);
    RunSingle(Step(Step(Step(s, a), b), c), d);
    RunAppend(s, [a, b, c], [d]);
    assert [a, b, c] + [d] == [a, b, c, d];
  }

  /** The form holding the placeholder details and payment `p`. */
  function Placeholder(p: string): (f: Form)
    ensures DetailsComplete(f)
  {
    InitialForm.(name := "-", email := "-", phone := "-", address := "-", paymentPreference := p)
  }

  lemma PassSelectionArrives(frequency: string)
    requires frequency in FrequencyIds()
    ensures Run(Initial, PassSelection(frequency)) == State(3, ["windows"], frequency, InitialForm)
  {
    assert Services[0].id == "windows";
    var w := ["windows"];
    RunFour(Initial, ToggleService("windows"), Continue, PickFrequency(frequency), Continue);
    assert Step(Initial, ToggleService("windows")) == State(1, w, "", InitialForm);
    assert Step(State(1, w, "", InitialForm), Continue) == State(2, w, "", InitialForm);
    assert Step(State(2, w, "", InitialForm), PickFrequency(frequency)) == State(2, w, frequency, InitialForm);
  }

  lemma VisitReviewArrives(s: State, payment: string)
    requires s.step == 3 && DetailsComplete(s.form)
    requires payment in PaymentOptions
    ensures Run(s, VisitReview(payment)) == s.(form := s.form.(paymentPreference := payment))
  {
    var s' := s.(form := s.form.(paymentPreference := payment));
    RunThree(s, Continue, ChoosePayment(payment), Back);
    assert Step(s, Continue) == s.(step := 4);
    assert Step(s.(step := 4), ChoosePayment(payment)) == s'.(step := 4);
  }

  lemma EnterRequiredArrives(s: State, f: Form)
    requires s.step == 3
    ensures Run(s, EnterRequired(f))
            == s.(form := s.form.(name := f.name, email := f.email, phone := f.phone,
                                  address := f.address))
  {
    var f1 := s.form.(name := f.name);
    var f2 := f1.(email := f.email);
    var f3 := f2.(phone := f.phone);
    RunFour(s, EditField(Name, f.name), EditField(Email, f.email), EditField(Phone, f.phone),
            EditField(Address, f.address));
    assert Step(s, EditField(Name, f.name)) == s.(form := f1);
    assert Step(s.(form := f1), EditField(Email, f.email)) == s.(form := f2);
    assert Step(s.(form := f2), EditField(Phone, f.phone)) == s.(form := f3);
    assert Step(s.(form := f3), EditField(Address, f.address)) == s.(form := f3.(address := f.address));
  }

  lemma EnterOptionalArrives(s: State, f: Form)
    requires s.step == 3
    requires f.preferredTime in TimeOptions
    ensures Run(s, EnterOptional(f))
            == s.(form := s.form.(preferredDate := f.preferredDate,
                                  preferredTime := f.preferredTime, notes := f.notes))
  {
    var f1 := s.form.(preferredDate := f.preferredDate);
    var f2 := f1.(preferredTime := f.preferredTime);
    RunThree(s, EditField(PreferredDate, f.preferredDate), EditField(PreferredTime, f.preferredTime),
             EditField(Notes, f.notes));
    assert Step(s, EditField(PreferredDate, f.preferredDate)) == s.(form := f1);
    assert Step(s.(form := f1), EditField(PreferredTime, f.preferredTime)) == s.(form := f2);
    assert Step(s.(form := f2), EditField(Notes, f.notes)) == s.(form := f2.(notes := f.notes));
  }

  lemma ReturnToStartArrives(s: State)
    requires s.step == 3 && s.selected == ["windows"]
    ensures Run(s, ReturnToStart()) == s.(step := 1, selected := [])
  {
    assert Services[0].id == "windows";
    RunThree(s, Back, Back, ToggleService("windows"));
    assert Step(s, Back) == s.(step := 2);
    assert Step(s.(step := 2), Back) == s.(step := 1);
  }

  /** The detour sets `t`'s frequency and whole form and comes back to step 1
      with nothing selected. */
  lemma DetourArrives(t: State)
    requires Consistent(t)
    requires t.frequency != ""
    ensures Run(Initial, Detour(t)) == State(1, [], t.frequency, t.form)
  {
    var f := t.form;
    var p1 := PassSelection(t.frequency);
    var p2 := EnterRequired(Placeholder(""));
    var p3 := VisitReview(f.paymentPreference);
    var p4 := EnterRequired(f);
    var p5 := EnterOptional(f);
    var p6 := ReturnToStart();
    var s1 := State(3, ["windows"], t.frequency, InitialForm);
    var s2 := s1.(form := Placeholder(InitialForm.paymentPreference));
    var s3 := s1.(form := Placeholder(f.paymentPreference));
    var s4 := s3.(form := s3.form.(name := f.name, email := f.email, phone := f.phone,
                                   address := f.address));
    var s5 := s1.(form := f);
    var s6 := State(1, [], t.frequency, f);
    PassSelectionArrives(t.frequency);
    EnterRequiredArrives(s1, Placeholder(""));
    VisitReviewArrives(s2, f.paymentPreference);
    EnterRequiredArrives(s3, f);
    EnterOptionalArrives(s4, f);
    ReturnToStartArrives(s5);
    RunAppend(Initial, p1, p2);
    RunAppend(Initial, p1 + p2, p3);
    RunAppend(Initial, p1 + p2 + p3, p4);
    RunAppend(Initial, p1 + p2 + p3 + p4, p5);
    RunAppend(Initial, p1 + p2 + p3 + p4 + p5, p6);
  }

  /** From step 1 with nothing selected and everything else as in `t`:
      select `t`'s services in order and continue up to `t`'s step. */
  lemma FinishArrives(t: State)
    requires Consistent(t)
    ensures Run(State(1, [], t.frequency, t.form), Toggles(t.selected) + Advance(t.step - 1)) == t
  {
    var atStart := State(1, [], t.frequency, t.form);
    RunAppend(atStart, Toggles(t.selected), Advance(t.step - 1));
    assert [] + t.selected == t.selected;
    RunToggles(atStart, t.selected);
    RunAdvance(atStart.(selected := t.selected), t.step - 1);
  }

  /** Every consistent state is reachable: `Route(t)` leads from the mounting
      state to exactly `t`. Together with `InitialIsConsistent` and
      `RunKeepsConsistent`, this makes `Consistent` exactly the set of states
      the model's events reach from `Initial`. */
  lemma ConsistentIsReachable(t: State)
    requires Consistent(t)
    ensures Run(Initial, Route(t)) == t
  {
    if t.frequency == "" {
      NothingChosenIsReachable(t);
    } else {
      FrequencyChosenIsReachable(t);
    }
  }

  lemma NothingChosenIsReachable(t: State)
    requires Consistent(t)
    requires t.frequency == ""
    ensures Run(Initial, Route(t)) == t
  {
    FinishArrives(t);
    assert State(1, [], t.frequency, t.form) == Initial;
  }

  lemma FrequencyChosenIsReachable(t: State)
    requires Consistent(t)
    requires t.frequency != ""
    ensures Run(Initial, Route(t)) == t
  {
    DetourArrives(t);
    RunAppend(Initial, Detour(t), Toggles(t.selected) + Advance(t.step - 1));
    FinishArrives(t);
  }
}
