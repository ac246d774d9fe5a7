# Booking wizard of the property-maintenance site, in Dafny

The booking page (`src/pages/Book.tsx`) is a four-step wizard:

1. select services;
2. pick a visit frequency;
3. enter contact and property details;
4. review, choose a payment preference and submit.

Its state has four parts: `step`, `selectedServices`, `frequency`, and the `formData` record. Events change that state: clicking a service or frequency card, editing a details field, checking a payment radio, Continue, Back and Submit. Each Continue button is disabled unless its step's guard holds. Submit resets everything to the state the page mounts with.

This project models that state machine as pure functions and proves its properties:

- `Catalog` holds the service, frequency, time-slot and payment tables and the `find` lookups on them.
- `Selection` holds the service toggle (`handleServiceToggle`) and the `filter` it uses.
- `Wizard` holds the `State` and `Form` records, the `Event` datatype, the transition function `Step` and the run of an event sequence, `Run`. It also has one lemma per kind of event.
- `Reachability` holds the invariant `Consistent`. Every run from the mounting state ends in a consistent state. Conversely, every consistent state is reached by an explicit event sequence, `Route`. So `Consistent` is exactly the set of states the model's events can reach, where a text-field edit may enter any string (see "## Left out").
- `Confirm` holds the review step's name lookups. When the review step shows, every selected service and the chosen frequency resolve to a name.

Modelling choices:

- `Step` is total. An event that no control in the current view could produce leaves the state unchanged. Examples are a card of another step, a disabled Continue, an id that is not in the card table, a time that is not a select option, or a payment value other than the two radio values.
- Submit is accepted only at step 4. The only submit button is on the review step. The details step has several text inputs and no submit button, so pressing Enter there does not submit the form.
- The `required` attributes on the details inputs play no part in the model. The Continue buttons are `type="button"`, so the browser never runs form validation for them. The guard on line 334 is what gates step 3.
- Strings are `seq<char>`. JavaScript's `!s` on a string is modelled as `s == ""`.

Continue on the details step requires name, email, phone and address (line 334). The optional fields (preferred date, preferred time and notes) do not gate it.

## Model

| member | source | states |
|---|---|---|
| Catalog.Find | src/pages/Book.tsx:354 | `find` on a table, as used for `services.find` here and `frequencies.find` on line 365: it returns an entry iff some entry has the id; the entry it returns has that id and is the first such entry in table order |
| Catalog.ServiceIdsResolve | src/pages/Book.tsx:11-18 | an id is a service card id iff looking it up in the services table succeeds |
| Catalog.FrequencyIdsResolve | src/pages/Book.tsx:20-25 | an id is a frequency card id iff looking it up in the frequencies table succeeds |
| Catalog.TableIdsWellFormed | src/pages/Book.tsx:11-25 | no table id is empty, so a picked frequency always passes the `!frequency` guard; ids within each table are distinct |
| Selection.Without | src/pages/Book.tsx:52 | the filter keeps exactly the ids other than the removed one; it is the identity when the id is absent; it keeps a list duplicate-free and then shortens it by exactly one when the id was present |
| Selection.Toggle | src/pages/Book.tsx:49-55 | a present id ends up absent and every other id keeps its membership; an absent id is appended at the end with the prefix unchanged; the selection stays duplicate-free |
| Selection.WithoutRemovesOnePosition | src/pages/Book.tsx:52 | in a duplicate-free list, filtering out the id at position i yields the list with exactly position i deleted, so the order of the rest is preserved |
| Selection.ToggleIsSymmetricDifference | src/pages/Book.tsx:49-55 | as a set, the toggled selection is the symmetric difference of the old selection with {id} |
| Selection.ToggleTwiceAbsent | src/pages/Book.tsx:49-55 | toggling an absent id twice gives back exactly the original list |
| Selection.ToggleTwicePresent | src/pages/Book.tsx:49-55 | toggling a selected id twice moves it to the end; the result is a permutation of the original |
| Selection.ToggleStaysWithin | src/pages/Book.tsx:127-135 | toggling an id from the services table never adds an id from outside the table |
| Wizard.StepConfined | src/pages/Book.tsx:49-435 | the transition `Step`, which dispatches to one function per handler: the selection changes only by a service click at step 1, the frequency only by a frequency click at step 2, the form only by a details edit at step 3 or a payment radio at step 4, and each only otherwise by Submit at step 4; the step moves only by Continue (exactly +1, nothing else changed), Back (exactly -1, nothing else changed) or Submit (to the mounting state), and never leaves [1, 4] |
| Wizard.RunConfined | src/pages/Book.tsx:121-439 | the run of an event sequence `Run`: the step stays in [1, 4] throughout, and a run with no service click and no submit leaves the selection unchanged |
| Wizard.Reset | src/pages/Book.tsx:64-76 | the state written back by `handleSubmit` equals the state `useState` mounts with (lines 35-47) |
| Wizard.SetField | src/pages/Book.tsx:243-314 | a details edit sets the one edited field to the new value and leaves the other six fields and the payment preference as they were |
| Wizard.ContinueGuarded | src/pages/Book.tsx:156-339 | Continue advances exactly one step iff the current step's guard holds: step 1 needs a non-empty selection, step 2 a non-empty frequency, step 3 a non-empty name, email, phone and address, and step 4 has no Continue; otherwise nothing changes; selection, frequency and form are never touched |
| Wizard.BackKeepsData | src/pages/Book.tsx:209-427 | from steps 2 to 4, Back goes to step - 1 and changes nothing else; at step 1 there is no Back button |
| Wizard.SubmitRestoresInitial | src/pages/Book.tsx:57-77 | Submit at step 4 yields the mounting state: step 1, empty selection, empty frequency, every text field "", payment "online" |
| Wizard.PaymentOnlyChangesPayment | src/pages/Book.tsx:393-412 | a payment radio changes nothing but the payment preference, and changes it only at step 4 and only to "online" or "invoice" |
| Wizard.EditOnlyChangesField | src/pages/Book.tsx:237-318 | a details edit leaves step, selection and frequency alone and changes the form only at step 3, by setting that one field |
| Wizard.PickOnlyChangesFrequency | src/pages/Book.tsx:175-206 | picking a frequency changes nothing but the frequency, and changes it only at step 2 and only to an id of the frequency table; at step 2 a click on any table card sets the frequency to that id, replacing any earlier choice (line 183) |
| Wizard.ToggleOnlyChangesSelection | src/pages/Book.tsx:123-153 | clicking a service card changes nothing but the selection, and changes it only at step 1, by the toggle; at step 1 a click on any table card applies the toggle to whatever is selected, so any selected id is removed and any other is appended (lines 49-55, 135) |
| Reachability.InitialIsConsistent | src/pages/Book.tsx:35-47 | the mounting state satisfies the wizard invariant |
| Reachability.StepKeepsConsistent | src/pages/Book.tsx:123-435 | every event from every view preserves the wizard invariant |
| Reachability.RunKeepsConsistent | src/pages/Book.tsx:123-435 | every event sequence from a consistent state ends in a consistent state |
| Reachability.ReachableStates | src/pages/Book.tsx:35-335 | after any events from mount: 1 <= step <= 4; the selection is a duplicate-free list of service ids; the frequency is "" or a table id; payment is "online" or "invoice"; step >= 2 implies a non-empty selection; step >= 3 implies a non-empty frequency; step 4 implies non-empty name, email, phone and address |
| Reachability.ConsistentIsReachable | src/pages/Book.tsx:123-435 | every consistent state is reached from the mounting state by an explicit event sequence, so the invariant is exact and not merely an over-approximation |
| Reachability.RunToggles | src/pages/Book.tsx:127-135 | at step 1, clicking distinct table services in order appends them in that order |
| Reachability.RunAdvance | src/pages/Book.tsx:156-339 | repeated Continue climbs step by step up to any step whose guards the data satisfies |
| Confirm.ServiceLabels | src/pages/Book.tsx:353-360 | a selected id gets a name in the review list iff it is a services-table id, and the name is that entry's |
| Confirm.Label | src/pages/Book.tsx:354-357 | `services.find(s => s.id === id)?.name` for one id: a name exactly when the id is a services-table id, and then that entry's name |
| Confirm.FrequencyLabel | src/pages/Book.tsx:365 | the frequency gets a name in the review iff it is a frequencies-table id, and the name is that entry's |
| Confirm.ReviewShowsEveryName | src/pages/Book.tsx:345-365 | whenever the review step is reached, it lists at least one service, and every listed service and the frequency show a name, never `undefined` |

## Left out

- The page hero, the progress indicator (lines 91-116) and all CSS class choices: presentation only.
- The toast shown on submit (lines 59-62): a call into a UI library whose behaviour is not visible here.
- The "Preferred Schedule" line of the review step (lines 379-388): it formats the date with `toLocaleDateString`, which is locale-dependent library behaviour.
- Text-field values are arbitrary strings in the model. The browser's controls are narrower: text, email and tel inputs cannot hold line breaks, an email input trims surrounding whitespace, and a date input yields only "" or a `yyyy-mm-dd` date. So `Consistent` also admits states, such as a name containing a line break, that no real browser produces. Nothing in the model depends on the shape of these values. The page itself passes the date to `new Date(...)` on line 383, which is left out with the schedule line.
- `e.preventDefault()` and React's batching of the four setters in `handleSubmit` are not modelled. Each event is one atomic transition.
- `src/pages/Contact.tsx`: its submit is an asynchronous handler. It sets an `isSubmitting` flag, waits a simulated one second, shows a toast, resets its fields and clears the flag (Contact.tsx lines 21-42). That is simulated I/O and timing with no logic worth proving.
- Header, Footer and the static content pages (Index, Services, Packages, Memberships, About, Agents, FAQ, Privacy, Terms): navigation and static tables with no logic.
