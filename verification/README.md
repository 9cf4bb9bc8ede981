# Time-slot picker: a Dafny model

The repository is a single React component, `TimeSlots`, that fetches a
static list of bookable slots once at mount. It shows one button per
distinct date. Picking a date shows that date's time buttons, and picking a
time enables a Book button. Booking only clears the selection. This project
models that component as a sequential state machine over immutable data.
It also proves what the component promises about its two derived views and
its transitions.

Modules, one concept each:

- `Types` (`types.dfy`): the `TimeSlot` record, `Option` for the
  component's nullable strings, and `Truthy`. `Truthy` is JavaScript's
  truthiness of a `string | null`, where both `null` and `""` are falsy. The
  component tests `selectedDate`, `selectedTimeSlot` and `error` with
  truthiness and not with `!== null`, and the model keeps that distinction.
- `Sequences` (`sequences.dfy`): generic sequence facts.
  - `InsertAll` is the insertion-ordered set that JavaScript's `Set`
    builds from an iterable.
  - `FirstOccurrences` is an independent reference definition of
    de-duplication. It keeps position `i` exactly when `xs[i]` is not in
    `xs[..i]`.
  - The module also defines first-occurrence order and subsequences.
- `Derive` (`derive.dfy`): the derived views `uniqueDates` (`UniqueDates`)
  and `filteredSlots` (`FilteredSlots`, built on `SlotsOn`).
- `Selector` (`selector.dfy`): the state, the handlers and the render
  predicates. It also has the events and `Enabled`, which says which clicks
  the rendered page lets through: only rendered buttons can be clicked, a
  disabled Book button swallows its click, and the error view renders no
  controls. `Step` applies one event and `Run` applies a sequence of them.
  The boolean `settled` records that the mount effect's one fetch has
  completed. The effect has an empty dependency list, so it runs once.
- `Behaviour` (`behaviour.dfy`): lemmas about toggling and booking. It also
  holds the invariant of every reachable state, the safety of booking, and
  the proof that error mode absorbs every later event.
- `Scenario` (`scenario.dfy`): the component's test scenarios, replayed on
  the same three sample slots.

Behaviour of the code that the model keeps, including its edge cases:

- Book is enabled by the time slot alone (`src/components/TimeSlots.tsx:161`);
  the selected date plays no part, and `BookEnabledIgnoresDate` states
  this. In every reachable state (`Behaviour.Valid`) a selected time comes
  with a truthy selected date, so whenever Book is enabled a truthy date is
  selected and some slot has exactly that date and time
  (`BookedSelectionIsSlot`). The converse fails for the time label `""`: a
  slot whose `displayTime` is `""` can be selected, and Book then stays
  disabled although both a date and a time are selected.
- The error view appears only when the stored message is truthy. An
  `Error` whose message is `""` leaves `error === ""`, and the component
  then renders the ordinary picker with no slots and no error view.
  `FetchRejectedShowsError` states this exactly. The state is still frozen
  in that case (`ErrorStateAbsorbing` needs only `error` to be set).
- A failed load does not reset the selection. Nothing can be selected
  before the fetch settles, because there are no date buttons until then,
  so the selection is already empty when a load fails.
- The model gives every date key a button. In the component each button's
  label comes from `formatDate`, which throws while rendering for a key it
  cannot parse, so a page with such a key (for example `""`) crashes
  instead of showing the picker. Where the model does render a `""` key,
  selecting it behaves like no selection: the prompt stays, no time buttons
  appear (`ClickDateShowsTimes`), and Book stays disabled.

## Model

| member | source | states |
|---|---|---|
| `Sequences.InsertAll` | src/components/TimeSlots.tsx:58 | building a `Set` by insertion gives a duplicate-free list of exactly the inserted elements, extending what was already there, never longer than the input |
| `Sequences.InsertAllIsFirstOccurrences` | src/components/TimeSlots.tsx:58 | spreading a `Set` built from a list gives exactly the list's first occurrences, in order |
| `Sequences.FirstOccurrencesOrdered` | src/components/TimeSlots.tsx:58 | the first occurrences are listed in the order in which the list first mentions them |
| `Sequences.FirstOccurrenceOrderUnique` | src/components/TimeSlots.tsx:58 | two duplicate-free lists of the same elements, both in first-occurrence order, are equal |
| `Derive.UniqueDates` | src/components/TimeSlots.tsx:57-60 | the date buttons have no duplicates; a date is among them iff some slot has it; they follow first-occurrence order, not sorted order; there are at most as many as slots |
| `Derive.UniqueDatesCharacterized` | src/components/TimeSlots.tsx:57-60 | those four properties determine `uniqueDates` completely |
| `Derive.UniqueDatesIsFirstOccurrences` | src/components/TimeSlots.tsx:57-60 | `uniqueDates` equals the reference de-duplication of the slots' dates |
| `Derive.SlotsOn` | src/components/TimeSlots.tsx:64 | filtering by date keeps only slots on that date, keeps every such slot as often as it occurs, and preserves order (subsequence) |
| `Derive.SlotsOnCharacterized` | src/components/TimeSlots.tsx:64 | any order-preserving subsequence holding only, and all of, the date's slots is the filter result |
| `Derive.FilteredSlots` | src/components/TimeSlots.tsx:63-65 | empty when the selected date is null or empty; otherwise exactly the selected date's slots in order |
| `Derive.DateButtonShowsSlots` | src/components/TimeSlots.tsx:57-65 | a date has a button iff filtering the slots on it gives a non-empty list |
| `Selector.LoadSucceeded` | src/components/TimeSlots.tsx:18-20 | a resolved fetch replaces the slot list and changes neither selection nor error |
| `Selector.LoadFailed` | src/components/TimeSlots.tsx:21-28 | a rejected fetch stores the `Error`'s message, or "Unexpected Error" for any other thrown value, and leaves slots and selection alone |
| `Selector.SelectDate` | src/components/TimeSlots.tsx:40-43 | clicking the selected date deselects it, clicking any other date selects it, and either way the time slot is cleared; slots and error are untouched |
| `Selector.SelectTimeSlot` | src/components/TimeSlots.tsx:46-48 | clicking the selected time deselects it, any other time is selected, and the date, slots and error are untouched |
| `Selector.Book` | src/components/TimeSlots.tsx:50-54 | booking clears both selections and leaves the slot list unchanged |
| `Selector.DateButtons` | src/components/TimeSlots.tsx:68-113 | the error view has no date buttons; otherwise there is one button per distinct slot date, with no repeats, in the order the slot list first mentions the dates |
| `Selector.TimeButtons` | src/components/TimeSlots.tsx:131-147 | no time buttons in the error view or without a truthy date; otherwise every shown label belongs to a slot on the selected date, every slot on that date has its label shown, and there is one button per such slot |
| `Selector.Step` | src/components/TimeSlots.tsx:15-164 | a click on a control that is not rendered or not enabled changes nothing; no click changes the slots or the error; no event ever clears an error once set |
| `Behaviour.SelectDateAgainShowsPrompt` | src/components/TimeSlots.tsx:40-43 | clicking a date twice returns to no selected date, no selected time, and the "Please select a date" prompt |
| `Behaviour.SelectDateTwiceRestoresIdle` | src/components/TimeSlots.tsx:40-43 | from the idle page, toggling a date on and off restores the state exactly |
| `Behaviour.SelectDateShowsItsSlots` | src/components/TimeSlots.tsx:40-65 | selecting a non-empty date shows exactly that date's slots, in order, with Book disabled |
| `Behaviour.ClickDateShowsTimes` | src/components/TimeSlots.tsx:40-65 | clicking a rendered, unselected date button with a non-empty key shows at least one time button; for the key `""` it shows none and leaves the prompt up |
| `Behaviour.SelectTimeSlotTwiceRestores` | src/components/TimeSlots.tsx:46-48 | toggling a time twice restores the state when that time or no time was selected |
| `Behaviour.SelectTimeSlotKeepsButtons` | src/components/TimeSlots.tsx:46-48 | selecting a time changes neither the date buttons nor the time buttons |
| `Behaviour.BookEnabledIgnoresDate` | src/components/TimeSlots.tsx:161 | Book is enabled iff a non-empty time slot is selected, whatever the selected date |
| `Behaviour.BookReturnsToPrompt` | src/components/TimeSlots.tsx:50-54 | after booking, Book is disabled, the prompt is back, no time buttons show, and the date buttons are unchanged |
| `Behaviour.InitValid` | src/components/TimeSlots.tsx:8-11 | the mount state satisfies the reachable-state invariant |
| `Behaviour.StepPreservesValid` | src/components/TimeSlots.tsx:15-164 | every event keeps the invariant: a selected date is one of the slots' dates, a selected time belongs to a slot on the truthy selected date, and a failed load leaves no slots |
| `Behaviour.RunPreservesValid` | src/components/TimeSlots.tsx:15-164 | every run of events keeps the invariant |
| `Behaviour.ReachableValid` | src/components/TimeSlots.tsx:15-164 | every state reached from mount satisfies the invariant |
| `Behaviour.BookedSelectionIsSlot` | src/components/TimeSlots.tsx:131-164 | whenever Book can be clicked in a valid state, a truthy date is selected and some slot has exactly the selected date and time |
| `Behaviour.ErrorStateIgnoresEvents` | src/components/TimeSlots.tsx:68-76 | once a load has failed, every event leaves the state unchanged |
| `Behaviour.ErrorStateAbsorbing` | src/components/TimeSlots.tsx:68-76 | error mode is absorbing: no sequence of events clears or changes the error |
| `Behaviour.FetchRejectedShowsError` | src/components/TimeSlots.tsx:21-76 | a rejected fetch at mount stores the message or "Unexpected Error"; the error view shows iff that string is non-empty; no date or time buttons render and Book is disabled |
| `Scenario.RendersDatesThenTimes` | src/components/TimeSlots.test.tsx:37-84 | with the sample slots, the dates are 2024/08/02 then 2024/08/05; picking the first shows 07:30AM and 08:00AM, and picking the second shows 10:00AM |
| `Scenario.FetchErrorShowsMessage` | src/components/TimeSlots.test.tsx:59-67 | after the fetch rejects with `Error("Fetch error")` the error view shows, with no controls, after any further events |
| `Scenario.TimeSlotToggleEnablesBook` | src/components/TimeSlots.test.tsx:86-105 | selecting 07:30AM enables Book; clicking it again disables Book |
| `Scenario.BookingResetsSelection` | src/components/TimeSlots.test.tsx:107-125 | picking 2024/08/05 at 10:00AM and booking disables Book and brings back the prompt |
| `Scenario.DatesNotSorted` | src/components/TimeSlots.tsx:57-60 | slots fetched latest date first give date buttons latest first: the order is first-seen, not chronological |

## Left out

- `formatDate` (`src/lib/dateUtils.ts`) is not part of this model. It wraps the date-fns `parse`/`format`, which have no Dafny counterpart, and it reads the wall clock through `new Date()`. Date buttons are identified by their date key, and their labels are not modelled.
- `formatDate` throws during render for a date key it cannot parse with the `yyyy/mm/dd` pattern (for example `""`), crashing the page; the model assumes every key renders a button, so `DateButtons` and `ClickDateShowsTimes` describe such keys as the model treats them, not a page the component can show.
- The `fetch("/slots.json")` and `response.json()` plumbing and the async wrapper are I/O. Only their two outcomes are modelled: resolved with a slot array, or a thrown value. Transport and parse failures reach the same `catch` and are not told apart.
- A JSON payload that is not an array of slot records is not modelled. It would fail while rendering, not in the `catch`.
- The scroll buttons and `scroll` are a DOM side effect and are not modelled.
- JSX rendering, CSS classes and `cn` are not modelled beyond which controls are rendered and enabled.
- `console.log` and `console.error` are logging only. The booked date and time are therefore not an output of `Book`.
- `useMemo` is a cache and is not modelled. `UniqueDates` is recomputed from the slots.
- React's state batching and re-rendering are not modelled. Each handler is one atomic transition, and the functional update in `handleSelectDate` reads the current state.
- Unmounting is not modelled, so neither is a fetch that completes after unmount.
- `startTimeUtc` and `endTimeUtc` are carried in `TimeSlot` but never read, as in the source.
