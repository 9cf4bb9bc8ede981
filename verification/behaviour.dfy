/**
 Properties of the picker as a whole: what each kind of click does to the
 rendered page, the invariant every reachable state keeps, and the error
 mode from which nothing returns.
 */
module Behaviour {
  import opened Types
  import opened Sequences
  import opened Derive
  import opened Selector

  // ---------------------------------------------------------------------
  // Toggles and booking

  /** Clicking a date twice, starting with another date or none selected, comes back to the prompt. */
  lemma SelectDateAgainShowsPrompt(s: State, date: string)
    requires s.selectedDate != Some(date)
    ensures SelectDate(SelectDate(s, date), date).selectedDate == None
    ensures SelectDate(SelectDate(s, date), date).selectedTimeSlot == None
    ensures !ErrorShown(s) ==> PromptShown(SelectDate(SelectDate(s, date), date))
  {
  }

  /** From the idle page, a date toggled on and off again restores the state exactly. */
  lemma SelectDateTwiceRestoresIdle(s: State, date: string)
    requires s.selectedDate == None && s.selectedTimeSlot == None
    ensures SelectDate(SelectDate(s, date), date) == s
  {
  }

  /** Selecting a (non-empty) date reveals exactly that date's slots as time buttons, in order. */
  lemma SelectDateShowsItsSlots(s: State, date: string)
    requires !ErrorShown(s) && date != "" && s.selectedDate != Some(date)
    ensures FilteredSlots(SelectDate(s, date).slots, SelectDate(s, date).selectedDate) == SlotsOn(s.slots, date)
    ensures TimeButtons(SelectDate(s, date)) == Times(SlotsOn(s.slots, date))
    ensures !BookEnabled(SelectDate(s, date))
  {
  }

  /**
   Clicking a rendered date button that is not yet selected shows at least
   one time button when the date key is non-empty. For the key `""` the
   truthiness test leaves the prompt up and shows no time buttons; that
   clause describes the model only, since the component's `formatDate`
   throws while rendering a `""` key and never shows such a button.
   */
  lemma ClickDateShowsTimes(s: State, date: string)
    requires date in DateButtons(s) && s.selectedDate != Some(date)
    ensures date != "" ==> TimeButtons(Step(s, ClickDate(date))) != []
    ensures date == "" ==> TimeButtons(Step(s, ClickDate(date))) == [] && PromptShown(Step(s, ClickDate(date)))
  {
    assert !ErrorShown(s);
    var r := Step(s, ClickDate(date));
    assert r == SelectDate(s, date);
    var i :| 0 <= i < |s.slots| && s.slots[i].displayDate == date;
    if date != "" {
      assert s.slots[i].displayTime in TimeButtons(r);
    }
  }

  /**
   Clicking a time label twice restores the state whenever it started
   with no time or that same time selected.
   */
  lemma SelectTimeSlotTwiceRestores(s: State, time: string)
    requires s.selectedTimeSlot == None || s.selectedTimeSlot == Some(time)
    ensures SelectTimeSlot(SelectTimeSlot(s, time), time) == s
  {
  }

  /** Clicking a time label changes neither the date buttons nor the time buttons on the page. */
  lemma SelectTimeSlotKeepsButtons(s: State, time: string)
    ensures DateButtons(SelectTimeSlot(s, time)) == DateButtons(s)
    ensures TimeButtons(SelectTimeSlot(s, time)) == TimeButtons(s)
  {
  }

  /** The Book button depends on the time slot only, never on the date. */
  lemma BookEnabledIgnoresDate(s: State, date: Option<string>)
    ensures BookEnabled(s.(selectedDate := date)) <==> BookEnabled(s)
    ensures BookEnabled(s) <==> s.selectedTimeSlot.Some? && s.selectedTimeSlot.value != ""
  {
  }

  /**
   Booking brings back the "Please select a date" prompt with the Book
   button disabled, and leaves the date buttons as they were.
   */
  lemma BookReturnsToPrompt(s: State)
    requires !ErrorShown(s)
    ensures PromptShown(Book(s)) && !BookEnabled(Book(s))
    ensures TimeButtons(Book(s)) == []
    ensures DateButtons(Book(s)) == DateButtons(s)
  {
  }

  // ---------------------------------------------------------------------
  // The invariant of reachable states

  /**
   What holds after any run from mount: nothing is loaded or failed before
   the fetch settles; a failed load leaves no slots; a selected date is
   one of the slots' dates; and a selected time belongs to a slot on the
   selected date, which is then truthy.
   */
  predicate Valid(s: State) {
    && (!s.settled ==> s.slots == [] && s.error == None)
    && (s.error.Some? ==> s.slots == [])
    && (s.selectedDate.Some? ==> HasDate(s.slots, s.selectedDate.value))
    && (s.selectedTimeSlot.Some? ==>
          Truthy(s.selectedDate) && HasSlot(s.slots, s.selectedDate.value, s.selectedTimeSlot.value))
  }

  lemma InitValid()
    ensures Valid(Init())
  {
  }

  /** Every event keeps the invariant. */
  lemma StepPreservesValid(s: State, e: Event)
    requires Valid(s)
    ensures Valid(Step(s, e))
  {
    if Enabled(s, e) {
      match e
      case FetchResolved(data) =>
      case FetchRejected(thrown) =>
      case ClickDate(date) =>
        assert !ErrorShown(s);
      case ClickTimeSlot(time) =>
        assert time in TimeButtons(s);
      case ClickBook =>
    }
  }

  /** Every run keeps the invariant. */
  lemma {:induction false} RunPreservesValid(s: State, events: seq<Event>)
    requires Valid(s)
    ensures Valid(Run(s, events))
    decreases |events|
  {
    if events != [] {
      StepPreservesValid(s, events[0]);
      RunPreservesValid(Step(s, events[0]), events[1..]);
    }
  }

  /** Every state reached from mount satisfies the invariant. */
  lemma ReachableValid(events: seq<Event>)
    ensures Valid(Run(Init(), events))
  {
    InitValid();
    RunPreservesValid(Init(), events);
  }

  /**
   When Book is clickable in a reachable state, a truthy date is selected
   and some slot carries exactly the selected date and time: a booking
   always names a real slot.
   */
  lemma BookedSelectionIsSlot(s: State)
    requires Valid(s) && Enabled(s, ClickBook)
    ensures Truthy(s.selectedDate)
    ensures HasSlot(s.slots, s.selectedDate.value, s.selectedTimeSlot.value)
  {
  }

  // ---------------------------------------------------------------------
  // Error mode

  /** A failed load leaves an error that no event changes: every event is ignored from then on. */
  lemma ErrorStateIgnoresEvents(s: State, e: Event)
    requires Valid(s) && s.error.Some?
    ensures Step(s, e) == s
  {
    assert s.settled;
    assert s.selectedDate == None;
    assert DateButtons(s) == [] || DateButtons(s) == UniqueDates([]);
  }

  /** Error mode is absorbing: any run from an error state leaves the state, and so the error, unchanged. */
  lemma {:induction false} ErrorStateAbsorbing(s: State, events: seq<Event>)
    requires Valid(s) && s.error.Some?
    ensures Run(s, events) == s
    decreases |events|
  {
    if events != [] {
      ErrorStateIgnoresEvents(s, events[0]);
      ErrorStateAbsorbing(s, events[1..]);
    }
  }

  /**
   A rejected fetch at mount records the thrown value's message, or
   "Unexpected Error" for a value that is not an `Error`; the error view is
   shown unless that message is empty, and it renders no date or time
   buttons and leaves Book disabled.
   */
  lemma FetchRejectedShowsError(thrown: Thrown)
    ensures Step(Init(), FetchRejected(thrown)).error == Some(ErrorMessage(thrown))
    ensures ErrorShown(Step(Init(), FetchRejected(thrown))) <==> thrown.OtherValue? || thrown.message != ""
    ensures DateButtons(Step(Init(), FetchRejected(thrown))) == []
    ensures TimeButtons(Step(Init(), FetchRejected(thrown))) == []
    ensures !BookEnabled(Step(Init(), FetchRejected(thrown)))
  {
    var r := Step(Init(), FetchRejected(thrown));
    assert DateButtons(r) == [] || DateButtons(r) == UniqueDates([]);
  }
}
