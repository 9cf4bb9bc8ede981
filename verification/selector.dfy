/**
 The picker component as a state machine: its four pieces of state, the
 handlers that change them, what the render shows, and which clicks the
 rendered page lets through.
 */
module Selector {
  import opened Types
  import opened Sequences
  import opened Derive

  /** What a rejected fetch hands to the `catch`: an `Error` object or any other thrown value. */
  datatype Thrown = ErrorObject(message: string) | OtherValue

  /**
   The component's state. `settled` records that the mount effect's single
   fetch has completed, one way or the other: the effect has an empty
   dependency list and runs once.
   */
  datatype State = State(
    slots: seq<TimeSlot>,
    selectedDate: Option<string>,
    selectedTimeSlot: Option<string>,
    error: Option<string>,
    settled: bool
  )

  /** The state at mount: no slots, nothing selected, no error, fetch in flight. */
  function Init(): State {
    State([], None, None, None, false)
  }

  /** The message the `catch` stores for a thrown value. */
  function ErrorMessage(thrown: Thrown): (m: string)
    ensures thrown.ErrorObject? ==> m == thrown.message
    ensures thrown.OtherValue? ==> m == "Unexpected Error"
  {
    match thrown
    case ErrorObject(message) => message
    case OtherValue => "Unexpected Error"
  }

  /** The fetch resolved with the slot array: it replaces the slot list and nothing else. */
  function LoadSucceeded(s: State, data: seq<TimeSlot>): (r: State)
    ensures r.slots == data && r.settled
    ensures r.selectedDate == s.selectedDate && r.selectedTimeSlot == s.selectedTimeSlot
    ensures r.error == s.error
  {
    s.(slots := data, settled := true)
  }

  /** The fetch or the JSON parse threw: the error is recorded, the slots stay as they were. */
  function LoadFailed(s: State, thrown: Thrown): (r: State)
    ensures r.error.Some? && r.settled
    ensures thrown.ErrorObject? ==> r.error.value == thrown.message
    ensures thrown.OtherValue? ==> r.error.value == "Unexpected Error"
    ensures r.slots == s.slots
    ensures r.selectedDate == s.selectedDate && r.selectedTimeSlot == s.selectedTimeSlot
  {
    s.(error := Some(ErrorMessage(thrown)), settled := true)
  }

  /** `handleSelectDate`: toggles the date and always clears the time slot. */
  function SelectDate(s: State, date: string): (r: State)
    ensures s.selectedDate == Some(date) ==> r.selectedDate == None
    ensures s.selectedDate != Some(date) ==> r.selectedDate == Some(date)
    ensures r.selectedTimeSlot == None
    ensures r.slots == s.slots && r.error == s.error && r.settled == s.settled
  {
    s.(selectedDate := if s.selectedDate == Some(date) then None else Some(date),
       selectedTimeSlot := None)
  }

  /** `handleSelectTimeSlot`: toggles the time slot, leaving the date alone. */
  function SelectTimeSlot(s: State, time: string): (r: State)
    ensures s.selectedTimeSlot == Some(time) ==> r.selectedTimeSlot == None
    ensures s.selectedTimeSlot != Some(time) ==> r.selectedTimeSlot == Some(time)
    ensures r.selectedDate == s.selectedDate
    ensures r.slots == s.slots && r.error == s.error && r.settled == s.settled
  {
    s.(selectedTimeSlot := if s.selectedTimeSlot == Some(time) then None else Some(time))
  }

  /** `handleBooking`: clears both selections; the slot list is untouched. */
  function Book(s: State): (r: State)
    ensures r.selectedDate == None && r.selectedTimeSlot == None
    ensures r.slots == s.slots && r.error == s.error && r.settled == s.settled
  {
    s.(selectedDate := None, selectedTimeSlot := None)
  }

  // ---------------------------------------------------------------------
  // What the render shows

  /** The error view replaces everything when `error` is truthy. */
  predicate ErrorShown(s: State) {
    Truthy(s.error)
  }

  /** The Book button is enabled when `selectedTimeSlot` is truthy. */
  predicate BookEnabled(s: State) {
    Truthy(s.selectedTimeSlot)
  }

  /** The "Please select a date" prompt stands where the time buttons would be. */
  predicate PromptShown(s: State) {
    !ErrorShown(s) && !Truthy(s.selectedDate)
  }

  /** The date buttons, by date key; none in the error view. */
  function DateButtons(s: State): (r: seq<string>)
    ensures ErrorShown(s) ==> r == []
    ensures !ErrorShown(s) ==> forall date :: date in r <==> HasDate(s.slots, date)
    ensures !ErrorShown(s) ==> InFirstOccurrenceOrder(r, Dates(s.slots))
    ensures NoDup(r)
  {
    if ErrorShown(s) then [] else UniqueDates(s.slots)
  }

  /**
   The time buttons, by label; none in the error view or while the prompt
   is shown, otherwise one per slot on the selected date: every such slot's
   label is shown and every shown label is such a slot's. The order of the
   labels is stated by SelectDateShowsItsSlots.
   */
  function TimeButtons(s: State): (r: seq<string>)
    ensures ErrorShown(s) || !Truthy(s.selectedDate) ==> r == []
    ensures forall time :: time in r ==> Truthy(s.selectedDate) && HasSlot(s.slots, s.selectedDate.value, time)
    ensures !ErrorShown(s) && Truthy(s.selectedDate) ==>
              forall i :: 0 <= i < |s.slots| && s.slots[i].displayDate == s.selectedDate.value ==>
                s.slots[i].displayTime in r
    ensures !ErrorShown(s) && Truthy(s.selectedDate) ==> |r| == |SlotsOn(s.slots, s.selectedDate.value)|
  {
    if ErrorShown(s) then []
    else
      var shown := FilteredSlots(s.slots, s.selectedDate);
      var r := Times(shown);
      forall time | time in r
        ensures HasSlot(s.slots, s.selectedDate.value, time)
      {
        var k :| 0 <= k < |r| && r[k] == time;
        assert shown[k] in multiset(shown);
        assert shown[k] in multiset(s.slots);
        var j :| 0 <= j < |s.slots| && s.slots[j] == shown[k];
      }
      forall i | 0 <= i < |s.slots| && Truthy(s.selectedDate) && s.slots[i].displayDate == s.selectedDate.value
        ensures s.slots[i].displayTime in r
      {
        assert s.slots[i] in multiset(s.slots);
        assert s.slots[i] in multiset(shown);
        var k :| 0 <= k < |shown| && shown[k] == s.slots[i];
        assert r[k] == s.slots[i].displayTime;
      }
      r
  }

  // ---------------------------------------------------------------------
  // Events and the clicks the page lets through

  /** The inputs the component reacts to. */
  datatype Event =
    | FetchResolved(data: seq<TimeSlot>)
    | FetchRejected(thrown: Thrown)
    | ClickDate(date: string)
    | ClickTimeSlot(time: string)
    | ClickBook

  /**
   Whether an event can reach its handler: the fetch settles once, a date
   or time can only be clicked when its button is rendered, and a disabled
   Book button swallows the click.
   */
  predicate Enabled(s: State, e: Event) {
    match e
    case FetchResolved(_) => !s.settled
    case FetchRejected(_) => !s.settled
    case ClickDate(date) => date in DateButtons(s)
    case ClickTimeSlot(time) => time in TimeButtons(s)
    case ClickBook => !ErrorShown(s) && BookEnabled(s)
  }

  /** One event: its handler if it is enabled, no change otherwise. */
  function Step(s: State, e: Event): (r: State)
    ensures !Enabled(s, e) ==> r == s
    ensures e.ClickDate? || e.ClickTimeSlot? || e.ClickBook? ==> r.slots == s.slots && r.error == s.error
    ensures s.error.Some? ==> r.error.Some?
  {
    if !Enabled(s, e) then s
    else
      match e
      case FetchResolved(data) => LoadSucceeded(s, data)
      case FetchRejected(thrown) => LoadFailed(s, thrown)
      case ClickDate(date) => SelectDate(s, date)
      case ClickTimeSlot(time) => SelectTimeSlot(s, time)
      case ClickBook => Book(s)
  }

  /** A sequence of events, in order. */
  function Run(s: State, events: seq<Event>): State
    decreases |events|
  {
    if events == [] then s else Run(Step(s, events[0]), events[1..])
  }
}
