/**
 The component's test scenarios, replayed on the model with the same
 three sample slots: two on 2024/08/02 and one on 2024/08/05.
 */
module Scenario {
  import opened Types
  import opened Sequences
  import opened Derive
  import opened Selector
  import Behaviour

  function MockSlots(): seq<TimeSlot> {
    [ TimeSlot("2024/08/02", "07:30AM", "08:00AM", 1722564000, 1722565800),
      TimeSlot("2024/08/02", "08:00AM", "08:30AM", 1722565800, 1722567600),
      TimeSlot("2024/08/05", "10:00AM", "10:30AM", 1722832200, 1722834000) ]
  }

  /** The page once the sample slots have loaded. */
  function Loaded(): (r: State)
    ensures r == State(MockSlots(), None, None, None, true)
  {
    Step(Init(), FetchResolved(MockSlots()))
  }

  /** The sample data's date keys, in fetched order. */
  lemma MockDates()
    ensures Dates(MockSlots()) == ["2024/08/02", "2024/08/02", "2024/08/05"]
  {
  }

  /** The sample data yields one date button per date, in first-seen order. */
  lemma MockDateButtons()
    ensures UniqueDates(MockSlots()) == ["2024/08/02", "2024/08/05"]
  {
    var a: string, b: string := "2024/08/02", "2024/08/05";
    assert a[9] != b[9];
    var xs := [a, a, b];
    MockDates();
    assert UniqueDates(MockSlots()) == InsertAll([], xs);
    assert xs[1..] == [a, b] && [a, b][1..] == [b] && [b][1..] == [];
    assert Insert([a], b) == [a, b];
    assert InsertAll([a], [a, b]) == InsertAll([a], [b]);
  }

  /** The sample slots on each date. */
  lemma MockSlotsOn()
    ensures SlotsOn(MockSlots(), "2024/08/02") == MockSlots()[..2]
    ensures SlotsOn(MockSlots(), "2024/08/05") == MockSlots()[2..]
  {
    var slots := MockSlots();
    assert "2024/08/05"[9] != "2024/08/02"[9];
    assert slots[1..][1..] == slots[2..];
    assert slots[2..][1..] == [];
  }

  /** Clicking a date button of the loaded page selects that date. */
  lemma MockPickDate(date: string)
    requires date == "2024/08/02" || date == "2024/08/05"
    ensures Step(Loaded(), ClickDate(date)) == State(MockSlots(), Some(date), None, None, true)
  {
    var s := Loaded();
    MockDateButtons();
    assert DateButtons(s) == ["2024/08/02", "2024/08/05"];
    assert Enabled(s, ClickDate(date));
    assert Step(s, ClickDate(date)) == SelectDate(s, date);
  }

  /** The time buttons shown for each sample date. */
  lemma MockTimeButtons()
    ensures TimeButtons(State(MockSlots(), Some("2024/08/02"), None, None, true)) == ["07:30AM", "08:00AM"]
    ensures TimeButtons(State(MockSlots(), Some("2024/08/05"), None, None, true)) == ["10:00AM"]
  {
    MockSlotsOn();
  }

  /** After loading, one button per date in first-seen order; picking a date shows exactly its times. */
  lemma RendersDatesThenTimes()
    ensures DateButtons(Loaded()) == ["2024/08/02", "2024/08/05"]
    ensures TimeButtons(Run(Loaded(), [ClickDate("2024/08/02")])) == ["07:30AM", "08:00AM"]
    ensures TimeButtons(Run(Loaded(), [ClickDate("2024/08/05")])) == ["10:00AM"]
  {
    MockDateButtons();
    MockTimeButtons();
    MockPickDate("2024/08/02");
    MockPickDate("2024/08/05");
    RunOne(Loaded(), ClickDate("2024/08/02"));
    RunOne(Loaded(), ClickDate("2024/08/05"));
  }

  /** A rejected fetch shows the error view with no controls, and stays there. */
  lemma FetchErrorShowsMessage(events: seq<Event>)
    ensures ErrorShown(Run(Init(), [FetchRejected(ErrorObject("Fetch error"))] + events))
    ensures DateButtons(Run(Init(), [FetchRejected(ErrorObject("Fetch error"))] + events)) == []
    ensures TimeButtons(Run(Init(), [FetchRejected(ErrorObject("Fetch error"))] + events)) == []
  {
    var failed := Step(Init(), FetchRejected(ErrorObject("Fetch error")));
    var all := [FetchRejected(ErrorObject("Fetch error"))] + events;
    assert all[0] == FetchRejected(ErrorObject("Fetch error")) && all[1..] == events;
    assert Run(Init(), all) == Run(failed, events);
    Behaviour.InitValid();
    Behaviour.StepPreservesValid(Init(), FetchRejected(ErrorObject("Fetch error")));
    Behaviour.ErrorStateAbsorbing(failed, events);
  }

  /** Clicking 07:30AM enables Book; clicking it again disables it. */
  lemma TimeSlotToggleEnablesBook()
    ensures BookEnabled(Run(Loaded(), [ClickDate("2024/08/02"), ClickTimeSlot("07:30AM")]))
    ensures !BookEnabled(Run(Loaded(), [ClickDate("2024/08/02"), ClickTimeSlot("07:30AM"), ClickTimeSlot("07:30AM")]))
  {
    var e1, e2 := ClickDate("2024/08/02"), ClickTimeSlot("07:30AM");
    var s1 := State(MockSlots(), Some("2024/08/02"), None, None, true);
    MockPickDate("2024/08/02");
    MockTimeButtons();
    assert Enabled(s1, e2);
    var s2 := Step(s1, e2);
    assert s2 == SelectTimeSlot(s1, "07:30AM");
    Behaviour.SelectTimeSlotKeepsButtons(s1, "07:30AM");
    assert Enabled(s2, e2);
    var s3 := Step(s2, e2);
    assert s3 == SelectTimeSlot(s2, "07:30AM");
    RunTwo(Loaded(), e1, e2);
    RunThree(Loaded(), e1, e2, e2);
  }

  /** Picking 2024/08/05 at 10:00AM and booking disables Book and brings back the prompt. */
  lemma BookingResetsSelection()
    ensures var s := Run(Loaded(), [ClickDate("2024/08/05"), ClickTimeSlot("10:00AM"), ClickBook]);
            !BookEnabled(s) && PromptShown(s) && s.slots == MockSlots()
  {
    var e1, e2, e3 := ClickDate("2024/08/05"), ClickTimeSlot("10:00AM"), ClickBook;
    var s1 := State(MockSlots(), Some("2024/08/05"), None, None, true);
    MockPickDate("2024/08/05");
    MockTimeButtons();
    assert Enabled(s1, e2);
    var s2 := Step(s1, e2);
    assert s2 == SelectTimeSlot(s1, "10:00AM");
    assert |"10:00AM"| == 7;
    assert Enabled(s2, e3);
    assert Step(s2, e3) == Book(s2);
    RunThree(Loaded(), e1, e2, e3);
  }

  /** The same three slots fetched latest date first. */
  function ReversedSlots(): seq<TimeSlot> {
    [ TimeSlot("2024/08/05", "10:00AM", "10:30AM", 1722832200, 1722834000),
      TimeSlot("2024/08/02", "07:30AM", "08:00AM", 1722564000, 1722565800),
      TimeSlot("2024/08/02", "08:00AM", "08:30AM", 1722565800, 1722567600) ]
  }

  lemma ReversedDates()
    ensures Dates(ReversedSlots()) == ["2024/08/05", "2024/08/02", "2024/08/02"]
  {
  }

  /** The date buttons follow the fetched order, not calendar order. */
  lemma DatesNotSorted()
    ensures UniqueDates(ReversedSlots()) == ["2024/08/05", "2024/08/02"]
  {
    var a: string, b: string := "2024/08/02", "2024/08/05";
    assert a[9] != b[9];
    var xs := [b, a, a];
    ReversedDates();
    assert UniqueDates(ReversedSlots()) == InsertAll([], xs);
    assert xs[1..] == [a, a] && [a, a][1..] == [a] && |[a][1..]| == 0;
    assert Insert([b], a) == [b, a];
    assert InsertAll([b], [a, a]) == InsertAll([b, a], [a]);
  }

  lemma RunOne(s: State, e: Event)
    ensures Run(s, [e]) == Step(s, e)
  {
    assert [e][1..] == [];
  }

  lemma RunTwo(s: State, e1: Event, e2: Event)
    ensures Run(s, [e1, e2]) == Step(Step(s, e1), e2)
  {
    assert [e1, e2][1..] == [e2];
    RunOne(Step(s, e1), e2);
  }

  lemma RunThree(s: State, e1: Event, e2: Event, e3: Event)
    ensures Run(s, [e1, e2, e3]) == Step(Step(Step(s, e1), e2), e3)
  {
    assert [e1, e2, e3][1..] == [e2, e3];
    RunTwo(Step(s, e1), e2, e3);
  }
}
