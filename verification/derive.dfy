/**
 The two views the picker derives on every render: the date buttons
 (`uniqueDates`) and the time buttons of the selected date
 (`filteredSlots`).
 */
module Derive {
  import opened Types
  import opened Sequences

  /** `slots.map((slot) => slot.displayDate)`. */
  function Dates(slots: seq<TimeSlot>): (r: seq<string>)
    ensures |r| == |slots|
    ensures forall i :: 0 <= i < |slots| ==> r[i] == slots[i].displayDate
  {
    seq(|slots|, i requires 0 <= i < |slots| => slots[i].displayDate)
  }

  /** `slots.map((slot) => slot.displayTime)`: the labels of the time buttons. */
  function Times(slots: seq<TimeSlot>): (r: seq<string>)
    ensures |r| == |slots|
    ensures forall i :: 0 <= i < |slots| ==> r[i] == slots[i].displayTime
  {
    seq(|slots|, i requires 0 <= i < |slots| => slots[i].displayTime)
  }

  /** Some slot is on `date`. */
  predicate HasDate(slots: seq<TimeSlot>, date: string) {
    exists i :: 0 <= i < |slots| && slots[i].displayDate == date
  }

  /** Some slot is on `date` at `time`. */
  predicate HasSlot(slots: seq<TimeSlot>, date: string, time: string) {
    exists i :: 0 <= i < |slots| && slots[i].displayDate == date && slots[i].displayTime == time
  }

  lemma DatesMembership(slots: seq<TimeSlot>, date: string)
    ensures date in Dates(slots) <==> HasDate(slots, date)
  {
    if HasDate(slots, date) {
      var i :| 0 <= i < |slots| && slots[i].displayDate == date;
      assert Dates(slots)[i] == date;
    }
  }

  /**
   `[...new Set(slots.map((slot) => slot.displayDate))]`: the distinct
   dates, each once, in the order in which the slot list first mentions
   them (not sorted).
   */
  function UniqueDates(slots: seq<TimeSlot>): (r: seq<string>)
    ensures NoDup(r)
    ensures forall date :: date in r <==> HasDate(slots, date)
    ensures InFirstOccurrenceOrder(r, Dates(slots))
    ensures |r| <= |slots|
  {
    var xs := Dates(slots);
    var r := InsertAll([], xs);
    InsertAllIsFirstOccurrences(xs);
    FirstOccurrencesOrdered(xs);
    forall date
      ensures date in r <==> HasDate(slots, date)
    {
      DatesMembership(slots, date);
    }
    r
  }

  /**
   The contract of UniqueDates determines its result: any duplicate-free
   list of exactly the slots' dates, in first-occurrence order, is it.
   */
  lemma UniqueDatesCharacterized(slots: seq<TimeSlot>, dates: seq<string>)
    requires NoDup(dates)
    requires forall date :: date in dates <==> HasDate(slots, date)
    requires InFirstOccurrenceOrder(dates, Dates(slots))
    ensures dates == UniqueDates(slots)
  {
    var r := UniqueDates(slots);
    FirstOccurrenceOrderUnique(dates, r, Dates(slots));
  }

  /** UniqueDates agrees with the reference de-duplication of the slots' dates. */
  lemma UniqueDatesIsFirstOccurrences(slots: seq<TimeSlot>)
    ensures UniqueDates(slots) == FirstOccurrences(Dates(slots))
  {
    InsertAllIsFirstOccurrences(Dates(slots));
  }

  /**
   `slots.filter((slot) => slot.displayDate === date)`: every slot on
   `date`, none other, in their original order.
   */
  function SlotsOn(slots: seq<TimeSlot>, date: string): (r: seq<TimeSlot>)
    ensures forall i :: 0 <= i < |r| ==> r[i].displayDate == date
    ensures forall slot: TimeSlot :: slot.displayDate == date ==> multiset(r)[slot] == multiset(slots)[slot]
    ensures IsSubsequence(r, slots)
    decreases |slots|
  {
    if slots == [] then []
    else
      assert slots == [slots[0]] + slots[1..];
      var rest := SlotsOn(slots[1..], date);
      if slots[0].displayDate == date then
        var r := [slots[0]] + rest;
        assert r[1..] == rest;
        r
      else
        assert rest == [] || rest[0] != slots[0];
        rest
  }

  /**
   The contract of SlotsOn determines its result: a subsequence of the
   slots that holds only slots on `date` and keeps every one of them is
   SlotsOn.
   */
  lemma {:induction false} SlotsOnCharacterized(slots: seq<TimeSlot>, date: string, r: seq<TimeSlot>)
    requires IsSubsequence(r, slots)
    requires forall i :: 0 <= i < |r| ==> r[i].displayDate == date
    requires forall slot: TimeSlot :: slot.displayDate == date ==> multiset(r)[slot] == multiset(slots)[slot]
    ensures r == SlotsOn(slots, date)
    decreases |slots|
  {
    if slots == [] {
      assert r == [];
    } else {
      var head, tail := slots[0], slots[1..];
      assert slots == [head] + tail;
      if head.displayDate == date {
        if r == [] || r[0] != head {
          SubsequenceMultiset(r, tail);
          assert false;
        }
        assert r == [head] + r[1..];
        forall slot: TimeSlot | slot.displayDate == date
          ensures multiset(r[1..])[slot] == multiset(tail)[slot]
        {
        }
        SlotsOnCharacterized(tail, date, r[1..]);
      } else {
        assert r == [] || r[0] != head;
        forall slot: TimeSlot | slot.displayDate == date
          ensures multiset(r)[slot] == multiset(tail)[slot]
        {
        }
        SlotsOnCharacterized(tail, date, r);
      }
    }
  }

  /** A date has a button exactly when filtering the slots on it gives a non-empty list. */
  lemma DateButtonShowsSlots(slots: seq<TimeSlot>, date: string)
    ensures date in UniqueDates(slots) <==> SlotsOn(slots, date) != []
  {
    var r := SlotsOn(slots, date);
    if HasDate(slots, date) {
      var i :| 0 <= i < |slots| && slots[i].displayDate == date;
      assert slots[i] in multiset(slots);
      assert slots[i] in multiset(r);
    }
    if r != [] {
      assert r[0] in multiset(r);
      assert r[0] in multiset(slots);
      assert r[0] in slots;
    }
  }

  /**
   `selectedDate ? slots.filter(...) : []`: no slots unless the selected
   date is truthy; otherwise exactly the selected date's slots, in order.
   */
  function FilteredSlots(slots: seq<TimeSlot>, selectedDate: Option<string>): (r: seq<TimeSlot>)
    ensures !Truthy(selectedDate) ==> r == []
    ensures forall i :: 0 <= i < |r| ==> Truthy(selectedDate) && r[i].displayDate == selectedDate.value
    ensures Truthy(selectedDate) ==>
              forall slot: TimeSlot :: slot.displayDate == selectedDate.value ==> multiset(r)[slot] == multiset(slots)[slot]
    ensures IsSubsequence(r, slots)
  {
    if Truthy(selectedDate) then SlotsOn(slots, selectedDate.value) else []
  }
}
