/**
 The values the time-slot picker works with: the slot records it fetches,
 the nullable strings its state is made of, and JavaScript's truthiness test
 on such strings.
 */
module Types {

  /** A nullable value: `None` stands for JavaScript's `null`. */
  datatype Option<+T> = None | Some(value: T)

  /**
   One bookable interval as it arrives in the fetched JSON array.
   `displayDate` is the grouping key (`YYYY/MM/DD`), `displayTime` the label
   and selection key of the slot within its date. The UTC bounds are carried
   along but never read by the picker.
   */
  datatype TimeSlot = TimeSlot(
    displayDate: string,
    displayTime: string,
    displayTimeEnd: string,
    startTimeUtc: int,
    endTimeUtc: int
  )

  /**
   JavaScript truthiness of a `string | null`: both `null` and the empty
   string are falsy, every other string is truthy.
   */
  predicate Truthy(o: Option<string>) {
    o.Some? && o.value != ""
  }
}
