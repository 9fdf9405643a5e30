/** Shared vocabulary of the model. */
module Base {
  datatype Option<+T> = None | Some(value: T)

  /** Row identifiers are uuids in the lower-case text form the server prints. */
  type Id = string

  /** A calendar date as the number yyyymmdd, which orders dates as the calendar does. */
  type Day = int
}
