/** Small shared vocabulary of the model. */
module Common {

  /** A nullable value (a reference that may be null, a `DateTime?`, a lookup that may miss). */
  datatype Option<T> = None | Some(value: T)

  /** Entity identity. The application draws GUIDs; here fresh ids are supplied by the caller. */
  type Id = nat

  /** A point in time in clock ticks. The clock is never read by the model: callers pass it in. */
  type Time = int
}
