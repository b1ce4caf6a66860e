/** The two failure-carrying datatypes shared by every module. */
module Options {

  datatype Option<+T> = None | Some(value: T)

  datatype Result<+T, +E> = Ok(value: T) | Err(error: E)

  /** Seconds and nanoseconds: Go's time.Duration counts nanoseconds. */
  type Time = int

  const SECOND: Time := 1_000_000_000
}
