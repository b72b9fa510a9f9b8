/** Optional values and the replies every dashboard operation hands to its callback. */
module Results {

  /** A value that may be absent. */
  datatype Option<+T> = None | Some(value: T)

  /** What an operation passes to its callback: a payload, or a terse failure message. */
  datatype Reply<+T> = Ok(value: T) | Err(message: string)
}
