/** Success/failure values shared by the services and the dashboard. */
module Results {

  /** A value that may be absent (an optional field of a JSON body, an optional argument). */
  datatype Option<+T> = None | Some(value: T)

  /** The outcome a service call hands back to its caller: a record, or the message of the
      `ApiError` it rejected with. */
  datatype Result<+T> = Ok(value: T) | Err(message: string)
}
