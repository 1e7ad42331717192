/** Option and Result values: the model's stand-ins for JavaScript's
    null/undefined and for a promise that settles with a value or with
    an Error carrying a message. */
module Results {

  datatype Option<T> = None | Some(value: T)

  /** A settled call: resolved with a value, or rejected with an Error whose
      `message` is given ("" stands for a missing message). */
  datatype Result<T> = Ok(value: T) | Err(error: string)

  /** JavaScript's `message || fallback`: an empty message is falsy. */
  function MessageOr(message: string, fallback: string): (r: string)
    ensures message != "" ==> r == message
    ensures message == "" ==> r == fallback
    ensures fallback != "" ==> r != ""
  {
    if message != "" then message else fallback
  }
}
