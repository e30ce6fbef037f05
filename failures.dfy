/** The exceptions the connector can raise, and the wrappers used to return them. */
module Failures {

  datatype Option<+T> = None | Some(value: T)

  /** The Python exceptions on the modelled paths, one constructor each. */
  datatype Error =
    | HttpError(status: int)   // raise_for_status on a 4xx or 5xx answer
    | JsonDecodeError          // json.loads or Response.json on text that is not JSON
    | KeyError(key: string)    // dict[key] for a key the dict lacks
    | TypeError                // `in`, `[]`, `+` or iteration on a value of the wrong JSON type
    | DateError                // str_to_datetime on an 'updated_at' it cannot read
    | IndexError               // result[0] on an empty list of pages
    | QuotaExhausted           // the transport serves no more requests (bound of the model)

  datatype Result<+T> = Ok(value: T) | Err(error: Error)

  /** How a generator or a loop ended: normally, or by raising. */
  datatype Outcome = Finished | Failed(error: Error)
}
