/** Small value types shared by every module of the model. */
module Wrappers {

  /** A value that may be absent: the model's stand-in for `T | null`. */
  datatype Option<T> = None | Some(value: T)

  /**
   * How one backend request settles: the promise resolves with the response
   * data, or it rejects. A rejection may carry the `message` field of the
   * server's error body.
   */
  datatype Response<T> = Ok(data: T) | Err(serverMessage: Option<string>)
}
