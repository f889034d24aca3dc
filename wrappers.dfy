/** Option and Result values, the exceptions the results handler can raise, and Python's min and max. */
module Wrappers {

  datatype Option<+T> = None | Some(value: T)

  /** Why one attempt inside send_request raised instead of returning a response. */
  datatype Cause =
    | TransportFailure      // requests.get/post/delete raised (connection, timeout, DNS, ...)
    | InvalidRequestType    // request_type is none of GET, POST, DELETE

  /** The exceptions that leave the handler, one constructor per kind. */
  datatype Error =
    | NoMatch                     // re.findall(...)[0] on an empty list: the results URL has the wrong shape
    | IndexOutOfRange             // a step list of the result document indexed past its end
    | UrlNotString                // None + "?apiKey=...": the response carried no location header
    | SendFailed(cause: Cause)    // send_request gave up after its last retry
    | Gone                        // the server answered 410
    | UnknownStatus(status: int)  // any status other than 200, 201, 202, 410
    | ScriptExhausted             // the scripted transport has no outcome left (the model stops here)

  datatype Result<+T> = Ok(value: T) | Err(error: Error)

  /** Python's min and max on two numbers. */
  function Min(a: int, b: int): int { if a < b then a else b }

  function Max(a: int, b: int): int { if a < b then b else a }
}
