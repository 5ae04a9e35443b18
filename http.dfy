/** The shapes in which a controller answers a request and sees an upstream
    reply. */
module Http {
  import opened JsRuntime

  /** The body of an error response: `res.status(c).json({ msg })`,
      `res.status(c).json({ error })` or `res.status(c).send(text)`. */
  datatype ErrorBody = MsgJson(msg: string) | ErrorJson(error: string) | PlainText(text: string)

  /** What a handler sends back: a JSON body with status 200, or an error. */
  datatype Response<T> = Ok(body: T) | Failed(status: nat, error: ErrorBody)

  /** The outcome of one upstream HTTP call: the parsed body, or a rejection
      (network failure or non-2xx status, both of which make axios throw). */
  datatype Fetched<T> = Received(data: T) | Unreachable

  /** One handler invocation: the upstream URL it requested (None when it
      answered without calling upstream) and the response it sent. */
  datatype Exchange<T> = Exchange(request: Option<string>, response: Response<T>)

  /** The catch-all answer of most handlers. */
  const ServerError: ErrorBody := PlainText("Server error")
}
