/** The parts of an Express response object the screenshot handler drives. */
module Http {
  import opened Wrappers

  type Bytes = seq<bv8>

  /** What was written as the body: a JSON `{ error }` object, or the raw image bytes. */
  datatype Body = ErrorJson(error: string) | Image(bytes: Bytes)

  /** What the client receives: status code, explicitly set headers, whether headers went out, and the body. */
  datatype Reply = Reply(status: int, headers: map<string, string>, headersSent: bool, body: Option<Body>)

  /**
   * How one `res.send(buffer)` turns out: it delivers, or it throws, having
   * written the headers already or not.
   */
  datatype SendOutcome = Delivered | Threw(message: string, headersWritten: bool)

  /** A response that has not been written to: status 200, no headers, nothing sent. */
  const UNTOUCHED := Reply(200, map[], false, None)

  class Response {
    var statusCode: int
    var headers: map<string, string>
    var headersSent: bool
    var body: Option<Body>

    function State(): Reply
      reads this
    {
      Reply(statusCode, headers, headersSent, body)
    }

    constructor ()
      ensures State() == UNTOUCHED
    {
      statusCode, headers, headersSent, body := 200, map[], false, None;
    }

    /** `res.status(code)` */
    method Status(code: int)
      modifies this
      ensures State() == old(State()).(status := code)
    {
      statusCode := code;
    }

    /** `res.setHeader(name, value)`; Express refuses it once the headers are out. */
    method SetHeader(name: string, value: string)
      requires !headersSent
      modifies this
      ensures State() == old(State()).(headers := old(headers)[name := value])
    {
      headers := headers[name := value];
    }

    /** `res.json({ error })`; Express refuses a second response, so the headers must not be out yet. */
    method Json(error: string)
      requires !headersSent
      modifies this
      ensures State() == old(State()).(headersSent := true, body := Some(ErrorJson(error)))
    {
      headersSent, body := true, Some(ErrorJson(error));
    }

    /** `res.send(buffer)`: delivers the bytes, or throws with `thrown` set to the message. */
    method Send(buffer: Bytes, outcome: SendOutcome) returns (thrown: Option<string>)
      requires !headersSent
      modifies this
      ensures outcome.Delivered? ==> thrown == None && State() == old(State()).(headersSent := true, body := Some(Image(buffer)))
      ensures outcome.Threw? ==> thrown == Some(outcome.message) && State() == old(State()).(headersSent := outcome.headersWritten)
    {
      match outcome
      case Delivered =>
        headersSent, body := true, Some(Image(buffer));
        thrown := None;
      case Threw(message, written) =>
        headersSent := written;
        thrown := Some(message);
    }
  }
}
