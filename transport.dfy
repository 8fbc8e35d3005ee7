/**
 * The boundary to the signed HTTP client. The client itself (signing, TLS,
 * JSON, the network) is a function parameter: it receives the description of
 * one request and answers with a status and a body.
 */
module Transport {

  import opened Wrappers
  import opened Payloads

  /** A request as the client is asked to send it. */
  datatype Request =
    | Post(url: string, body: Payload)
      /** `params` is `None` when the call passes no config object at all. */
    | Get(url: string, params: Option<Payload>)

  /** What the client answers: `{status, data}`. */
  datatype Response<D> = Response(status: int, data: D)

  /** The client, as seen by the routing layer. */
  type Client<D> = Request -> Response<D>

  /** Which part of the answer an operation hands back to its caller. */
  datatype Projection = ResponseData | ResponseStatus

  /** One call an operation makes, and what it returns of the answer. */
  datatype Exchange = Exchange(request: Request, returning: Projection)

  /** The value an operation hands back. */
  datatype Reply<D> = Data(data: D) | Status(code: int)

  /** What an operation does, as observed: the requests sent, in order, and its reply. */
  datatype Trace<D> = Trace(calls: seq<Request>, reply: Reply<D>)

  /**
   * Sends the exchange's request once and hands back the chosen part of the
   * answer, unchanged.
   */
  function Perform<D>(client: Client<D>, ex: Exchange): (t: Trace<D>)
    ensures t.calls == [ex.request]
    ensures ex.returning == ResponseData ==> t.reply == Data(client(ex.request).data)
    ensures ex.returning == ResponseStatus ==> t.reply == Status(client(ex.request).status)
  {
    var response := client(ex.request);
    Trace([ex.request], match ex.returning
                        case ResponseData => Data(response.data)
                        case ResponseStatus => Status(response.status))
  }
}
