// The part of an ASP.NET Core request/response exchange that the middleware
// and the dashboard read or write.

module Http {
  import opened Basics

  /**
   * What the core reads of an incoming request. Header lookup by name is
   * resolved into one field per header; each holds the header's values
   * (`StringValues`), empty when the header is absent.
   */
  datatype Request = Request(
    httpMethod: string,
    path: Option<string>,          // `Request.Path.Value`; None for a default (unset) PathString
    queryString: Option<string>,   // `Request.QueryString.Value`
    userAgent: seq<string>,        // User-Agent
    referer: seq<string>,          // Referer
    forwardedFor: seq<string>,     // X-Forwarded-For
    realIp: seq<string>,           // X-Real-IP
    remoteIp: Option<string>)      // `Connection.RemoteIpAddress?.ToString()`

  /** How an invocation of the rest of the pipeline ends: with a status code, or by throwing. */
  datatype NextOutcome = Completes(status: Int32) | Throws

  /** The status a response has until something sets it. */
  const DefaultStatusCode: Int32 := 200

  /**
   * `HttpContext`: the request, the response fields the core sets, and the
   * number of times the rest of the pipeline (`_next`) has been invoked.
   */
  class Exchange {
    const request: Request
    var statusCode: Int32
    var contentType: Option<string>
    var body: string
    var downstreamRuns: nat

    constructor (request: Request)
      ensures this.request == request
      ensures statusCode == DefaultStatusCode && contentType == None && body == [] && downstreamRuns == 0
    {
      this.request := request;
      statusCode := DefaultStatusCode;
      contentType := None;
      body := [];
      downstreamRuns := 0;
    }

    /**
     * `await _next(context)`: the rest of the pipeline runs once more; when it
     * completes, the response carries its status code.
     */
    method RunDownstream(outcome: NextOutcome) returns (threw: bool)
      modifies this
      ensures downstreamRuns == old(downstreamRuns) + 1
      ensures threw <==> outcome.Throws?
      ensures statusCode == (if outcome.Completes? then outcome.status else old(statusCode))
      ensures contentType == old(contentType) && body == old(body)
    {
      downstreamRuns := downstreamRuns + 1;
      match outcome
      case Completes(status) =>
        statusCode := status;
        threw := false;
      case Throws =>
        threw := true;
    }

    /** `Response.WriteAsync(text)`: the text is appended to the body. */
    method Write(text: string)
      modifies this
      ensures body == old(body) + text
      ensures statusCode == old(statusCode) && contentType == old(contentType)
      ensures downstreamRuns == old(downstreamRuns)
    {
      body := body + text;
    }
  }
}
