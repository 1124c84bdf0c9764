/** The outbound proxy handler: it takes a request envelope from a tunnel
    client, makes that request inside the data plane and answers with a
    response envelope. Decoding, the HTTP call, the body read and the reply
    encoding are parameters; the query encoder is an opaque function. */
module LocalRequest {
  import opened Details
  import opened Headers
  import opened Envelope

  /** The upstream answer: status, header multimap, and the body read's result. */
  datatype UpstreamResponse = UpstreamResponse(statusCode: int, header: Values, body: Option<string>)

  /** The request handed to the HTTP client. */
  datatype Outbound = Outbound(httpMethod: string, url: string, header: Values, body: string)

  /** What the handler writes back: an error reply with its status and
      message, or the response envelope as JSON. */
  datatype ClientReply = ErrorDetails(status: int, message: string) | Json(details: ResponseDetails)

  /** The outbound request for an envelope: its method and body, the URL with
      the encoded query, each envelope header added once. */
  function OutboundFor(env: RequestDetails, encode: Values -> string): Outbound {
    Outbound(env.httpMethod, OutboundUrl(env, encode(Singletons(env.query))),
             Singletons(env.headers), env.body)
  }

  method HandleRequestFromClient(decoded: Option<RequestDetails>, encode: Values -> string,
                                 built: bool, upstream: Option<UpstreamResponse>, encodeOk: bool)
    returns (sent: Option<Outbound>, reply: ClientReply)
    requires upstream.Some? ==> NonEmptyLists(upstream.value.header)
    ensures decoded.None? ==>
      sent == None && reply == ErrorDetails(400, "invalid request body")
    ensures decoded.Some? && !built ==>
      sent == None && reply == ErrorDetails(500, "failed to create request")
    ensures decoded.Some? && built ==>
      sent == Some(OutboundFor(decoded.value, encode))
    ensures decoded.Some? && built && upstream.None? ==>
      reply == ErrorDetails(500, "failed to make request")
    ensures decoded.Some? && built && upstream.Some? && upstream.value.body.None? ==>
      reply == ErrorDetails(500, "failed to read response body")
    ensures decoded.Some? && built && upstream.Some? && upstream.value.body.Some? ==>
      var up := upstream.value;
      reply == if encodeOk then Json(ResponseDetails("", up.statusCode, FirstValues(up.header), up.body.value))
               else ErrorDetails(500, "failed to encode response")
  {
    sent := None;
    if decoded.None? {
      return sent, ErrorDetails(400, "invalid request body");
    }
    var env := decoded.value;
    var url := BaseUrl(env);
    if |env.query| > 0 {
      var values := AddEach(map[], env.query);
      IsSingletons(env.query, values);
      url := url + "?" + encode(values);
    }
    if !built {
      return sent, ErrorDetails(500, "failed to create request");
    }
    var header := AddEach(map[], env.headers);
    IsSingletons(env.headers, header);
    sent := Some(Outbound(env.httpMethod, url, header, env.body));
    if upstream.None? {
      return sent, ErrorDetails(500, "failed to make request");
    }
    var up := upstream.value;
    if up.body.None? {
      return sent, ErrorDetails(500, "failed to read response body");
    }
    var headers := FlattenFirst(up.header);
    var details := ResponseDetails("", up.statusCode, headers, up.body.value);
    if !encodeOk {
      return sent, ErrorDetails(500, "failed to encode response");
    }
    reply := Json(details);
  }
}
