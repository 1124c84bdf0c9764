/** Shared value types of the broker: the two envelope records exchanged over
    the tunnel and the multi-valued maps that HTTP headers and query strings use. */
module Details {

  datatype Option<T> = None | Some(value: T)

  /** A multi-valued map, as HTTP headers and parsed query strings are:
      each name maps to the list of values given for it, in order. */
  type Values = map<string, seq<string>>

  /** Abstract identity of one tunnel connection. */
  type ConnId = nat

  /** The request envelope sent to a tunnel client (or received by the
      outbound proxy): id, HTTP method, path, flattened headers and query,
      body, and the target port and domain. */
  datatype RequestDetails = RequestDetails(
    requestId: string,
    httpMethod: string,
    path: string,
    headers: map<string, string>,
    query: map<string, string>,
    body: string,
    port: string,
    domain: string)

  /** The response envelope a tunnel client sends back, matched by id. */
  datatype ResponseDetails = ResponseDetails(
    requestId: string,
    statusCode: int,
    headers: map<string, string>,
    body: string)
}
