/**
 * The HTTP side of the connector, reduced to what the pagination logic
 * sees: a request is a URL and a query-parameter map, the registry is an
 * oracle from requests to responses, and a response carries a status and a
 * body. The body text is represented by the JSON value it decodes to, or
 * by Malformed when it does not decode.
 */
module Http {
  import opened Json

  /** A query-parameter value: the source passes ints and strings. */
  datatype Param = PInt(n: int) | PStr(text: string)

  type Params = map<string, Param>

  datatype Request = Request(url: string, params: Params)

  datatype Body = Malformed | Doc(json: Json)

  datatype Response = Response(status: int, body: Body)

  /** The registry: what it answers to each request. */
  type Server = Request -> Response

  /** One entry of the request log: the resource the generator was started for, and the request sent. */
  datatype Call = Call(resource: string, request: Request)

  /**
   * What a client needs of the world: the registry, the base URL it was
   * built with, and Python's str() for a pagination cursor that is not a
   * string (urijoin applies str() to every part).
   */
  datatype Env = Env(server: Server, baseUrl: string, show: Json -> string)

  /** The statuses raise_for_status rejects. */
  predicate IsHttpFailure(status: int)
  {
    400 <= status < 600
  }

  function TrimLeadingSlashes(s: string): string
  {
    if |s| > 0 && s[0] == '/' then TrimLeadingSlashes(s[1..]) else s
  }

  function TrimTrailingSlashes(s: string): string
  {
    if |s| > 0 && s[|s| - 1] == '/' then TrimTrailingSlashes(s[..|s| - 1]) else s
  }

  /** urijoin: strip the slashes around every part and join the parts with '/'. */
  function UriJoin(parts: seq<string>): string
  {
    if |parts| == 0 then ""
    else if |parts| == 1 then TrimTrailingSlashes(TrimLeadingSlashes(parts[0]))
    else TrimTrailingSlashes(TrimLeadingSlashes(parts[0])) + "/" + UriJoin(parts[1..])
  }
}
