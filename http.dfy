/**
 * The slice of `net/http` the pipeline touches: an inbound request reduced to
 * the fields the handlers read, and a response writer that records the calls
 * made on it (`Header().Set`, `WriteHeader`, and the JSON body handed to the
 * encoder).
 */
module Http {

  const StatusOK: int := 200
  const StatusCreated: int := 201
  const StatusBadRequest: int := 400
  const StatusUnauthorized: int := 401

  const JsonContentType: string := "application/json"

  /**
   * The outcome of decoding a request body into `struct { Name string }`:
   * a decode error with its text, or the decoded name (`""` when the field is
   * missing or null). The JSON wire syntax itself is not modelled.
   */
  datatype Payload = Malformed(reason: string) | Decoded(name: string)

  /**
   * An inbound request. `header` and `query` hold the first value of each
   * header (by canonical name) and query parameter.
   */
  datatype Request = Request(
    verb: string,
    path: string,
    remoteAddr: string,
    header: map<string, string>,
    query: map<string, string>,
    body: Payload)

  /** `r.Header.Get(name)`: the value, or `""` when the header is absent. */
  function HeaderValue(r: Request, name: string): (v: string)
    ensures name !in r.header ==> v == ""
    ensures name in r.header ==> v == r.header[name]
  {
    if name in r.header then r.header[name] else ""
  }

  /** `r.URL.Query().Get(name)`: the value, or `""` when the parameter is absent. */
  function QueryValue(r: Request, name: string): (v: string)
    ensures name !in r.query ==> v == ""
    ensures name in r.query ==> v == r.query[name]
  {
    if name in r.query then r.query[name] else ""
  }

  /** The three JSON bodies the service sends: `{"error": …}`, `{"user_id": …}`, `{"created": …}`. */
  datatype Body = ErrorBody(error: string) | UserIdBody(userId: int) | CreatedBody(created: string)

  datatype Response = Response(contentType: string, status: int, body: Body)

  /** A response writer that records what a handler sends through it. */
  class ResponseWriter {
    var header: map<string, string>
    var statuses: seq<int>
    var bodies: seq<Body>

    constructor ()
      ensures header == map[] && statuses == [] && bodies == []
    {
      header, statuses, bodies := map[], [], [];
    }

    /** `w.Header().Set(key, value)`. */
    method SetHeader(key: string, value: string)
      modifies this`header
      ensures header == old(header)[key := value]
    {
      header := header[key := value];
    }

    /** `w.WriteHeader(code)`. */
    method WriteHeader(code: int)
      modifies this`statuses
      ensures statuses == old(statuses) + [code]
    {
      statuses := statuses + [code];
    }

    /**
     * The three writes every answer of the service makes, in order: the JSON
     * content type, the status, and the body.
     */
    method WriteJson(status: int, body: Body)
      modifies this
      ensures header == old(header)["Content-Type" := JsonContentType]
      ensures statuses == old(statuses) + [status]
      ensures bodies == old(bodies) + [body]
    {
      SetHeader("Content-Type", JsonContentType);
      WriteHeader(status);
      Encode(body);
    }

    /** `json.NewEncoder(w).Encode(body)`. */
    method Encode(body: Body)
      modifies this`bodies
      ensures bodies == old(bodies) + [body]
    {
      bodies := bodies + [body];
    }
  }
}
