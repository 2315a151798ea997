/** The parts of net/http that the handlers use: the request they read and the response they write. */
module Http {
  import opened Json

  /** A request body as json.Decoder sees it: not a JSON value at all, or a parsed value. */
  datatype Body = Malformed | Parsed(value: Json)

  /** A request reduced to what the handlers read: method, URL path, the first value of each
      query parameter, the Authorization header ("" when absent) and the body. */
  datatype Request = Request(
    httpMethod: string,
    path: string,
    query: map<string, string>,
    authorization: string,
    body: Body)

  datatype Payload = NoBody | Text(text: string) | JsonBody(value: Json)

  /** What the handler wrote: status code, headers and body. */
  datatype Response = Response(status: int, headers: map<string, string>, payload: Payload)

  const StatusOK := 200
  const StatusNoContent := 204
  const StatusBadRequest := 400
  const StatusUnauthorized := 401
  const StatusNotFound := 404
  const StatusMethodNotAllowed := 405
  const StatusInternalServerError := 500

  /** url.Values.Get: the parameter's value, or "" when it is absent. */
  function QueryGet(query: map<string, string>, key: string): string
  {
    if key in query then query[key] else ""
  }

  /** http.Error: a plain-text body holding the message and a newline. */
  function Error(message: string, code: int): (r: Response)
    ensures r.status == code && r.payload == Text(message + "\n")
    ensures r.headers.Keys == {"Content-Type", "X-Content-Type-Options"}
    ensures r.headers["Content-Type"] == "text/plain; charset=utf-8" && r.headers["X-Content-Type-Options"] == "nosniff"
  {
    Response(code,
      map["Content-Type" := "text/plain; charset=utf-8", "X-Content-Type-Options" := "nosniff"],
      Text(message + "\n"))
  }

  /** Content-Type set to application/json, then json.NewEncoder(w).Encode(value), status 200. */
  function JsonResponse(value: Json): Response
  {
    Response(StatusOK, map["Content-Type" := "application/json"], JsonBody(value))
  }
}
