/** The HTTP requests the client posts. The transport itself is a parameter:
    a function from the request to the parsed JSON reply, `None` when the call
    raised. */
module Http {
  import opened Values

  datatype Body =
    | NoBody                           // a GET
    | Form(fields: map<string, Json>)  // an application/x-www-form-urlencoded POST
    | JsonBody(payload: Json)          // a POST of a JSON document

  /** A request: the URL as configured, the body, and the bearer token sent in
      the Authorization header, if any. */
  datatype Request = Request(url: Json, body: Body, bearer: Option<Json>)

  type Transport = Request -> Option<Json>

  /** The Authorization header is added only for a truthy token. */
  function BearerFor(token: Json): (r: Option<Json>)
    ensures r.Some? <==> Truthy(token)
    ensures r.Some? ==> r.value == token
  {
    if Truthy(token) then Some(token) else None
  }
}
