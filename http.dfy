/** Plain records for the HTTP request and response the route handlers see,
    in place of the framework's request and response objects. */
module Http {
  import opened Wrappers
  import opened JsBuiltins

  /** An inbound request: its header fields, keyed by lower-case name, and
      its decoded query-string parameters (the first value of each). */
  datatype Request = Request(headers: map<string, string>, searchParams: map<string, string>)

  /** A JSON response body: the upstream payload, or an error object with
      the optional `message` and `retryAfter` fields. */
  datatype Body =
    | Payload(data: Json)
    | Problem(error: string, message: Option<string>, retryAfter: Option<int>)

  datatype Response = Response(status: int, body: Body, headers: map<string, string>)

  /** `searchParams.get(name) || fallback` (and likewise for a header): an
      absent and an empty value both give `fallback`. */
  function ValueOr(fields: map<string, string>, name: string, fallback: string): (v: string)
    ensures name in fields && fields[name] != "" ==> v == fields[name]
    ensures (name !in fields || fields[name] == "") ==> v == fallback
  {
    if name in fields && fields[name] != "" then fields[name] else fallback
  }

  /** A field that is present and non-empty, i.e. truthy in JavaScript. */
  predicate Truthy(fields: map<string, string>, name: string) {
    name in fields && fields[name] != ""
  }
}
