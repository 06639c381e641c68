/** The request shape every serverless handler sees, the status codes they
    answer with, and the shared preflight answer of `api/utils.js`. */
module Http {
  import opened Base
  import opened Js

  /** A request: the HTTP method, the query-string parameters and the
      parsed JSON body (undefined when there is none). */
  datatype Request = Request(verb: string, query: map<string, string>, body: Value)

  const OK: int := 200
  const CREATED: int := 201
  const BAD_REQUEST: int := 400
  const METHOD_NOT_ALLOWED: int := 405
  const SERVER_ERROR: int := 500

  /** `req.query[name]`: the parameter's text, or None when it is absent. */
  function Param(req: Request, name: string): Option<string>
  {
    if name in req.query then Some(req.query[name]) else None
  }

  /** `!!req.query[name]`: present and not the empty string. */
  predicate ParamGiven(req: Request, name: string)
  {
    name in req.query && req.query[name] != ""
  }

  /** `handleOptionsRequest` of api/utils.js: true (after answering 200)
      exactly for a CORS preflight. */
  predicate HandleOptionsRequest(req: Request)
  {
    req.verb == "OPTIONS"
  }

  /** The effect of one intake request: the status it answers with and the
      row it appends to its table, if any. */
  datatype Step<R> = Step(status: int, appended: Option<R>)

  /** The rows an optional append adds. */
  function Rows<R>(o: Option<R>): (r: seq<R>)
    ensures |r| <= 1
    ensures o.Some? ==> r == [o.value]
    ensures o.None? ==> r == []
  {
    if o.Some? then [o.value] else []
  }
}
