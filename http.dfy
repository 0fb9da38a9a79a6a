/** Values shared by the three modules: parsed JSON documents, the outcome
    of one HTTP exchange as the transport reports it, and the requests that
    are put on the wire. The text form of JSON is not modelled: a body is
    either an already-parsed object or "not JSON". */
module Http {

  datatype Option<+T> = None | Some(value: T)

  /** A parsed JSON value (numbers are integers only). */
  datatype Value =
    | Null
    | Bool(b: bool)
    | Num(n: int)
    | Str(s: string)
    | Arr(elems: seq<Value>)
    | Obj(fields: map<string, Value>)

  type JsonObject = map<string, Value>

  /** What the transport returns for one request: a connection error with
      its text, or a status code and a body (None when the body is not a
      JSON object). */
  datatype Reply =
    | Refused(reason: string)
    | Answered(status: int, body: Option<JsonObject>)

  datatype Verb = Get | Post | Patch | Delete

  /** The data sent with a request: nothing, or a body that is a JSON object
      (Some) or text that does not parse as one (None). */
  datatype Payload = NoData | Data(body: Option<JsonObject>)

  datatype Request = Request(verb: Verb, url: string, payload: Payload)

  const Scheme: string := "https://"

  /** The request URL: scheme, host and path, concatenated with nothing
      between them. */
  function Url(host: string, path: string): (r: string)
    ensures |r| == |Scheme| + |host| + |path|
    ensures r[..|Scheme|] == Scheme
    ensures r[|Scheme|..|Scheme| + |host|] == host
    ensures r[|Scheme| + |host|..] == path
  {
    Scheme + host + path
  }

  /** Distinct paths on one host give distinct URLs. */
  lemma UrlInjective(host: string, p: string, q: string)
    requires Url(host, p) == Url(host, q)
    ensures p == q
  {
    assert p == Url(host, p)[|Scheme| + |host|..];
  }

  predicate Answers(reply: Reply, code: int)
  {
    reply.Answered? && reply.status == code
  }

  predicate Mutating(req: Request)
  {
    req.verb != Get
  }

  /** The number of state-changing requests in a sequence of requests. */
  function Mutations(reqs: seq<Request>): (n: nat)
    ensures n <= |reqs|
    ensures n == 0 <==> forall i :: 0 <= i < |reqs| ==> !Mutating(reqs[i])
  {
    if reqs == [] then 0
    else (if Mutating(reqs[0]) then 1 else 0) + Mutations(reqs[1..])
  }
}
