/** The iControl REST connection object of one BIG-IP appliance and the
    install / update / delete dispatcher built on it. Every network call
    takes the transport's reply as a parameter; the connection records each
    request it sends in `sent`, which stands for the wire. */
module IControl {
  import opened Http

  /** Status recorded when the transport reports a connection error. */
  const ConnectionErrorStatus: int := 599

  /** Makes certain the uri has a leading and a trailing slash. Indexing
      `uri[0]` fails on the empty string, so callers pass a non-empty uri. */
  function ValidateUri(uri: string): (r: string)
    requires |uri| > 0
    ensures |r| > 0 && r[0] == '/' && r[|r| - 1] == '/'
    ensures uri[0] == '/' ==> r == uri || r == uri + "/"
    ensures uri[0] != '/' ==> r == "/" + uri || r == "/" + uri + "/"
    ensures uri[|uri| - 1] == '/' ==> r == uri || r == "/" + uri
    ensures uri[|uri| - 1] != '/' ==> r == uri + "/" || r == "/" + uri + "/"
    ensures uri[0] == '/' && uri[|uri| - 1] == '/' ==> r == uri
    ensures |r| <= |uri| + 2
  {
    var led := if uri[0] != '/' then "/" + uri else uri;
    if led[|led| - 1] != '/' then led + "/" else led
  }

  /** Normalising twice is normalising once. */
  lemma ValidateUriIdempotent(uri: string)
    requires |uri| > 0
    ensures ValidateUri(ValidateUri(uri)) == ValidateUri(uri)
  {
  }

  /** A uri that already has both slashes is left as it is. */
  lemma ValidateUriKeepsSlashed(uri: string)
    requires |uri| > 0 && uri[0] == '/' && uri[|uri| - 1] == '/'
    ensures ValidateUri(uri) == uri
  {
  }

  /** Upper-casing of one character (ASCII letters only). */
  function UpperChar(c: char): char
  {
    if 'a' <= c <= 'z' then (c as int - 32) as char else c
  }

  /** Upper-casing of a string, character by character. */
  function Upper(s: string): (r: string)
    ensures |r| == |s|
    ensures forall i :: 0 <= i < |s| ==> r[i] == UpperChar(s[i])
  {
    if s == [] then [] else [UpperChar(s[0])] + Upper(s[1..])
  }

  lemma UpperIdempotent(s: string)
    ensures Upper(Upper(s)) == Upper(s)
  {
  }

  /** The four functions the module can run. */
  datatype Action = Update | Install | PostOnly | Remove

  /** The case structure of the supported methods, looked up after
      upper-casing the method name; None for any other name. */
  function Dispatch(methodName: string): (a: Option<Action>)
    ensures a == Some(Update) <==> Upper(methodName) == "PATCH"
    ensures a == Some(Install) <==> Upper(methodName) == "POST"
    ensures a == Some(PostOnly) <==> Upper(methodName) == "_POST_"
    ensures a == Some(Remove) <==> Upper(methodName) == "DELETE"
    ensures a == None <==> Upper(methodName) !in ["PATCH", "POST", "_POST_", "DELETE"]
  {
    var m := Upper(methodName);
    if m == "PATCH" then Some(Update)
    else if m == "POST" then Some(Install)
    else if m == "_POST_" then Some(PostOnly)
    else if m == "DELETE" then Some(Remove)
    else None
  }

  /** Dispatch does not depend on the case of the method name. */
  lemma DispatchIgnoresCase(methodName: string)
    ensures Dispatch(Upper(methodName)) == Dispatch(methodName)
  {
    UpperIdempotent(methodName);
  }

  /** The `response` field: nothing, a parsed JSON object, or the text of a
      connection error. */
  datatype Response = NoContent | Content(doc: JsonObject) | ErrorText(text: string)

  function StatusAfter(reply: Reply): int
  {
    match reply
    case Refused(_) => ConnectionErrorStatus
    case Answered(status, _) => status
  }

  function ResponseAfter(reply: Reply): Response
  {
    match reply
    case Refused(reason) => ErrorText(reason)
    case Answered(_, body) => if body.Some? then Content(body.value) else NoContent
  }

  /** A body on which `node_exists` does not fail: when it has a "name",
      that name is a string (appending a non-string to the uri raises). */
  predicate NameUsable(body: Option<JsonObject>)
  {
    body.Some? && "name" in body.value ==> body.value["name"].Str?
  }

  /** The name the body gives, when it is a JSON object that has one. */
  function NameOf(body: Option<JsonObject>): Option<string>
    requires NameUsable(body)
  {
    if body.Some? && "name" in body.value then Some(body.value["name"].s) else None
  }

  class BigIp {
    const host: string
    var uri: string
    var statusCode: int
    var response: Response
    var changed: bool
    /** The requests this connection has sent, oldest first. */
    var sent: seq<Request>

    constructor (host: string, uri: string)
      requires |uri| > 0
      ensures this.host == host && this.uri == ValidateUri(uri)
      ensures statusCode == 0 && response == NoContent && !changed && sent == []
    {
      this.host := host;
      this.uri := ValidateUri(uri);
      statusCode := 0;
      response := NoContent;
      changed := false;
      sent := [];
    }

    /** Sends one request to `path` on this host and records the status and
        the response the transport gives back. */
    method Exchange(verb: Verb, path: string, payload: Payload, reply: Reply)
      modifies this
      ensures sent == old(sent) + [Request(verb, Url(host, path), payload)]
      ensures statusCode == StatusAfter(reply) && response == ResponseAfter(reply)
      ensures uri == old(uri) && changed == old(changed)
    {
      sent := sent + [Request(verb, Url(host, path), payload)];
      statusCode := StatusAfter(reply);
      response := ResponseAfter(reply);
    }

    /** Deletes the resource at `uri`: 200 counts as deleted (and changes
        state), 404 as already absent (no change), anything else fails; a
        connection error gives None. */
    method GenericDelete(reply: Reply) returns (r: Option<bool>)
      modifies this
      ensures sent == old(sent) + [Request(Delete, Url(host, uri), NoData)]
      ensures statusCode == StatusAfter(reply) && response == ResponseAfter(reply)
      ensures uri == old(uri)
      ensures reply.Refused? ==> r == None && statusCode == ConnectionErrorStatus
      ensures reply.Answered? ==> r == Some(reply.status == 200 || reply.status == 404)
      ensures changed == (old(changed) || Answers(reply, 200))
    {
      Exchange(Delete, uri, NoData, reply);
      if reply.Refused? {
        return None;
      }
      if reply.status == 200 {
        changed := true;
        return Some(true);
      }
      if reply.status == 404 {
        return Some(true);
      }
      return Some(false);
    }

    /** GET of `path`, or of `uri` when no path (or an empty one) is given;
        true only for 200. Never changes `uri` or `changed`. */
    method GenericGet(path: Option<string>, reply: Reply) returns (r: Option<bool>)
      modifies this
      ensures var target := if path.None? || path.value == "" then old(uri) else path.value;
        sent == old(sent) + [Request(Get, Url(host, target), NoData)]
      ensures statusCode == StatusAfter(reply) && response == ResponseAfter(reply)
      ensures uri == old(uri) && changed == old(changed)
      ensures reply.Refused? ==> r == None && statusCode == ConnectionErrorStatus
      ensures reply.Answered? ==> r == Some(reply.status == 200)
    {
      var target := if path.None? || path.value == "" then uri else path.value;
      Exchange(Get, target, NoData, reply);
      if reply.Refused? {
        return None;
      }
      return Some(reply.status == 200);
    }

    /** POST of `body` to `uri`; true, and a change, only for 200. */
    method GenericPost(body: Option<JsonObject>, reply: Reply) returns (r: Option<bool>)
      modifies this
      ensures sent == old(sent) + [Request(Post, Url(host, uri), Data(body))]
      ensures statusCode == StatusAfter(reply) && response == ResponseAfter(reply)
      ensures uri == old(uri)
      ensures reply.Refused? ==> r == None && statusCode == ConnectionErrorStatus
      ensures reply.Answered? ==> r == Some(reply.status == 200)
      ensures changed == (old(changed) || Answers(reply, 200))
    {
      Exchange(Post, uri, Data(body), reply);
      if reply.Refused? {
        return None;
      }
      if reply.status == 200 {
        changed := true;
        return Some(true);
      }
      return Some(false);
    }

    /** PATCH of `body` to `uri`; true, and a change, only for 200. */
    method GenericPatch(body: Option<JsonObject>, reply: Reply) returns (r: Option<bool>)
      modifies this
      ensures sent == old(sent) + [Request(Patch, Url(host, uri), Data(body))]
      ensures statusCode == StatusAfter(reply) && response == ResponseAfter(reply)
      ensures uri == old(uri)
      ensures reply.Refused? ==> r == None && statusCode == ConnectionErrorStatus
      ensures reply.Answered? ==> r == Some(reply.status == 200)
      ensures changed == (old(changed) || Answers(reply, 200))
    {
      Exchange(Patch, uri, Data(body), reply);
      if reply.Refused? {
        return None;
      }
      if reply.status == 200 {
        changed := true;
        return Some(true);
      }
      return Some(false);
    }

    /** Probes `uri + name` for the name the body gives; None, with nothing
        sent, when the body is not JSON or has no "name". */
    method NodeExists(body: Option<JsonObject>, reply: Reply) returns (r: Option<bool>)
      requires NameUsable(body)
      modifies this
      ensures NameOf(body).None? ==>
        r == None && sent == old(sent) && statusCode == old(statusCode) && response == old(response)
      ensures NameOf(body).Some? ==>
        && sent == old(sent) + [Request(Get, Url(host, old(uri) + NameOf(body).value), NoData)]
        && statusCode == StatusAfter(reply) && response == ResponseAfter(reply)
        && r == (if reply.Refused? then None else Some(reply.status == 200))
      ensures uri == old(uri) && changed == old(changed)
    {
      var name := NameOf(body);
      if name.None? {
        return None;
      }
      r := GenericGet(Some(uri + name.value), reply);
    }

    /** Moves the body's "name" to the end of `uri` and returns the body
        without it. */
    method ModifyUrlAndBody(body: JsonObject) returns (b: JsonObject)
      requires "name" in body && body["name"].Str?
      modifies this
      ensures uri == old(uri) + body["name"].s
      ensures b.Keys == body.Keys - {"name"}
      ensures forall k :: k in b ==> b[k] == body[k]
      ensures sent == old(sent) && changed == old(changed)
      ensures statusCode == old(statusCode) && response == old(response)
    {
      uri := uri + body["name"].s;
      b := body - {"name"};
    }
  }

  /** The object exists: the body names it and the probe of that name
      answered 200. */
  predicate Found(body: Option<JsonObject>, probe: Reply)
    requires NameUsable(body)
  {
    NameOf(body).Some? && Answers(probe, 200)
  }

  /** The requests `install_config` sends from base uri `base`: the probe
      when the body names an object, then a PATCH of the body without its
      name to `base + name` when the object exists, else a POST of the
      unmodified body to `base`. */
  function InstallWire(host: string, base: string, body: Option<JsonObject>, probe: Reply): seq<Request>
    requires NameUsable(body)
  {
    var post := Request(Post, Url(host, base), Data(body));
    match NameOf(body)
    case None => [post]
    case Some(name) =>
      [Request(Get, Url(host, base + name), NoData)]
      + if Answers(probe, 200)
        then [Request(Patch, Url(host, base + name), Data(Some(body.value - {"name"})))]
        else [post]
  }

  /** Installing sends exactly one state-changing request, the last one, and
      a PATCH never carries "name" in its body. */
  lemma InstallWireShape(host: string, base: string, body: Option<JsonObject>, probe: Reply)
    requires NameUsable(body)
    ensures var w := InstallWire(host, base, body, probe);
      && 0 < |w| <= 2 && Mutations(w) == 1 && Mutating(w[|w| - 1])
      && (forall i :: 0 <= i < |w| - 1 ==> w[i].verb == Get)
      && (forall i :: 0 <= i < |w| && w[i].verb == Patch ==>
            w[i].payload.Data? && w[i].payload.body.Some? && "name" !in w[i].payload.body.value)
  {
  }

  /** POST (the default): PATCH the named object when the probe finds it,
      otherwise POST the body as given. */
  method InstallConfig(f5: BigIp, body: Option<JsonObject>, probe: Reply, apply: Reply)
    returns (r: Option<bool>)
    requires NameUsable(body)
    modifies f5
    ensures f5.sent == old(f5.sent) + InstallWire(f5.host, old(f5.uri), body, probe)
    ensures f5.uri == if Found(body, probe) then old(f5.uri) + NameOf(body).value else old(f5.uri)
    ensures apply.Refused? ==> r == None
    ensures apply.Answered? ==> r == Some(apply.status == 200)
    ensures f5.statusCode == StatusAfter(apply) && f5.response == ResponseAfter(apply)
    ensures f5.changed == (old(f5.changed) || Answers(apply, 200))
  {
    var found := f5.NodeExists(body, probe);
    if found == Some(true) {
      var patch := f5.ModifyUrlAndBody(body.value);
      assert patch == body.value - {"name"};
      r := f5.GenericPatch(Some(patch), apply);
    } else {
      r := f5.GenericPost(body, apply);
    }
  }

  /** PATCH: update the object at `uri` with the body as given. */
  method UpdateConfig(f5: BigIp, body: Option<JsonObject>, apply: Reply) returns (r: Option<bool>)
    modifies f5
    ensures f5.sent == old(f5.sent) + [Request(Patch, Url(f5.host, old(f5.uri)), Data(body))]
    ensures f5.uri == old(f5.uri)
    ensures apply.Refused? ==> r == None
    ensures apply.Answered? ==> r == Some(apply.status == 200)
    ensures f5.statusCode == StatusAfter(apply) && f5.response == ResponseAfter(apply)
    ensures f5.changed == (old(f5.changed) || Answers(apply, 200))
  {
    r := f5.GenericPatch(body, apply);
  }

  /** DELETE: delete the object at `uri`; the body is ignored. */
  method DeleteConfig(f5: BigIp, body: Option<JsonObject>, apply: Reply) returns (r: Option<bool>)
    modifies f5
    ensures f5.sent == old(f5.sent) + [Request(Delete, Url(f5.host, old(f5.uri)), NoData)]
    ensures f5.uri == old(f5.uri)
    ensures apply.Refused? ==> r == None
    ensures apply.Answered? ==> r == Some(apply.status == 200 || apply.status == 404)
    ensures f5.statusCode == StatusAfter(apply) && f5.response == ResponseAfter(apply)
    ensures f5.changed == (old(f5.changed) || Answers(apply, 200))
  {
    r := f5.GenericDelete(apply);
  }

  /** _POST_: POST the body, never falling back to PATCH. */
  method PostConfig(f5: BigIp, body: Option<JsonObject>, apply: Reply) returns (r: Option<bool>)
    modifies f5
    ensures f5.sent == old(f5.sent) + [Request(Post, Url(f5.host, old(f5.uri)), Data(body))]
    ensures f5.uri == old(f5.uri)
    ensures apply.Refused? ==> r == None
    ensures apply.Answered? ==> r == Some(apply.status == 200)
    ensures f5.statusCode == StatusAfter(apply) && f5.response == ResponseAfter(apply)
    ensures f5.changed == (old(f5.changed) || Answers(apply, 200))
  {
    r := f5.GenericPost(body, apply);
  }

  datatype Failure = InvalidMethod | Status(code: int, response: Response)

  /** How the module ends: exit with the changed flag and the content, fail
      with a message, or an uncaught exception. */
  datatype Outcome = Exited(changed: bool, content: Response) | Failed(reason: Failure) | Crashed

  /** The module runs to a report: the uri can be indexed, the method is
      known, and a POST body does not make `node_exists` raise. */
  predicate Completes(uri: string, methodName: string, body: Option<JsonObject>)
  {
    |uri| > 0 && Dispatch(methodName).Some?
    && (Dispatch(methodName) == Some(Install) ==> NameUsable(body))
  }

  /** Whether the last call's return is truthy: 200, or 404 for DELETE. */
  predicate Accepted(a: Action, apply: Reply)
  {
    Answers(apply, 200) || (a == Remove && Answers(apply, 404))
  }

  /** The report of a run whose mutating call got `apply`: exit with
      changed set exactly when that call answered 200, or fail with the
      status code and response. */
  function Report(ok: bool, apply: Reply): Outcome
  {
    if ok then Exited(Answers(apply, 200), ResponseAfter(apply))
    else Failed(Status(StatusAfter(apply), ResponseAfter(apply)))
  }

  /** The module as a whole: build the connection, dispatch on the
      upper-cased method, run it against the replies `probe` (the existence
      check of a POST) and `apply` (the state-changing call), and report.
      Returns the outcome and every request sent. */
  method RunModule(host: string, uri: string, methodName: string, body: Option<JsonObject>,
                   probe: Reply, apply: Reply)
    returns (o: Outcome, wire: seq<Request>)
    ensures |uri| == 0 ==> o == Crashed && wire == []
    ensures |uri| > 0 && Dispatch(methodName).None? ==> o == Failed(InvalidMethod) && wire == []
    ensures |uri| > 0 && Dispatch(methodName) == Some(Install) && !NameUsable(body) ==>
      o == Crashed && wire == []
    ensures |uri| > 0 && Dispatch(methodName) == Some(Update) ==>
      wire == [Request(Patch, Url(host, ValidateUri(uri)), Data(body))]
    ensures |uri| > 0 && Dispatch(methodName) == Some(PostOnly) ==>
      wire == [Request(Post, Url(host, ValidateUri(uri)), Data(body))]
    ensures |uri| > 0 && Dispatch(methodName) == Some(Remove) ==>
      wire == [Request(Delete, Url(host, ValidateUri(uri)), NoData)]
    ensures |uri| > 0 && Dispatch(methodName) == Some(Install) && NameUsable(body) ==>
      wire == InstallWire(host, ValidateUri(uri), body, probe)
    ensures Completes(uri, methodName, body) ==>
      && Mutations(wire) == 1 && Mutating(wire[|wire| - 1])
      && o == Report(Accepted(Dispatch(methodName).value, apply), apply)
  {
    if |uri| == 0 {
      return Crashed, [];
    }
    var f5 := new BigIp(host, uri);
    var action := Dispatch(methodName);
    if action.None? {
      return Failed(InvalidMethod), [];
    }
    var r: Option<bool>;
    match action.value {
      case Update =>
        r := UpdateConfig(f5, body, apply);
      case Install =>
        if !NameUsable(body) {
          return Crashed, [];
        }
        InstallWireShape(host, f5.uri, body, probe);
        r := InstallConfig(f5, body, probe, apply);
      case PostOnly =>
        r := PostConfig(f5, body, apply);
      case Remove =>
        r := DeleteConfig(f5, body, apply);
    }
    o := if r == Some(true) then Exited(f5.changed, f5.response)
         else Failed(Status(f5.statusCode, f5.response));
    wire := f5.sent;
  }
}
