/** Gathering facts from an appliance: one GET of a user-given uri whose
    JSON answer becomes the facts, with its "items" renamed "bigip_items". */
module GatherFacts {
  import opened Http

  /** The connection holds only what the URL needs; nothing in it changes. */
  datatype Connection = Connection(host: string)

  const FactsKey: string := "ansible_facts"

  /** Prefixes a slash when the uri has none. */
  function LeadingSlash(uri: string): (r: string)
    requires |uri| > 0
    ensures |r| > 0 && r[0] == '/'
    ensures uri[0] == '/' ==> r == uri
    ensures uri[0] != '/' ==> r == "/" + uri
  {
    if uri[0] != '/' then "/" + uri else uri
  }

  /** `after` is `before` with "items" renamed "bigip_items", and
      "bigip_items" set to an empty object when there was no "items";
      every other key keeps its value. */
  predicate ItemsRenamed(before: JsonObject, after: JsonObject)
  {
    && "items" !in after
    && "bigip_items" in after
    && after["bigip_items"] == (if "items" in before then before["items"] else Obj(map[]))
    && (forall k :: k in before && k != "items" && k != "bigip_items" ==> k in after && after[k] == before[k])
    && (forall k :: k in after ==> k == "bigip_items" || k in before)
  }

  /** What `get_facts` yields: the status and `{"ansible_facts": facts}`, or
      an uncaught exception. */
  datatype FactsResult = Gathered(status: int, result: JsonObject) | Raised

  /** GETs the uri (with a leading slash) and shapes the answer into facts.
      A connection error or a body that is not JSON raises. */
  method GetFacts(c: Connection, uri: string, reply: Reply) returns (o: FactsResult, req: Request)
    requires |uri| > 0
    ensures req == Request(Get, Url(c.host, LeadingSlash(uri)), NoData)
    ensures reply.Refused? || reply.body.None? ==> o == Raised
    ensures reply.Answered? && reply.body.Some? ==>
      && o.Gathered? && o.status == reply.status
      && o.result.Keys == {FactsKey} && o.result[FactsKey].Obj?
      && ItemsRenamed(reply.body.value, o.result[FactsKey].fields)
  {
    var path := uri;
    if path[0] != '/' {
      path := "/" + path;
    }
    req := Request(Get, Url(c.host, path), NoData);
    if reply.Refused? || reply.body.None? {
      // A connection error hands back the exception instead of a dict, and
      // storing "bigip_items" into it raises; a body that is not JSON makes
      // the parse raise.
      return Raised, req;
    }
    var facts := reply.body.value;
    if "items" in facts {
      var items := facts["items"];
      facts := facts - {"items"};
      facts := facts["bigip_items" := items];
    } else {
      facts := facts["bigip_items" := Obj(map[])];
    }
    o := Gathered(reply.status, map[FactsKey := Obj(facts)]);
  }

  /** Renaming is a function of the answer: nothing else decides the facts. */
  lemma ItemsRenamedUnique(before: JsonObject, a: JsonObject, b: JsonObject)
    requires ItemsRenamed(before, a) && ItemsRenamed(before, b)
    ensures a == b
  {
  }

  /** How the module ends: exit with the result, fail with
      "status_code= <code> <result>", or an uncaught exception. */
  datatype Outcome = Exited(result: JsonObject) | Failed(code: int, result: JsonObject) | Crashed

  /** The module as a whole: success exactly when the status is 200. */
  method RunModule(host: string, uri: string, reply: Reply) returns (o: Outcome, wire: seq<Request>)
    ensures |uri| == 0 ==> o == Crashed && wire == []
    ensures |uri| > 0 ==> wire == [Request(Get, Url(host, LeadingSlash(uri)), NoData)]
    ensures o == Crashed <==> |uri| == 0 || reply.Refused? || reply.body.None?
    ensures o.Exited? <==> o != Crashed && reply.status == 200
    ensures o.Failed? ==> o.code == reply.status
    ensures o != Crashed ==>
      && o.result.Keys == {FactsKey} && o.result[FactsKey].Obj?
      && ItemsRenamed(reply.body.value, o.result[FactsKey].fields)
  {
    if |uri| == 0 {
      return Crashed, [];
    }
    var facts, req := GetFacts(Connection(host), uri, reply);
    wire := [req];
    if facts.Raised? {
      return Crashed, wire;
    }
    if facts.status == 200 {
      o := Exited(facts.result);
    } else {
      o := Failed(facts.status, facts.result);
    }
  }
}
