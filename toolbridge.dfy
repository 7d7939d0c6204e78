/** The tool bridge: a tool name `domain.service` is checked against the
    allowed domains and turned into one POST to the Home Assistant service
    API, whose reply status is classified. */
module ToolBridge {
  import opened Values
  import opened Text

  const DefaultSupervisorBase: string := "http://supervisor"

  /** The bridge's configuration; nothing changes after construction. */
  datatype Bridge = Bridge(allowedDomains: set<string>, supervisorBase: string)

  /** `ToolBridge(allowed_domains)`, with `SUPERVISOR_BASE` read from the
      environment: the allow-list is the set of the given names, empty for
      None. */
  function NewBridge(domains: Option<seq<string>>, supervisorBase: Option<string>): (b: Bridge)
    ensures forall d :: d in b.allowedDomains <==> domains.Some? && d in domains.value
    ensures b.supervisorBase == if supervisorBase.Some? then supervisorBase.value else DefaultSupervisorBase
  {
    Bridge(if domains.Some? then set d | d in domains.value else {},
           if supervisorBase.Some? then supervisorBase.value else DefaultSupervisorBase)
  }

  /** `tool_name.split(".", 1)` unpacked into two names: the text before the
      first '.', and all the rest (which may hold more dots); None when there
      is no '.' (the unpacking raises ValueError). */
  function SplitTool(name: string): (r: Option<(string, string)>)
    ensures r.None? <==> '.' !in name
    ensures r.Some? ==> '.' !in r.value.0 && r.value.0 + "." + r.value.1 == name
  {
    var i := IndexOf(name, '.');
    if i < 0 then None
    else
      assert name == name[..i] + "." + name[i + 1..];
      assert forall j :: 0 <= j < |name[..i]| ==> name[..i][j] == name[j];
      Some((name[..i], name[i + 1..]))
  }

  /** The split is the only one with a dot-free domain: joining a dot-free
      domain to any service splits back into the two. */
  lemma SplitToolJoin(domain: string, service: string)
    requires '.' !in domain
    ensures SplitTool(domain + "." + service) == Some((domain, service))
  {
    var name := domain + "." + service;
    assert name == domain + ("." + service);
    assert ("." + service)[0] == '.';
    IndexOfAppend(domain, "." + service, '.');
    assert IndexOf(name, '.') == |domain|;
    assert name[..|domain|] == domain && name[|domain| + 1..] == service;
  }

  /** `f"{SUPERVISOR_BASE}/core/api/services/{domain}/{service}"`. */
  function ServiceUrl(base: string, domain: string, service: string): string
  {
    base + "/core/api/services/" + domain + "/" + service
  }

  /** What the HTTP client produced for the POST: a transport error with its
      message, or a response with its status, its text and, when the text is
      JSON, the parsed document. */
  datatype HttpReply = HttpFailure(message: string) | HttpResponse(status: int, text: string, parsed: Option<Json>)

  /** The POST the bridge makes. */
  datatype Post = Post(url: string, data: Json)

  /** The dictionary `call` returns, by shape. */
  datatype ToolResult =
    | InvalidToolName
    | DomainNotAllowed(domain: string)
    | HttpError(message: string)
    | Done(result: Json)
    | Unauthorized
    | Failed(status: int, body: Json)

  datatype Outcome = Outcome(result: ToolResult, posted: Option<Post>)

  /** `response.json() if response.text else {}`, falling back to the text
      when it is not JSON. */
  function ResponseBody(text: string, parsed: Option<Json>): Json
  {
    if text == "" then EmptyObj else if parsed.Some? then parsed.value else JStr(text)
  }

  /** The status classification: 200, 201 and 202 succeed with the body, 401
      is reported as unauthorized, anything else fails with status and body. */
  function Classify(status: int, body: Json): (r: ToolResult)
    ensures r.Done? <==> status in {200, 201, 202}
    ensures r.Unauthorized? <==> status == 401
    ensures r.Failed? <==> status !in {200, 201, 202, 401}
  {
    if status == 200 || status == 201 || status == 202 then Done(body)
    else if status == 401 then Unauthorized
    else Failed(status, body)
  }

  /** `ToolBridge.call(tool_name, payload)`, with the reply the POST would
      get as a parameter. */
  function Call(b: Bridge, toolName: string, payload: Json, reply: HttpReply): (o: Outcome)
    ensures '.' !in toolName ==> o == Outcome(InvalidToolName, None)
    ensures SplitTool(toolName).Some? && SplitTool(toolName).value.0 !in b.allowedDomains ==>
      o == Outcome(DomainNotAllowed(SplitTool(toolName).value.0), None)
    ensures o.posted.Some? <==> SplitTool(toolName).Some? && SplitTool(toolName).value.0 in b.allowedDomains
    ensures o.posted.Some? ==>
      var (domain, service) := SplitTool(toolName).value;
      o.posted.value == Post(ServiceUrl(b.supervisorBase, domain, service), if Truthy(payload) then payload else EmptyObj)
  {
    match SplitTool(toolName)
    case None => Outcome(InvalidToolName, None)
    case Some((domain, service)) =>
      if domain !in b.allowedDomains then Outcome(DomainNotAllowed(domain), None)
      else
        var post := Post(ServiceUrl(b.supervisorBase, domain, service), if Truthy(payload) then payload else EmptyObj);
        match reply
        case HttpFailure(message) => Outcome(HttpError(message), Some(post))
        case HttpResponse(status, text, parsed) => Outcome(Classify(status, ResponseBody(text, parsed)), Some(post))
  }

  /** The returned dictionary, as the caller sees it. */
  function ToJson(r: ToolResult): (j: Json)
    ensures j.JObj? && j.fields != [] && j.fields[0] == ("ok", JBool(r.Done?))
  {
    match r
    case InvalidToolName => JObj([("ok", JBool(false)), ("error", JStr("invalid_tool_name"))])
    case DomainNotAllowed(d) => JObj([("ok", JBool(false)), ("error", JStr("domain_not_allowed:" + d))])
    case HttpError(m) => JObj([("ok", JBool(false)), ("error", JStr("http_error:" + m))])
    case Done(body) => JObj([("ok", JBool(true)), ("result", body)])
    case Unauthorized => JObj([("ok", JBool(false)), ("status", JNum(401)), ("error", JStr("unauthorized"))])
    case Failed(status, body) => JObj([("ok", JBool(false)), ("status", JNum(status)), ("error", body)])
  }

  /** A call reports ok exactly when the name split, its domain is allowed,
      and the service API answered 200, 201 or 202. */
  lemma CallOkExactly(b: Bridge, toolName: string, payload: Json, reply: HttpReply)
    ensures var o := Call(b, toolName, payload, reply);
      o.result.Done? <==>
        SplitTool(toolName).Some? && SplitTool(toolName).value.0 in b.allowedDomains
        && reply.HttpResponse? && reply.status in {200, 201, 202}
  {
  }

  /** A rejected name never reaches the network, whatever the reply would
      have been. */
  lemma RejectedNameIndependentOfReply(b: Bridge, toolName: string, payload: Json, r1: HttpReply, r2: HttpReply)
    requires Call(b, toolName, payload, r1).posted.None?
    ensures Call(b, toolName, payload, r1) == Call(b, toolName, payload, r2)
  {
  }
}
