/** The per-frame logic of the control-protocol server (`mpc_server.py`):
    how a frame is read, which handler its scope selects in each of the two
    socket loops, and the handlers whose answer depends only on the frame and
    on what the outside world replies. */
module Mpc {
  import opened Values
  import opened Text
  import opened Bytes
  import ToolBridge
  import Personas
  import Routing

  /** A received frame, already parsed from JSON. */
  type Msg = seq<(string, Json)>

  /** The text of the AttributeError raised by `x.attr` on a value without it. */
  function NoAttribute(j: Json, attr: string): string
  {
    "'" + TypeName(j) + "' object has no attribute '" + attr + "'"
  }

  /** `x.get(k)`: the field of an object (JNull when absent); any other value
      raises AttributeError. */
  function GetAttr(j: Json, k: string): (r: Attempt<Json>)
    ensures r.Ok? <==> j.JObj?
    ensures r.Ok? ==> r.value == Get(j.fields, k)
  {
    if j.JObj? then Ok(Get(j.fields, k)) else Raised(NoAttribute(j, "get"))
  }

  /** An error dictionary `{"ok": False, "error": code}`. */
  function Failure(code: string): Json
  {
    JObj([("ok", JBool(false)), ("error", JStr(code))])
  }

  // ---- reading a frame ----------------------------------------------------------

  /** `msg.get("id") or str(uuid.uuid4())`, the fresh uuid being a parameter. */
  function RequestId(msg: Msg, freshId: string): Json
  {
    PyOr(Get(msg, "id"), JStr(freshId))
  }

  /** A frame is legacy when its "type" is missing or null. */
  predicate Legacy(msg: Msg)
  {
    Get(msg, "type") == JNull
  }

  function Headers(msg: Msg): Json
  {
    PyOr(Get(msg, "headers"), EmptyObj)
  }

  function Body(msg: Msg): Json
  {
    PyOr(Get(msg, "body"), EmptyObj)
  }

  /** Every lookup in a dictionary extended at the end. */
  lemma LookupSnocAll(d: Msg, k: string, v: Json)
    ensures forall k' :: (Lookup(d + [(k, v)], k') ==
      if HasKey(d, k') then Lookup(d, k') else if k' == k then Some(v) else None)
  {
    forall k' {
      LookupSnoc(d, k, v, k');
    }
  }

  /** `d.setdefault(k, v)`: the key keeps its value when present and gets `v`
      otherwise; no other key changes. */
  function SetDefault(d: Msg, k: string, v: Json): (r: Msg)
    ensures Lookup(r, k) == if HasKey(d, k) then Lookup(d, k) else Some(v)
    ensures forall k' :: k' != k ==> Lookup(r, k') == Lookup(d, k')
  {
    if HasKey(d, k) then d
    else
      LookupSnocAll(d, k, v);
      d + [(k, v)]
  }

  /** The dictionary the handlers read: the frame itself when legacy; for a
      versioned frame, a copy of the body (when it is an object) with the
      header's workspace id as default. `headers.get` raises when the headers
      are not an object. */
  function Payload(msg: Msg): (r: Attempt<Msg>)
    ensures Legacy(msg) ==> r == Ok(msg)
    ensures !Legacy(msg) ==> (r.Ok? <==> Headers(msg).JObj?)
  {
    if Legacy(msg) then Ok(msg)
    else
      var body := Body(msg);
      var base := if body.JObj? then body.fields else [];
      match GetAttr(Headers(msg), "workspace_id")
      case Raised(e) => Raised(e)
      case Ok(ws) => Ok(if Truthy(ws) then SetDefault(base, "workspace_id", ws) else base)
  }

  /** A versioned frame's payload reads exactly as its body, except that a
      workspace id missing from the body is taken from a truthy header. */
  lemma PayloadVersioned(msg: Msg, k: string)
    requires !Legacy(msg) && Headers(msg).JObj?
    ensures var base := if Body(msg).JObj? then Body(msg).fields else [];
      var ws := Get(Headers(msg).fields, "workspace_id");
      Lookup(Payload(msg).value, k) ==
        if k == "workspace_id" && !HasKey(base, k) && Truthy(ws) then Some(ws) else Lookup(base, k)
  {
  }

  // ---- choosing the handler -------------------------------------------------------

  datatype Route =
    | Handshake | ToolsList | Tools | Session | ConfigReadResult | Memory
    | ResourcesList | ResourcesHealth | Resurrect | Agents | Voice | Generic | Unknown
    | BadScope(message: string)

  /** The prefixes `handle` answers with the echo handler. */
  predicate HandleGeneric(s: string)
  {
    StartsWith(s, "config.") || StartsWith(s, "prompts.") || StartsWith(s, "sampling.")
    || StartsWith(s, "resources.") || StartsWith(s, "cathedral.")
  }

  /** The prefixes `mcp_socket` answers with the echo handler: no "config.". */
  predicate SocketGeneric(s: string)
  {
    StartsWith(s, "prompts.") || StartsWith(s, "sampling.")
    || StartsWith(s, "resources.") || StartsWith(s, "cathedral.")
  }

  /** The branch `handle` takes for a scope. A truthy scope that is not text
      raises at the first `startswith`. */
  function HandleRoute(scope: Json): Route
  {
    if scope == JStr("tools.list") then ToolsList
    else if !Truthy(scope) then Unknown
    else if !scope.JStr? then BadScope(NoAttribute(scope, "startswith"))
    else
      var s := scope.s;
      if StartsWith(s, "tools.") then Tools
      else if StartsWith(s, "session.") then Session
      else if StartsWith(s, "memory.") then Memory
      else if s == "resources.list" then ResourcesList
      else if s == "resources.health" then ResourcesHealth
      else if StartsWith(s, "agents.") then (if s == "agents.resurrect" then Resurrect else Agents)
      else if StartsWith(s, "voice.") then Voice
      else if HandleGeneric(s) then Generic
      else Unknown
  }

  /** The branch `mcp_socket` takes for a scope. */
  function SocketRoute(scope: Json): Route
  {
    if scope == JStr("handshake") then Handshake
    else if !Truthy(scope) then Unknown
    else if !scope.JStr? then BadScope(NoAttribute(scope, "startswith"))
    else
      var s := scope.s;
      if StartsWith(s, "tools.") then Tools
      else if StartsWith(s, "session.") then Session
      else if s == "config.read.result" then ConfigReadResult
      else if StartsWith(s, "memory.") then Memory
      else if s == "resources.list" then ResourcesList
      else if s == "resources.health" then ResourcesHealth
      else if StartsWith(s, "agents.") then (if s == "agents.resurrect" then Resurrect else Agents)
      else if StartsWith(s, "voice.") then Voice
      else if SocketGeneric(s) then Generic
      else Unknown
  }

  lemma PrefixChars(s: string, p: string)
    requires StartsWith(s, p)
    ensures forall i :: 0 <= i < |p| ==> s[i] == p[i]
  {
    forall i | 0 <= i < |p| ensures s[i] == p[i] {
      assert s[..|p|][i] == s[i];
    }
  }

  /** In `handle`, the exact "tools.list" is the cached listing, while every
      other "tools." scope is a tool call. */
  lemma HandleToolsListFirst(s: string)
    ensures HandleRoute(JStr("tools.list")) == ToolsList
    ensures StartsWith(s, "tools.") && s != "tools.list" ==> HandleRoute(JStr(s)) == Tools
  {
  }

  /** In `handle`, the exact resource scopes win over the generic "resources."
      prefix. */
  lemma HandleResourcesExact()
    ensures HandleRoute(JStr("resources.list")) == ResourcesList
    ensures HandleRoute(JStr("resources.health")) == ResourcesHealth
  {
    var l, h := "resources.list", "resources.health";
    FirstCharDiffers(l, "tools.");
    FirstCharDiffers(l, "session.");
    FirstCharDiffers(l, "memory.");
    FirstCharDiffers(h, "tools.");
    FirstCharDiffers(h, "session.");
    FirstCharDiffers(h, "memory.");
  }

  /** Every other "resources." scope is echoed by the generic handler. */
  lemma HandleResourcesGeneric(s: string)
    requires StartsWith(s, "resources.") && s != "resources.list" && s != "resources.health"
    ensures HandleRoute(JStr(s)) == Generic
  {
    PrefixChars(s, "resources.");
    assert s[0] == 'r';
  }

  /** Both loops hand every "agents." scope but "agents.resurrect" to the
      agents handler. */
  lemma AgentsScopesRoute(s: string)
    requires StartsWith(s, "agents.") && s != "agents.resurrect"
    ensures HandleRoute(JStr(s)) == Agents && SocketRoute(JStr(s)) == Agents
  {
    PrefixChars(s, "agents.");
    assert s[0] == 'a';
    FirstCharDiffers(s, "tools.");
    FirstCharDiffers(s, "session.");
    FirstCharDiffers(s, "memory.");
  }

  /** A missing, null or empty scope is unknown to both loops. */
  lemma MissingScopeUnknown(j: Json)
    requires !Truthy(j)
    ensures HandleRoute(j) == Unknown && SocketRoute(j) == Unknown
  {
  }

  /** The two loops disagree on "config." scopes: `handle` echoes every one of
      them, `mcp_socket` only answers "config.read.result" and calls the rest
      unknown. */
  lemma ConfigScopesDiverge(s: string)
    requires StartsWith(s, "config.") && s != "config.read.result"
    ensures HandleRoute(JStr(s)) == Generic
    ensures SocketRoute(JStr(s)) == Unknown
  {
    PrefixChars(s, "config.");
    assert s[0] == 'c' && s[1] == 'o';
    FirstCharDiffers(s, "tools.");
    FirstCharDiffers(s, "session.");
    FirstCharDiffers(s, "memory.");
    FirstCharDiffers(s, "agents.");
    FirstCharDiffers(s, "voice.");
    FirstCharDiffers(s, "prompts.");
    FirstCharDiffers(s, "sampling.");
    FirstCharDiffers(s, "resources.");
    assert !StartsWith(s, "cathedral.") by {
      if StartsWith(s, "cathedral.") {
        PrefixChars(s, "cathedral.");
      }
    }
    assert s != "resources.list" && s != "resources.health" && s != "handshake";
  }

  /** `mcp_socket` has no cached listing: "tools.list" is a tool call there. */
  lemma SocketToolsListIsCall()
    ensures SocketRoute(JStr("tools.list")) == Tools
  {
    assert "tools.list"[..6] == "tools.";
  }

  // ---- tools --------------------------------------------------------------------

  predicate ToolName(tool: Json)
  {
    tool.JStr? && tool.s != ""
  }

  /** `_handle_tools`: the tool must be non-empty text; the call goes to the
      bridge with the payload, `{}` when missing or falsy. */
  function HandleTools(b: ToolBridge.Bridge, msg: Msg, reply: ToolBridge.HttpReply): (r: Json)
    ensures r.JObj? && r.fields != []
    ensures !ToolName(Get(msg, "tool")) ==> r == Failure("invalid_tool_name")
    ensures r.fields[0] == ("ok", JBool(true)) <==>
      ToolName(Get(msg, "tool"))
      && ToolBridge.SplitTool(Get(msg, "tool").s).Some?
      && ToolBridge.SplitTool(Get(msg, "tool").s).value.0 in b.allowedDomains
      && reply.HttpResponse? && reply.status in {200, 201, 202}
  {
    var tool := Get(msg, "tool");
    if !ToolName(tool) then Failure("invalid_tool_name")
    else
      var o := ToolBridge.Call(b, tool.s, PyOr(Get(msg, "payload"), EmptyObj), reply);
      ToolBridge.ToJson(o.result)
  }

  /** A tool name without a dot is refused by the bridge with the same reply
      the server gives a missing name: no request either way. */
  lemma ToolNameErrorsAgree(b: ToolBridge.Bridge, name: string, payload: Json, reply: ToolBridge.HttpReply)
    requires name != [] && '.' !in name
    ensures HandleTools(b, [("tool", JStr(name)), ("payload", payload)], reply)
         == HandleTools(b, [("payload", payload)], reply)
  {
    var m: Msg := [("tool", JStr(name)), ("payload", payload)];
    assert Get(m, "tool") == JStr(name);
    assert !HasKey([("payload", payload)], "tool") by {
      assert "payload" != "tool";
    }
  }

  /** The call `mcp_socket` hands to `_handle_tools`: the tool is the body's
      "intent" (the frame's "tool" when legacy), falling back to the frame's or
      the payload's "tool"; the arguments are the body's "args" (the frame's
      "payload" when legacy), else the payload's "payload", else `{}`. */
  function SocketToolCall(msg: Msg, payload: Msg): (r: Attempt<Msg>)
    ensures r.Ok? <==> Legacy(msg) || Body(msg).JObj?
    ensures r.Ok? ==> |r.value| == 2 && r.value[0].0 == "tool" && r.value[1].0 == "payload"
    ensures r.Ok? && !Legacy(msg) && Truthy(Get(Body(msg).fields, "intent")) ==>
      r.value[0].1 == Get(Body(msg).fields, "intent")
  {
    var first := if Legacy(msg) then Ok(Get(msg, "tool")) else GetAttr(Body(msg), "intent");
    var args := if Legacy(msg) then Ok(Get(msg, "payload")) else GetAttr(Body(msg), "args");
    if first.Raised? || args.Raised? then Raised(NoAttribute(Body(msg), "get"))
    else
      var tool := if Truthy(first.value) then first.value else PyOr(Get(msg, "tool"), Get(payload, "tool"));
      Ok([("tool", tool), ("payload", PyOr(PyOr(args.value, Get(payload, "payload")), EmptyObj))])
  }

  // ---- voice --------------------------------------------------------------------

  /** The text to speak: the frame's "text", else "content", else the body's
      "text", else the payload's "text", stopping at the first truthy one. A
      body or payload consulted while not an object raises. */
  function VoiceText(msg: Msg): (r: Attempt<Json>)
    ensures Truthy(Get(msg, "text")) ==> r == Ok(Get(msg, "text"))
    ensures !Truthy(Get(msg, "text")) && Truthy(Get(msg, "content")) ==> r == Ok(Get(msg, "content"))
    ensures r.Ok? && Truthy(r.value) ==>
      r.value in {Get(msg, "text"), Get(msg, "content"), Field(Body(msg), "text"), Field(PyOr(Get(msg, "payload"), EmptyObj), "text")}
  {
    var t := PyOr(Get(msg, "text"), Get(msg, "content"));
    if Truthy(t) then Ok(t)
    else
      match GetAttr(Body(msg), "text")
      case Raised(e) => Raised(e)
      case Ok(fromBody) =>
        if Truthy(fromBody) then Ok(fromBody)
        else GetAttr(PyOr(Get(msg, "payload"), EmptyObj), "text")
  }

  /** `x.get(k)` for a value known to be an object, JNull otherwise. */
  function Field(j: Json, k: string): Json
  {
    if j.JObj? then Get(j.fields, k) else JNull
  }

  datatype VoiceReply = VoiceFailed(error: string) | VoiceAudio(audio: seq<byte>)

  /** `_handle_voice`: no text gives text_required, no audio gives
      synthesis_failed, otherwise the audio. What the synthesis connection
      does is given as parameters. */
  function HandleVoice(msg: Msg, connected: bool, writeOk: bool, steps: seq<Personas.ReadStep>): (r: Attempt<VoiceReply>)
    ensures r.Raised? <==> VoiceText(msg).Raised?
    ensures r == Ok(VoiceFailed("text_required")) <==> VoiceText(msg).Ok? && !Truthy(VoiceText(msg).value)
    ensures r == Ok(VoiceFailed("synthesis_failed")) <==>
      VoiceText(msg).Ok? && Truthy(VoiceText(msg).value)
      && Personas.SynthesisResult(PyStr(VoiceText(msg).value), connected, writeOk, steps) == []
    ensures r.Ok? && r.value.VoiceAudio? ==>
      r.value.audio == Personas.SynthesisResult(PyStr(VoiceText(msg).value), connected, writeOk, steps)
      && r.value.audio != []
  {
    match VoiceText(msg)
    case Raised(e) => Raised(e)
    case Ok(text) =>
      if !Truthy(text) then Ok(VoiceFailed("text_required"))
      else
        var audio := Personas.SynthesisResult(PyStr(text), connected, writeOk, steps);
        if audio == [] then Ok(VoiceFailed("synthesis_failed")) else Ok(VoiceAudio(audio))
  }

  /** The reply dictionary; the audio is carried as its bytes. */
  function VoiceJson(r: VoiceReply): (j: Json)
    ensures j.JObj? && j.fields != [] && j.fields[0] == ("ok", JBool(r.VoiceAudio?))
  {
    match r
    case VoiceFailed(code) => Failure(code)
    case VoiceAudio(audio) =>
      JObj([("ok", JBool(true)),
            ("audio", JObj([("format", JStr("pcm")),
                            ("data", JArr(seq(|audio|, i requires 0 <= i < |audio| => JNum(audio[i]))))]))])
  }

  /** With text to speak but no synthesis server, the reply is synthesis_failed. */
  lemma VoiceWithoutServer(msg: Msg, steps: seq<Personas.ReadStep>)
    requires Truthy(Get(msg, "text"))
    ensures HandleVoice(msg, false, true, steps) == Ok(VoiceFailed("synthesis_failed"))
  {
  }

  // ---- host assignment ------------------------------------------------------------

  /** The configured hosts with their trailing slashes removed. */
  function StripHosts(hosts: seq<string>): (r: seq<string>)
    ensures |r| == |hosts|
    ensures forall i :: 0 <= i < |hosts| ==> r[i] == RStripChar(hosts[i], '/')
  {
    seq(|hosts|, i requires 0 <= i < |hosts| => RStripChar(hosts[i], '/'))
  }

  predicate Healthy(health: Dict<string, Json>, host: string)
  {
    Lookup(health, host) == Some(JStr("ok"))
  }

  /** The position of the first healthy host. */
  function FirstHealthy(vs: seq<string>, health: Dict<string, Json>): (r: Option<nat>)
    ensures r.Some? ==> (r.value < |vs| && Healthy(health, vs[r.value])
      && forall j :: 0 <= j < r.value ==> !Healthy(health, vs[j]))
    ensures r.None? ==> forall j :: 0 <= j < |vs| ==> !Healthy(health, vs[j])
  {
    if vs == [] then None
    else if Healthy(health, vs[0]) then Some(0)
    else
      var rest := FirstHealthy(vs[1..], health);
      if rest.None? then None else Some(rest.value + 1)
  }

  /** The host `_assign_session_host` picks: the first healthy one, else the
      first one; None when no host is configured. */
  function HostChoice(hosts: seq<string>, health: Dict<string, Json>): (r: Option<string>)
    ensures r.None? <==> hosts == []
    ensures forall i :: (0 <= i < |hosts| && Healthy(health, StripHosts(hosts)[i])
      && (forall j :: 0 <= j < i ==> !Healthy(health, StripHosts(hosts)[j]))) ==> r == Some(StripHosts(hosts)[i])
    ensures hosts != [] && (forall i :: 0 <= i < |hosts| ==> !Healthy(health, StripHosts(hosts)[i])) ==>
      r == Some(StripHosts(hosts)[0])
  {
    var vs := StripHosts(hosts);
    if vs == [] then None
    else
      var h := FirstHealthy(vs, health);
      if h.Some? then Some(vs[h.value]) else Some(vs[0])
  }

  /** The first model the catalog lists for the host, if any. */
  function ModelChoice(catalog: Dict<string, seq<string>>, host: string): Option<string>
  {
    match Lookup(catalog, host)
    case Some(models) => if models != [] then Some(models[0]) else None
    case None => None
  }

  // ---- config.read.result ---------------------------------------------------------

  /** Automatic configuration is allowed when the server is ready, the policy
      allows it and the options do not switch it off (on by default). */
  predicate AutoConfig(ready: bool, allowed: bool, options: Msg)
  {
    ready && allowed && Truthy(GetOr(options, "auto_config", JBool(true)))
  }

  predicate Locked(options: Msg, k: string)
  {
    Truthy(GetOr(options, k, JBool(false)))
  }

  /** The environment map a config.read.result frame carries. */
  function EnvMap(msg: Msg): Json
  {
    if !Legacy(msg) then Body(msg) else PyOr(Get(msg, "payload"), EmptyObj)
  }

  /** The patch points the gateway at the Chroma URL read, unless locked. */
  predicate ChromaPatched(envmap: Json, options: Msg)
  {
    Truthy(Field(envmap, "CHROMA_URL")) && !Locked(options, "lock_CHROMA_URL")
  }

  /** The patch replaces the hosts by the LM Studio path read, unless either
      lock is set. */
  predicate HostsPatched(envmap: Json, options: Msg)
  {
    Truthy(Field(envmap, "LMSTUDIO_BASE_PATH"))
    && !Locked(options, "lock_hosts") && !Locked(options, "lock_LMSTUDIO_BASE_PATH")
  }

  /** The options patch built from the read environment (nothing when the
      environment is not an object). */
  function ConfigPatch(envmap: Json, options: Msg): Msg
  {
    var chroma: Msg := if ChromaPatched(envmap, options)
      then Put(Put([], "chroma_mode", JStr("http")), "chroma_url", Field(envmap, "CHROMA_URL")) else [];
    if HostsPatched(envmap, options) then Put(chroma, "lm_hosts", JArr([Field(envmap, "LMSTUDIO_BASE_PATH")]))
    else chroma
  }

  /** The patch holds chroma_mode "http" and chroma_url exactly when the URL is
      patched, lm_hosts `[path]` exactly when the hosts are, and nothing else. */
  lemma ConfigPatchSays(envmap: Json, options: Msg, k: string)
    ensures DistinctKeys(ConfigPatch(envmap, options))
    ensures Lookup(ConfigPatch(envmap, options), k) ==
      if k == "chroma_mode" && ChromaPatched(envmap, options) then Some(JStr("http"))
      else if k == "chroma_url" && ChromaPatched(envmap, options) then Some(Field(envmap, "CHROMA_URL"))
      else if k == "lm_hosts" && HostsPatched(envmap, options) then Some(JArr([Field(envmap, "LMSTUDIO_BASE_PATH")]))
      else None
    ensures ConfigPatch(envmap, options) == [] <==> !ChromaPatched(envmap, options) && !HostsPatched(envmap, options)
  {
    var empty: Msg := [];
    var m := Put(empty, "chroma_mode", JStr("http"));
    var u := Put(m, "chroma_url", Field(envmap, "CHROMA_URL"));
    var chroma: Msg := if ChromaPatched(envmap, options) then u else [];
    PutLookup(empty, "chroma_mode", JStr("http"), k);
    PutLookup(m, "chroma_url", Field(envmap, "CHROMA_URL"), k);
    PutDistinct(empty, "chroma_mode", JStr("http"));
    PutDistinct(m, "chroma_url", Field(envmap, "CHROMA_URL"));
    PutLookup(chroma, "lm_hosts", JArr([Field(envmap, "LMSTUDIO_BASE_PATH")]), k);
    PutDistinct(chroma, "lm_hosts", JArr([Field(envmap, "LMSTUDIO_BASE_PATH")]));
    PutLookup(empty, "chroma_mode", JStr("http"), "chroma_mode");
    PutLookup(m, "chroma_url", Field(envmap, "CHROMA_URL"), "chroma_mode");
    PutLookup(chroma, "lm_hosts", JArr([Field(envmap, "LMSTUDIO_BASE_PATH")]), "lm_hosts");
  }

  /** How the POST to the options endpoint ended. */
  datatype ConfigApply = ApplyRaised(message: string) | ApplyAnswered(status: int)

  /** A reply frame's content: a body or an error. */
  datatype Content = WithBody(body: Json) | WithError(error: Json)

  function ErrorCode(code: string): Json
  {
    JObj([("code", JStr(code))])
  }

  /** The outcome of a config.read.result frame: ok, the content, and the patch
      posted, if any. */
  datatype ConfigOutcome = ConfigOutcome(ok: bool, content: Content, posted: Option<Msg>)

  function ConfigReadResultReply(msg: Msg, ready: bool, allowed: bool, options: Msg, apply: ConfigApply): (r: ConfigOutcome)
    ensures !AutoConfig(ready, allowed, options) ==>
      r == ConfigOutcome(false, WithError(ErrorCode("BOOTSTRAP_PENDING")), None)
    ensures r.posted.Some? <==> AutoConfig(ready, allowed, options) && ConfigPatch(EnvMap(msg), options) != []
    ensures r.posted.Some? ==> r.posted.value == ConfigPatch(EnvMap(msg), options)
    ensures AutoConfig(ready, allowed, options) && r.posted.None? ==>
      r.ok && r.content == WithBody(JObj([("applied", EmptyObj)]))
    ensures r.posted.Some? ==> (r.ok <==> apply == ApplyAnswered(200))
    ensures r.posted.Some? && r.content.WithBody? ==>
      r.content.body == JObj([("applied", if r.ok then JObj(r.posted.value) else EmptyObj)])
    ensures r.posted.Some? && r.content.WithError? <==> r.posted.Some? && apply.ApplyRaised?
  {
    if !AutoConfig(ready, allowed, options) then ConfigOutcome(false, WithError(ErrorCode("BOOTSTRAP_PENDING")), None)
    else
      var patch := ConfigPatch(EnvMap(msg), options);
      if patch == [] then ConfigOutcome(true, WithBody(JObj([("applied", EmptyObj)])), None)
      else
        match apply
        case ApplyRaised(m) =>
          ConfigOutcome(false, WithError(JObj([("code", JStr("APPLY_FAIL")), ("message", JStr(m))])), Some(patch))
        case ApplyAnswered(status) =>
          ConfigOutcome(status == 200, WithBody(JObj([("applied", if status == 200 then JObj(patch) else EmptyObj)])), Some(patch))
  }

  /** The options gate: with the "auto_config" option absent, a ready server
      whose policy allows it applies the patch. */
  lemma AutoConfigDefaultsOn(options: Msg)
    requires !HasKey(options, "auto_config")
    ensures AutoConfig(true, true, options)
  {
  }

  /** A patch accepted by the gateway's options endpoint takes effect: the
      Chroma URL becomes the one read, reached over HTTP. */
  lemma ConfigPatchSetsChroma(c: Routing.Config, envmap: Json, options: Msg)
    requires ChromaPatched(envmap, options)
    ensures var n := Routing.ApplyOptions(c, ConfigPatch(envmap, options));
      n.chromaUrl == Field(envmap, "CHROMA_URL") && n.chromaMode == JStr("http")
  {
    var patch := ConfigPatch(envmap, options);
    var opts := Routing.UpdateAll(c.opts, patch);
    ConfigPatchSays(envmap, options, "chroma_url");
    ConfigPatchSays(envmap, options, "chroma_mode");
    Routing.UpdateAllLookup(c.opts, patch, "chroma_url");
    Routing.UpdateAllLookup(c.opts, patch, "chroma_mode");
    assert GetOr(opts, "chroma_url", c.chromaUrl) == Field(envmap, "CHROMA_URL");
    assert GetOr(opts, "chroma_mode", c.chromaMode) == JStr("http");
  }

  /** ...and the host list becomes the single host `h0` at the LM Studio path
      read. */
  lemma ConfigPatchSetsHosts(c: Routing.Config, envmap: Json, options: Msg)
    requires HostsPatched(envmap, options)
    ensures Routing.ApplyOptions(c, ConfigPatch(envmap, options)).lmHosts ==
      [(Routing.HostKey(0), PyStr(Field(envmap, "LMSTUDIO_BASE_PATH")))]
  {
    var patch := ConfigPatch(envmap, options);
    var path := Field(envmap, "LMSTUDIO_BASE_PATH");
    assert DistinctKeys(patch) && Lookup(patch, "lm_hosts") == Some(JArr([path])) by {
      ConfigPatchSays(envmap, options, "lm_hosts");
    }
    Routing.UpdateAllLookup(c.opts, patch, "lm_hosts");
    Routing.ApplyOptionsHosts(c, patch);
    Routing.NormalizeSingle(path);
  }
}
