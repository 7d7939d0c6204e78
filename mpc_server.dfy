/** The control-protocol server (`MPCServer` and the two socket loops of
    `mpc_server.py`): the handlers that read and write the session store and
    the personas, the cached tools listing, and the loops that answer the
    frames of a connection one at a time. */
module MpcServer {
  import opened Values
  import opened Text
  import opened Bytes
  import opened Mpc
  import opened Sessions
  import ToolBridge
  import Personas
  import Chroma

  /** What the world outside the server answers while one frame is handled:
      the clocks and the fresh uuid, the main module's tables, and the replies
      of the services and callbacks the handlers consult. */
  datatype World = World(
    freshId: string,
    now: int,
    clockMs: nat,
    isoNow: string,
    services: seq<Json>,
    toolReply: ToolBridge.HttpReply,
    ready: bool,
    autoConfigAllowed: bool,
    options: Msg,
    apply: ConfigApply,
    upsertAllowed: bool,
    chromaAvailable: bool,
    chromaBase: bool,
    collectionName: string,
    ensured: Option<string>,
    upsertOk: bool,
    lmHosts: seq<string>,
    hostHealth: Dict<string, Json>,
    modelCatalog: Dict<string, seq<string>>,
    catalog: Dict<string, seq<string>>,
    voiceConnected: bool,
    voiceWriteOk: bool,
    voiceSteps: seq<Personas.ReadStep>)

  // ---- the tools listing cache ------------------------------------------------------

  const ToolsTtl: int := 300

  /** The cached listing and when it was fetched. */
  datatype ToolsCache = ToolsCache(entries: Option<seq<Json>>, ts: int)

  /** `_tools_list_cached`: a listing younger than the TTL is served from the
      cache; otherwise the fresh listing is served and cached. */
  function CacheLookup(c: ToolsCache, now: int, services: seq<Json>): (r: (ToolsCache, seq<Json>))
    ensures r.0.entries == Some(r.1)
  {
    if c.entries.Some? && now - c.ts < ToolsTtl then (c, c.entries.value)
    else (ToolsCache(Some(services), now), services)
  }

  /** Within the TTL of the listing a call served, every later call serves the
      same listing, whatever the service would list by then. */
  lemma CacheServesWithinTtl(c: ToolsCache, t: int, s1: seq<Json>, t2: int, s2: seq<Json>)
    requires t2 - CacheLookup(c, t, s1).0.ts < ToolsTtl
    ensures CacheLookup(CacheLookup(c, t, s1).0, t2, s2) == CacheLookup(c, t, s1)
  {
  }

  /** `_tools_list_cached` as written: on a miss it calls
      `self.tb.list_services()`, which the tool bridge does not define. */
  function ToolsListAsWritten(c: ToolsCache, now: int): Attempt<seq<Json>>
  {
    if c.entries.Some? && now - c.ts < ToolsTtl then Ok(c.entries.value)
    else Raised("'ToolBridge' object has no attribute 'list_services'")
  }

  /** The "tools.list" reply `handle` gives with the code as written. */
  function ToolsListReplyAsWritten(c: ToolsCache, now: int): Json
  {
    match ToolsListAsWritten(c, now)
    case Ok(tools) => JObj([("ok", JBool(true)), ("tools", JArr(tools))])
    case Raised(m) => Failure(m)
  }

  /** The "agents.list" body as written: its listing comes from
      `_tools_list_cached` too, so a miss raises the same AttributeError. */
  function AgentsListAsWritten(c: ToolsCache, now: int, ws: Json, ids: seq<string>): Attempt<Json>
  {
    match ToolsListAsWritten(c, now)
    case Ok(tools) => Ok(AgentsListBody(ws, ids, tools))
    case Raised(m) => Raised(m)
  }

  /** As written, the cache is only filled by a listing that never arrives: a
      new server answers every "tools.list" frame with the AttributeError,
      and every "agents.list" frame raises it, which `handle` answers as an
      error and `mcp_socket` lets close the connection. */
  lemma ToolsListFailsAsWritten(now: int, ws: Json, ids: seq<string>)
    ensures ToolsListReplyAsWritten(ToolsCache(None, 0), now)
         == Failure("'ToolBridge' object has no attribute 'list_services'")
    ensures AgentsListAsWritten(ToolsCache(None, 0), now, ws, ids)
         == Raised("'ToolBridge' object has no attribute 'list_services'")
  {
  }

  // ---- sessions ---------------------------------------------------------------------

  predicate Filled(o: Option<string>)
  {
    o.Some? && o.value != ""
  }

  /** The rows after `_assign_session_host`: unchanged without hosts, else the
      row (when present) pinned to the chosen host and its first model. */
  function HostAssigned(rows: Rows, key: Key, w: World): Rows
  {
    match HostChoice(w.lmHosts, w.hostHealth)
    case None => rows
    case Some(h) =>
      if key in rows then rows[key := rows[key].(hostUrl := Some(h), modelId := ModelChoice(w.modelCatalog, h), updatedTs := w.now)]
      else rows
  }

  /** What `chroma.ensure_collection(name)` answers: None for a name that is
      blank once stripped, before any request (`Chroma.TargetName`), else the
      reply `w.ensured` stands for; None as well when the client's base URL
      is empty (`w.chromaBase` false). An empty name falls back to the
      client's configured default, which the world's reply covers. */
  function EnsureReply(w: World, name: string): Option<string>
  {
    if (name != "" && Chroma.TargetName(Some(name), "") == "") || !w.chromaBase then None else w.ensured
  }

  /** The collection `_ensure_session_collection` obtains: none without a
      Chroma client or a collection name, else what ensuring it returned. */
  function CollectionObtained(w: World): Option<string>
  {
    if !w.chromaAvailable || w.collectionName == "" then None else EnsureReply(w, w.collectionName)
  }

  /** A collection name made only of whitespace obtains nothing, so the
      session keeps no collection, whatever the store would answer. */
  lemma BlankCollectionNameLinksNothing(rows: Rows, key: Key, w: World)
    requires w.collectionName != [] && forall i :: 0 <= i < |w.collectionName| ==> PySpace(w.collectionName[i])
    ensures CollectionObtained(w) == None
    ensures CollectionLinked(rows, key, w) == rows
  {
  }

  /** The rows after `_ensure_session_collection`: the obtained collection
      recorded on the row, when it is non-empty. */
  function CollectionLinked(rows: Rows, key: Key, w: World): Rows
  {
    var id := CollectionObtained(w);
    if Filled(id) && key in rows then
      rows[key := rows[key].(collectionName := Some(w.collectionName), collectionId := Some(id.value), updatedTs := w.now)]
    else rows
  }

  /** The text an identifier from a frame is stored as. */
  function OptText(j: Json): Option<string>
  {
    if j == JNull then None else Some(PyStr(j))
  }

  function WorkspaceOf(msg: Msg): string
  {
    PyStr(PyOr(Get(msg, "workspace_id"), JStr("default")))
  }

  /** The persona id session.create asks the manager for, `persona_id or
      "default"`. The manager's dictionaries are keyed by text: a list or
      dict id raises TypeError at the lookup, and any other id that is not
      text names no persona (None). */
  function RequestedPersona(msg: Msg): (r: Attempt<Option<string>>)
    ensures var id := PyOr(Get(msg, "persona_id"), JStr("default"));
      (r.Raised? <==> !Hashable(id)) && (r.Raised? ==> r.message == Unhashable(id))
      && (r == Ok(None) <==> Hashable(id) && !id.JStr?)
      && (id.JStr? ==> r == Ok(Some(id.s)))
  {
    var id := PyOr(Get(msg, "persona_id"), JStr("default"));
    if !Hashable(id) then Raised(Unhashable(id))
    else if id.JStr? then Ok(Some(id.s))
    else Ok(None)
  }

  /** The thread of a created session: the frame's, else "thr_" and the
      millisecond clock in hexadecimal. */
  function CreatedThread(msg: Msg, clockMs: nat): (t: string)
    ensures !Truthy(Get(msg, "thread_id")) ==> t == "thr_" + Hex(clockMs)
  {
    PyStr(PyOr(Get(msg, "thread_id"), JStr("thr_" + Hex(clockMs))))
  }

  /** The persona session.create stores, as written: it checks the
      manager's lookup, which already falls back to the default persona, so
      while that persona exists the check never fires. */
  function CreatePersonaAsWritten(states: Dict<string, Personas.Persona>, requested: string): string
  {
    if Personas.Resolve(states, requested).None? then "default" else requested
  }

  /** As written, an id the manager does not know is stored on the session
      as it was requested. */
  lemma UnknownPersonaStoredAsWritten(states: Dict<string, Personas.Persona>, requested: string)
    requires HasKey(states, "default") && !HasKey(states, requested)
    ensures CreatePersonaAsWritten(states, requested) == requested
  {
  }

  /** The persona session.create stores: the requested one when it is text
      the manager knows, else the default persona. */
  function CreatePersona(states: Dict<string, Personas.Persona>, requested: Option<string>): (p: string)
    ensures HasKey(states, "default") ==> HasKey(states, p)
    ensures requested.Some? ==> (p == requested.value <==> HasKey(states, requested.value) || requested.value == "default")
    ensures p != "default" ==> requested == Some(p)
  {
    if requested.Some? && HasKey(states, requested.value) then requested.value else "default"
  }

  /** The rows after session.create: upserted with the persona, then pinned
      to a host, then linked to a collection. */
  function CreatedRows(rows: Rows, msg: Msg, personaId: string, w: World): Rows
  {
    var key := Key(WorkspaceOf(msg), CreatedThread(msg, w.clockMs));
    var upserted := rows[key := Upserted(rows, key, OptText(Get(msg, "conversation_id")), OptText(Get(msg, "user_id")),
                                         Some(personaId), w.now)];
    CollectionLinked(HostAssigned(upserted, key, w), key, w)
  }

  /** The rows after session.resume: nothing for an unknown session; else
      touched, pinned to a host only when it has none, and linked to a
      collection only when it has none. */
  function ResumedRows(rows: Rows, key: Key, w: World): Rows
  {
    if key !in rows then rows
    else
      var touched := rows[key := rows[key].(updatedTs := w.now)];
      var hosted := if !Filled(rows[key].hostUrl) then HostAssigned(touched, key, w) else touched;
      if !Filled(hosted[key].collectionId) then CollectionLinked(hosted, key, w) else hosted
  }

  /** A created session exists under its key with the persona used, and is
      pinned to the chosen host whenever a host is configured. */
  lemma CreatedSessionPinned(rows: Rows, msg: Msg, personaId: string, w: World)
    ensures var key := Key(WorkspaceOf(msg), CreatedThread(msg, w.clockMs));
      var after := CreatedRows(rows, msg, personaId, w);
      key in after && after[key].personaId == Some(personaId)
      && (w.lmHosts != [] ==> after[key].hostUrl == HostChoice(w.lmHosts, w.hostHealth))
      && (forall k :: k != key ==> (k in after <==> k in rows) && (k in rows ==> after[k] == rows[k]))
  {
    var key := Key(WorkspaceOf(msg), CreatedThread(msg, w.clockMs));
    var upserted := rows[key := Upserted(rows, key, OptText(Get(msg, "conversation_id")), OptText(Get(msg, "user_id")),
                                         Some(personaId), w.now)];
    assert upserted[key].personaId == Some(personaId);
    var hosted := HostAssigned(upserted, key, w);
    assert key in hosted && hosted[key].personaId == Some(personaId);
  }

  /** Resuming a session that already has a host and a collection only
      refreshes its update time. */
  lemma ResumeKeepsPinnedSession(rows: Rows, key: Key, w: World)
    requires key in rows && Filled(rows[key].hostUrl) && Filled(rows[key].collectionId)
    ensures ResumedRows(rows, key, w) == rows[key := rows[key].(updatedTs := w.now)]
  {
  }

  /** Resuming an unknown session writes nothing. */
  lemma ResumeUnknownWritesNothing(rows: Rows, key: Key, w: World)
    requires key !in rows
    ensures ResumedRows(rows, key, w) == rows
  {
  }

  /** The row a resume reply carries: the one read before the touch when
      nothing else was written, else the one read after the last write. */
  function ResumeReplyRow(before: Rows, key: Key, after: Rows): Json
  {
    if key in before && Filled(before[key].hostUrl) && Filled(before[key].collectionId) then SessionJson(before[key])
    else RowJson(after, key)
  }

  function OptJson(o: Option<string>): Json
  {
    if o.Some? then JStr(o.value) else JNull
  }

  /** A session row as `get_session` returns it: one entry per column. */
  function SessionJson(s: Session): Json
  {
    JObj([("workspace_id", JStr(s.workspaceId)), ("thread_id", JStr(s.threadId)),
          ("conversation_id", OptJson(s.conversationId)), ("user_id", OptJson(s.userId)),
          ("persona_id", OptJson(s.personaId)), ("host_url", OptJson(s.hostUrl)),
          ("model_id", OptJson(s.modelId)), ("health_state", JStr(s.healthState)),
          ("chroma_collection_id", OptJson(s.collectionId)), ("chroma_collection_name", OptJson(s.collectionName)),
          ("created_ts", JNum(s.createdTs)), ("updated_ts", JNum(s.updatedTs))])
  }

  function RowJson(rows: Rows, key: Key): Json
  {
    if key in rows then SessionJson(rows[key]) else JNull
  }

  /** The key of the session a session frame is about: the created thread
      for "create", the frame's thread otherwise. */
  function SessionKey(msg: Msg, w: World): Key
  {
    if Get(msg, "action") == JStr("create") then Key(WorkspaceOf(msg), CreatedThread(msg, w.clockMs))
    else Key(WorkspaceOf(msg), PyStr(Get(msg, "thread_id")))
  }

  /** `_handle_session` on the rows and the active personas: its result, or
      the exception it raises, and the rows it leaves. A create whose persona
      id cannot be looked up raises before writing; any other create upserts,
      pins and links the session and returns it with its persona; a resume
      without a thread is refused; a resume touches, pins and links a known
      session; any other action is refused. */
  function SessionOutcome(rows: Rows, states: Dict<string, Personas.Persona>, msg: Msg, w: World): (Attempt<Json>, Rows)
  {
    var action := Get(msg, "action");
    if action == JStr("create") then
      match RequestedPersona(msg)
      case Raised(m) => (Raised(m), rows)
      case Ok(requested) =>
        var personaId := CreatePersona(states, requested);
        var persona := Personas.Resolve(states, personaId);
        var key := SessionKey(msg, w);
        var after := CreatedRows(rows, msg, personaId, w);
        (Ok(JObj([("ok", JBool(true)), ("thread_id", JStr(key.threadId)), ("session", RowJson(after, key)),
                  ("persona", JObj(if persona.Some? then persona.value else []))])), after)
    else if action == JStr("resume") then
      if !Truthy(Get(msg, "thread_id")) then (Ok(Failure("thread_id_required")), rows)
      else
        var key := SessionKey(msg, w);
        var after := ResumedRows(rows, key, w);
        (Ok(JObj([("ok", JBool(key in rows)), ("session", ResumeReplyRow(rows, key, after))])), after)
    else (Ok(Failure("unknown_session_action")), rows)
  }

  /** A session frame writes at most the row of its own session: a create
      that raises writes nothing, any other create leaves that row present,
      anything else adds no row, and a refused frame writes nothing. Only a
      create whose persona id is a list or dict raises. */
  lemma SessionOutcomeEffects(rows: Rows, states: Dict<string, Personas.Persona>, msg: Msg, w: World)
    ensures var after := SessionOutcome(rows, states, msg, w).1;
      forall k :: k != SessionKey(msg, w) ==> (k in after <==> k in rows) && (k in rows ==> after[k] == rows[k])
    ensures SessionOutcome(rows, states, msg, w).0.Raised? <==>
      Get(msg, "action") == JStr("create") && !Hashable(PyOr(Get(msg, "persona_id"), JStr("default")))
    ensures Get(msg, "action") == JStr("create") && SessionOutcome(rows, states, msg, w).0.Ok? ==>
      SessionKey(msg, w) in SessionOutcome(rows, states, msg, w).1
    ensures Get(msg, "action") != JStr("create") ==> SessionOutcome(rows, states, msg, w).1.Keys == rows.Keys
    ensures var o := SessionOutcome(rows, states, msg, w);
      o.0.Raised? || !ResultOk(o.0.value) ==> o.1 == rows
  {
    var key := SessionKey(msg, w);
    if Get(msg, "action") == JStr("create") {
      if RequestedPersona(msg).Ok? {
        CreatedSessionPinned(rows, msg, CreatePersona(states, RequestedPersona(msg).value), w);
      }
    } else if Get(msg, "action") == JStr("resume") && Truthy(Get(msg, "thread_id")) {
      ResumedRowsFrame(rows, key, w);
      var res := SessionOutcome(rows, states, msg, w).0.value;
      assert Field(res, "ok") == JBool(key in rows);
    } else {
      assert Field(Failure("x"), "ok") == JBool(false);
    }
  }

  /** A create whose persona id is a dict raises TypeError and writes no
      row. */
  lemma SessionDictPersonaRaises(rows: Rows, states: Dict<string, Personas.Persona>, msg: Msg, w: World)
    requires Get(msg, "action") == JStr("create") && Get(msg, "persona_id") == JObj([("x", JNum(1))])
    ensures SessionOutcome(rows, states, msg, w) == (Raised("unhashable type: 'dict'"), rows)
  {
    var id := JObj([("x", JNum(1))]);
    assert Truthy(id) && PyOr(id, JStr("default")) == id;
    assert RequestedPersona(msg) == Raised(Unhashable(id));
    assert TypeName(id) == "dict";
    assert Unhashable(id) == "unhashable type: 'dict'";
    assert SessionOutcome(rows, states, msg, w).0 == Raised(Unhashable(id));
  }

  /** A create whose persona id is the number 5 stores and returns the
      default persona, even when a persona named "5" exists: the manager's
      keys are text. */
  lemma SessionNumberPersonaIsDefault(rows: Rows, states: Dict<string, Personas.Persona>, msg: Msg, w: World)
    requires Get(msg, "action") == JStr("create") && Get(msg, "persona_id") == JNum(5)
    requires HasKey(states, "default") && HasKey(states, "5")
    ensures var o := SessionOutcome(rows, states, msg, w);
      o.0.Ok? && Field(o.0.value, "persona") == JObj(Lookup(states, "default").value)
      && SessionKey(msg, w) in o.1 && o.1[SessionKey(msg, w)].personaId == Some("default")
  {
    assert RequestedPersona(msg) == Ok(None);
    assert CreatePersona(states, None) == "default";
    var key := SessionKey(msg, w);
    var after := CreatedRows(rows, msg, "default", w);
    var persona := Personas.Resolve(states, "default");
    var fields := [("ok", JBool(true)), ("thread_id", JStr(key.threadId)), ("session", RowJson(after, key)),
                   ("persona", JObj(persona.value))];
    assert SessionOutcome(rows, states, msg, w) == (Ok(JObj(fields)), after);
    assert Lookup(fields[3..], "persona") == Some(JObj(persona.value));
    assert fields[2..][1..] == fields[3..] && fields[1..][1..] == fields[2..] && fields[0..][1..] == fields[1..];
    CreatedSessionPinned(rows, msg, "default", w);
  }

  /** A resume writes at most its own row and adds none. */
  lemma ResumedRowsFrame(rows: Rows, key: Key, w: World)
    ensures var after := ResumedRows(rows, key, w);
      after.Keys == rows.Keys && forall k :: k != key && k in rows ==> after[k] == rows[k]
  {
  }

  // ---- memory -----------------------------------------------------------------------

  /** The arguments of the Chroma upsert. */
  datatype UpsertCall = UpsertCall(collectionId: string, ids: Json, documents: Json, metadatas: Json, embeddings: Json)

  /** What `_handle_memory` does: its reply (or the exception it raises), the
      rows it leaves, and the upsert it makes, if any. */
  datatype MemoryOutcome = MemoryOutcome(reply: Attempt<Json>, rows: Rows, call: Option<UpsertCall>)

  /** How many items iterating a value yields; None where iterating raises
      TypeError. */
  function IterLength(j: Json): Option<nat>
  {
    match j
    case JArr(items) => Some(|items|)
    case JStr(s) => Some(|s|)
    case JObj(fields) => Some(|fields|)
    case _ => None
  }

  function MemoryKey(msg: Msg): Key
  {
    Key(WorkspaceOf(msg), PyStr(Get(msg, "thread_id")))
  }

  function Refused(rows: Rows, code: string): MemoryOutcome
  {
    MemoryOutcome(Ok(Failure(code)), rows, None)
  }

  /** `_handle_memory`: the checks in order, the collection recorded on the
      session when it had none, then one upsert of the frame's records. */
  function MemoryPlan(rows: Rows, msg: Msg, w: World): (o: MemoryOutcome)
    ensures !w.upsertAllowed ==> o == Refused(rows, "upserts_disabled")
    ensures w.upsertAllowed && !w.chromaAvailable ==> o == Refused(rows, "chroma_unavailable")
    ensures w.upsertAllowed && w.chromaAvailable && !Truthy(Get(msg, "thread_id")) ==>
      o == Refused(rows, "thread_id_required")
    ensures w.upsertAllowed && w.chromaAvailable && Truthy(Get(msg, "thread_id")) && MemoryKey(msg) !in rows ==>
      o == Refused(rows, "session_missing")
    ensures (w.upsertAllowed && w.chromaAvailable && Truthy(Get(msg, "thread_id")) && MemoryKey(msg) in rows
             && !Filled(rows[MemoryKey(msg)].collectionId)
             && !Filled(EnsureReply(w, MemoryCollectionName(rows[MemoryKey(msg)], w)))) ==>
      o == Refused(rows, "collection_unavailable")
    ensures o.call.Some? ==>
      MemoryKey(msg) in o.rows && o.rows[MemoryKey(msg)].collectionId == Some(o.call.value.collectionId)
      && o.call.value.collectionId != ""
    ensures o.call.Some? ==>
      o.reply == Ok(if w.upsertOk then JObj([("ok", JBool(true)), ("collection_id", JStr(o.call.value.collectionId))])
                    else Failure("upsert_failed"))
    ensures o.call.Some? && !Truthy(Get(msg, "metadatas")) ==>
      var docs := PyOr(Get(msg, "documents"), JArr([]));
      IterLength(docs).Some? && o.call.value.metadatas.JArr?
      && |o.call.value.metadatas.items| == IterLength(docs).value
      && forall i :: 0 <= i < |o.call.value.metadatas.items| ==> o.call.value.metadatas.items[i] == EmptyObj
    ensures o.rows.Keys == rows.Keys
    ensures forall k :: k in rows && k != MemoryKey(msg) ==> o.rows[k] == rows[k]
  {
    var key := MemoryKey(msg);
    if !w.upsertAllowed then Refused(rows, "upserts_disabled")
    else if !w.chromaAvailable then Refused(rows, "chroma_unavailable")
    else if !Truthy(Get(msg, "thread_id")) then Refused(rows, "thread_id_required")
    else if key !in rows then Refused(rows, "session_missing")
    else
      var row := rows[key];
      var name := MemoryCollectionName(row, w);
      var linking := !Filled(row.collectionId);
      if linking && !Filled(EnsureReply(w, name)) then Refused(rows, "collection_unavailable")
      else
        var id := if linking then EnsureReply(w, name).value else row.collectionId.value;
        var linked := if linking then rows[key := row.(collectionName := Some(name), collectionId := Some(id), updatedTs := w.now)]
                      else rows;
        MemoryUpsert(id, linked, msg, w)
  }

  /** The collection `_handle_memory` writes to: the session's own name, else
      the configured one. */
  function MemoryCollectionName(row: Session, w: World): string
  {
    if Filled(row.collectionName) then row.collectionName.value else w.collectionName
  }

  /** The first non-iterable value in `vs`, if any. */
  function FirstNotIterable(vs: seq<Json>): (r: Option<Json>)
    ensures r.None? <==> forall v :: v in vs ==> PyIter(v).Ok?
    ensures r.Some? ==> r.value in vs && PyIter(r.value).Raised?
  {
    if vs == [] then None
    else if PyIter(vs[0]).Raised? then Some(vs[0])
    else FirstNotIterable(vs[1..])
  }

  /** The TypeError of the conversion that starts `ChromaClient.upsert` once
      the base URL and the collection id are set: `list()` of the ids, the
      documents and the metadatas in that order, then, unless the embeddings
      are None, `list(vec)` of each embedding. None when all of them iterate. */
  function PayloadError(c: UpsertCall): (r: Option<string>)
    ensures r.None? <==>
      PyIter(c.ids).Ok? && PyIter(c.documents).Ok? && PyIter(c.metadatas).Ok?
      && (c.embeddings.JNull? || (PyIter(c.embeddings).Ok? && forall v :: v in PyIter(c.embeddings).value ==> PyIter(v).Ok?))
    ensures PyIter(c.ids).Raised? ==> r == Some(PyIter(c.ids).message)
  {
    if PyIter(c.ids).Raised? then Some(PyIter(c.ids).message)
    else if PyIter(c.documents).Raised? then Some(PyIter(c.documents).message)
    else if PyIter(c.metadatas).Raised? then Some(PyIter(c.metadatas).message)
    else if c.embeddings.JNull? then None
    else if PyIter(c.embeddings).Raised? then Some(PyIter(c.embeddings).message)
    else
      var bad := FirstNotIterable(PyIter(c.embeddings).value);
      if bad.Some? then Some(PyIter(bad.value).message) else None
  }

  /** The arguments `_handle_memory` passes to the upsert: falsy ids,
      documents and metadatas become [], and missing metadatas one {} per
      document. */
  function MemoryCall(id: string, msg: Msg): (c: UpsertCall)
    requires Truthy(PyOr(Get(msg, "metadatas"), JArr([]))) || IterLength(PyOr(Get(msg, "documents"), JArr([]))).Some?
    ensures c.collectionId == id && c.embeddings == Get(msg, "embeddings")
    ensures c.documents == PyOr(Get(msg, "documents"), JArr([]))
    ensures !Truthy(Get(msg, "metadatas")) ==>
      c.metadatas.JArr? && Some(|c.metadatas.items|) == IterLength(c.documents)
      && forall i :: 0 <= i < |c.metadatas.items| ==> c.metadatas.items[i] == EmptyObj
  {
    var documents := PyOr(Get(msg, "documents"), JArr([]));
    var metadatas := PyOr(Get(msg, "metadatas"), JArr([]));
    var metas := if Truthy(metadatas) then metadatas
                 else JArr(seq(IterLength(documents).value, _ => EmptyObj));
    UpsertCall(id, PyOr(Get(msg, "ids"), JArr([])), documents, metas, Get(msg, "embeddings"))
  }

  /** The upsert of `_handle_memory` into collection `id`, once the session is
      linked. Missing metadatas iterate the documents, which raises for a
      non-iterable; the upsert answers False without a base URL, and
      otherwise raises when its arguments do not convert (`PayloadError`). */
  function MemoryUpsert(id: string, linked: Rows, msg: Msg, w: World): (o: MemoryOutcome)
    ensures o.rows == linked
    ensures o.call.Some? ==> o.call.value.collectionId == id
    ensures o.call.Some? ==>
      o.reply == Ok(if w.upsertOk then JObj([("ok", JBool(true)), ("collection_id", JStr(id))])
                    else Failure("upsert_failed"))
    ensures o.call.Some? && !Truthy(Get(msg, "metadatas")) ==>
      var docs := PyOr(Get(msg, "documents"), JArr([]));
      IterLength(docs).Some? && o.call.value.metadatas.JArr?
      && |o.call.value.metadatas.items| == IterLength(docs).value
      && forall i :: 0 <= i < |o.call.value.metadatas.items| ==> o.call.value.metadatas.items[i] == EmptyObj
    ensures o.reply.Raised? <==>
      (!Truthy(Get(msg, "metadatas")) && IterLength(PyOr(Get(msg, "documents"), JArr([]))).None?)
      || (w.chromaBase && PayloadError(MemoryCall(id, msg)).Some?)
    ensures o.call.Some? <==> o.reply.Ok? && w.chromaBase
    ensures o.reply.Ok? && !w.chromaBase ==> o.reply == Ok(Failure("upsert_failed"))
  {
    var documents := PyOr(Get(msg, "documents"), JArr([]));
    var metadatas := PyOr(Get(msg, "metadatas"), JArr([]));
    if !Truthy(metadatas) && IterLength(documents).None? then
      MemoryOutcome(Raised("'" + TypeName(documents) + "' object is not iterable"), linked, None)
    else
      var call := MemoryCall(id, msg);
      if !w.chromaBase then MemoryOutcome(Ok(Failure("upsert_failed")), linked, None)
      else
        var err := PayloadError(call);
        if err.Some? then MemoryOutcome(Raised(err.value), linked, None)
        else MemoryOutcome(Ok(if w.upsertOk then JObj([("ok", JBool(true)), ("collection_id", JStr(id))])
                              else Failure("upsert_failed")), linked, Some(call))
  }

  /** A truthy non-iterable id list (`"ids": true`) reaches the upsert and
      raises there, whatever the documents are. */
  lemma MemoryIdsNotIterable(id: string, linked: Rows, msg: Msg, w: World)
    requires w.chromaBase && Truthy(Get(msg, "ids")) && PyIter(Get(msg, "ids")).Raised?
    requires Truthy(Get(msg, "metadatas")) || IterLength(PyOr(Get(msg, "documents"), JArr([]))).Some?
    ensures MemoryUpsert(id, linked, msg, w).reply == Raised("'" + TypeName(Get(msg, "ids")) + "' object is not iterable")
  {
  }

  /** Lists of ids, documents and metadatas with embeddings None or a list
      of lists convert, so the reply is the upsert's. */
  lemma MemoryListsConvert(id: string, linked: Rows, msg: Msg, w: World)
    requires forall k :: k in ["ids", "documents", "metadatas"] ==> Get(msg, k).JArr? || Get(msg, k).JNull?
    requires Get(msg, "embeddings").JNull? || (Get(msg, "embeddings").JArr? && forall v :: v in Get(msg, "embeddings").items ==> v.JArr?)
    ensures MemoryUpsert(id, linked, msg, w).reply.Ok?
  {
  }

  /** Past the refusals, a session that already has a collection answers
      exactly what the upsert into that collection answers, raises included. */
  lemma MemoryPlanUpserts(rows: Rows, msg: Msg, w: World)
    requires w.upsertAllowed && w.chromaAvailable && Truthy(Get(msg, "thread_id"))
    requires MemoryKey(msg) in rows && Filled(rows[MemoryKey(msg)].collectionId)
    ensures MemoryPlan(rows, msg, w) == MemoryUpsert(rows[MemoryKey(msg)].collectionId.value, rows, msg, w)
  {
  }

  /** A session that already has a collection keeps it: the upsert goes to
      that collection and the store is left as it was. */
  lemma MemoryUsesSessionCollection(rows: Rows, msg: Msg, w: World)
    requires MemoryKey(msg) in rows && Filled(rows[MemoryKey(msg)].collectionId)
    requires MemoryPlan(rows, msg, w).call.Some?
    ensures MemoryPlan(rows, msg, w).rows == rows
    ensures MemoryPlan(rows, msg, w).call.value.collectionId == rows[MemoryKey(msg)].collectionId.value
  {
  }

  // ---- replies ----------------------------------------------------------------------

  /** A reply of `handle`: the frame's id and scope, the handler's result, the time. */
  datatype HandleReply = HandleReply(id: Json, scope: Json, response: Json, ts: int)

  /** A reply of `mcp_socket`: the frame's id, ok, and a body or an error. */
  datatype SocketReply = SocketReply(id: Json, ok: bool, content: Content)

  function Strings(ss: seq<string>): Json
  {
    JArr(seq(|ss|, i requires 0 <= i < |ss| => JStr(ss[i])))
  }

  const HandledScopes: seq<string> :=
    ["session.*", "memory.*", "prompts.*", "config.*", "sampling.*", "resources.*", "agents.*", "voice.*", "cathedral.*"]

  const DelegatedScopes: seq<string> := ["tools.*"]

  /** The handshake body: server name, the handled and delegated scopes, the
      heartbeat period. */
  function HandshakeBody(): Json
  {
    JObj([("server", JStr("cathedral-mpc/1.2")),
          ("scopes", JObj([("handled", Strings(HandledScopes)), ("delegated", Strings(DelegatedScopes))])),
          ("heartbeat_ms", JNum(30000))])
  }

  /** `_handle_resources`: the model catalog under both "catalog" and "hosts". */
  function CatalogBody(catalog: Dict<string, seq<string>>): Json
  {
    var c := JObj(seq(|catalog|, i requires 0 <= i < |catalog| => (catalog[i].0, Strings(catalog[i].1))));
    JObj([("catalog", c), ("hosts", c)])
  }

  function HealthBody(w: World): Json
  {
    JObj([("ready", JBool(w.ready)), ("host_health", JObj(w.hostHealth)), ("ts", JStr(w.isoNow))])
  }

  function Echo(payload: Json): Json
  {
    JObj([("ok", JBool(true)), ("echo", payload)])
  }

  /** `bool(res.get("ok"))`. */
  predicate ResultOk(res: Json)
  {
    Truthy(Field(res, "ok"))
  }

  /** `{"ok": True, "body": body}`. */
  function OkBody(body: Json): Json
  {
    JObj([("ok", JBool(true)), ("body", body)])
  }

  /** The record `_handle_agents` describes the orchestrator with, for the
      workspace named ("default" when none is). The sampling defaults are
      written as decimal text. */
  function AgentRecord(ws: Json): Json
  {
    JObj([("id", JStr("cathedral")), ("name", JStr("Cathedral")), ("kind", JStr("orchestrator")),
          ("capabilities", JObj([("handled", Strings(HandledScopes)), ("delegated", Strings(DelegatedScopes))])),
          ("params", JObj([("chat", JObj([("model", JStr("auto")), ("temperature", JStr("0.7")), ("top_p", JStr("0.9"))])),
                           ("embedding", JObj([("model", JStr("auto"))]))])),
          ("metadata", JObj([("workspace_id", PyOr(ws, JStr("default"))), ("version", JStr("0.1.9"))]))])
  }

  /** The "agents.list" body: the one agent, the persona ids and the tools. */
  function AgentsListBody(ws: Json, ids: seq<string>, tools: seq<Json>): Json
  {
    JObj([("agents", JArr([AgentRecord(ws)])), ("personas", Strings(ids)), ("tools", JArr(tools))])
  }

  /** The body `_handle_agents` gives the other scopes: the agent record for
      "agents.get" and "agents.describe", nothing for the rest. */
  function AgentsOtherBody(scope: Json, ws: Json): (r: Json)
    ensures r == JObj([]) || Field(r, "agent") == AgentRecord(ws)
  {
    if scope == JStr("agents.get") || scope == JStr("agents.describe") then JObj([("agent", AgentRecord(ws))])
    else JObj([])
  }

  /** What an "agents.list" body holds whatever the state: the agent record
      for the workspace, persona ids in sorted order, and a tools listing. */
  ghost predicate AgentsListShaped(body: Json, ws: Json)
  {
    exists ids: seq<string>, tools: seq<Json> :: SortedStrings(ids) && body == AgentsListBody(ws, ids, tools)
  }

  /** The frames whose handler consults the tools listing cache. */
  predicate RefreshesCache(msg: Msg)
  {
    Get(msg, "scope") == JStr("tools.list") || Get(msg, "scope") == JStr("agents.list")
  }

  /** The body of a persona reset reply. */
  function ResetBody(pid: Json, ok: bool): Json
  {
    JObj([("persona_id", pid), ("reset", JBool(ok))])
  }

  /** The result `handle` gives an "agents.resurrect" frame. */
  function ResurrectJson(pid: Json, ok: bool): Json
  {
    JObj([("ok", JBool(ok)), ("body", ResetBody(pid, ok))])
  }

  /** A handler's result, or the error dictionary `handle` makes of the
      exception it raised. */
  function Answered(a: Attempt<Json>): (j: Json)
    ensures a.Raised? ==> j == Failure(a.message) && !ResultOk(j)
  {
    match a
    case Ok(v) => v
    case Raised(m) => Failure(m)
  }

  /** The persona id "agents.resurrect" resets in `handle`: the frame's own
      when truthy, else the body's, where `.get` on a body that is not an
      object raises. */
  function ResurrectTarget(msg: Msg): (r: Attempt<Json>)
    ensures Truthy(Get(msg, "persona_id")) ==> r == Ok(Get(msg, "persona_id"))
    ensures !Truthy(Get(msg, "persona_id")) ==> (r.Ok? <==> Body(msg).JObj?)
  {
    var direct := Get(msg, "persona_id");
    if Truthy(direct) then Ok(direct) else GetAttr(Body(msg), "persona_id")
  }

  /** What every `handle` reply states regardless of the store: the frame's id
      and scope, and the results of the branches whose handler reads no state. */
  ghost predicate Answers(b: ToolBridge.Bridge, msg: Msg, w: World, r: HandleReply)
  {
    var route := HandleRoute(Get(msg, "scope"));
    r.id == RequestId(msg, w.freshId) && r.scope == Get(msg, "scope") && r.ts == w.now
    && (route == Unknown ==> r.response == Failure("unknown_scope"))
    && (route.BadScope? ==> r.response == Failure(route.message))
    && (route == Generic ==> r.response == Echo(GetOr(msg, "payload", EmptyObj)))
    && (route == Tools ==> r.response == HandleTools(b, msg, w.toolReply))
    && (route == Voice ==> r.response == match HandleVoice(msg, w.voiceConnected, w.voiceWriteOk, w.voiceSteps)
                                         case Ok(v) => VoiceJson(v)
                                         case Raised(m) => Failure(m))
    && (route == ResourcesList ==> r.response == OkBody(CatalogBody(w.catalog)))
    && (route == ResourcesHealth ==> r.response == OkBody(HealthBody(w)))
    && (route == Agents ==>
          var scope := Get(msg, "scope");
          var ws := Get(msg, "workspace_id");
          if scope == JStr("agents.list") then r.response == OkBody(Field(r.response, "body")) && AgentsListShaped(Field(r.response, "body"), ws)
          else r.response == OkBody(AgentsOtherBody(scope, ws)))
    && (route == Resurrect ==> match ResurrectTarget(msg)
                               case Raised(m) => r.response == Failure(m)
                               case Ok(pid) => r.response == ResurrectJson(pid, ResultOk(r.response)))
  }

  /** "agents.resurrect" on the socket calls `headers.get` and `body.get`,
      which raise unless both are objects. */
  predicate ResurrectFramed(msg: Msg)
  {
    Headers(msg).JObj? && Body(msg).JObj?
  }

  /** The persona a socket "agents.resurrect" frame names: the body's, else
      the payload's, else the headers'. */
  function SocketPersona(msg: Msg, p: Msg): Json
  {
    PyOr(PyOr(Field(Body(msg), "persona_id"), Get(p, "persona_id")), Field(Headers(msg), "persona_id"))
  }

  /** "agents.list" on the socket calls `headers.get`, and `body.get` when the
      headers name no workspace. */
  predicate AgentsFramed(msg: Msg)
  {
    Headers(msg).JObj? && (Truthy(Field(Headers(msg), "workspace_id")) || Body(msg).JObj?)
  }

  /** The workspace a socket agents frame names: the headers', else the
      body's, else the payload's. */
  function SocketWorkspace(msg: Msg, p: Msg): Json
  {
    PyOr(PyOr(Field(Headers(msg), "workspace_id"), Field(Body(msg), "workspace_id")), Get(p, "workspace_id"))
  }

  /** The fields a socket voice frame hands on: a legacy frame's payload,
      else the body, whose `.get` raises unless it is an object. */
  function VoiceFields(msg: Msg, p: Msg): (r: Attempt<Msg>)
    ensures r.Raised? <==> !Legacy(msg) && !Body(msg).JObj?
  {
    if Legacy(msg) then Ok(p) else if Body(msg).JObj? then Ok(Body(msg).fields) else Raised(NoAttribute(Body(msg), "get"))
  }

  /** The `ok` of a socket memory reply: the result's own "ok", true where
      it has none or is not a dictionary. */
  function MemoryOk(res: Json): (ok: bool)
    ensures res.JObj? && HasKey(res.fields, "ok") ==> (ok <==> ResultOk(res))
    ensures !res.JObj? || !HasKey(res.fields, "ok") ==> ok
  {
    if res.JObj? then Truthy(GetOr(res.fields, "ok", JBool(true))) else true
  }

  /** What every `mcp_socket` reply states regardless of the store. A frame
      whose versioned headers are not an object, or whose scope is truthy but
      not text, raises and closes the connection. */
  ghost predicate SocketAnswers(b: ToolBridge.Bridge, msg: Msg, w: World, r: Option<SocketReply>)
  {
    var id := RequestId(msg, w.freshId);
    var route := SocketRoute(Get(msg, "scope"));
    var payload := Payload(msg);
    (payload.Raised? || route.BadScope? ==> r.None?)
    && (r.Some? ==> r.value.id == id)
    && (payload.Ok? ==> SocketFixed(b, msg, w, route, payload.value, id, r) && SocketListed(msg, w, route, payload.value, id, r))
  }

  /** The socket replies to the handshake, unknown scopes, config results,
      tool calls and generic frames. */
  predicate SocketFixed(b: ToolBridge.Bridge, msg: Msg, w: World, route: Route, p: Msg, id: Json, r: Option<SocketReply>)
  {
    (route == Unknown ==> r == Some(SocketReply(id, false, WithError(ErrorCode("UNKNOWN_SCOPE")))))
    && (route == Handshake ==> r == Some(SocketReply(id, true, WithBody(HandshakeBody()))))
    && (route == ConfigReadResult ==>
          var o := ConfigReadResultReply(msg, w.ready, w.autoConfigAllowed, w.options, w.apply);
          r == Some(SocketReply(id, o.ok, o.content)))
    && (route == Tools ==>
          match SocketToolCall(msg, p)
          case Raised(_) => r.None?
          case Ok(call) =>
            var res := HandleTools(b, call, w.toolReply);
            r == Some(SocketReply(id, ResultOk(res), WithBody(res))))
    && (route == Generic ==>
          r == Some(SocketReply(id, true, WithBody(Echo(if Legacy(msg) then GetOr(msg, "payload", EmptyObj) else JObj(p))))))
  }

  /** The socket replies to resources, agents and voice frames. */
  ghost predicate SocketListed(msg: Msg, w: World, route: Route, p: Msg, id: Json, r: Option<SocketReply>)
  {
    (route == ResourcesList ==> r == Some(SocketReply(id, true, WithBody(CatalogBody(w.catalog)))))
    && (route == ResourcesHealth ==> r == Some(SocketReply(id, true, WithBody(HealthBody(w)))))
    && (route == Agents ==>
          (r.Some? <==> AgentsFramed(msg))
          && (r.Some? ==>
                var scope := Get(msg, "scope");
                var ws := SocketWorkspace(msg, p);
                r.value.ok && r.value.content.WithBody?
                && if scope == JStr("agents.list") then AgentsListShaped(r.value.content.body, ws)
                   else r.value.content.body == AgentsOtherBody(scope, ws)))
    && (route == Resurrect ==>
          (r.Some? <==> ResurrectFramed(msg))
          && (r.Some? ==> r.value.content == WithBody(ResetBody(SocketPersona(msg, p), r.value.ok))))
    && (route == Voice ==>
          match VoiceFields(msg, p)
          case Raised(_) => r.None?
          case Ok(fields) =>
            match HandleVoice(fields, w.voiceConnected, w.voiceWriteOk, w.voiceSteps)
            case Raised(_) => r.None?
            case Ok(v) => r == Some(SocketReply(id, v.VoiceAudio?, WithBody(VoiceJson(v)))))
  }

  /** A tool frame's reply is ok exactly when the bridge's call succeeded. */
  lemma ToolReplyOk(b: ToolBridge.Bridge, call: Msg, reply: ToolBridge.HttpReply)
    ensures var res := HandleTools(b, call, reply);
      ResultOk(res) <==> res.fields[0] == ("ok", JBool(true))
  {
    var res := HandleTools(b, call, reply);
    assert Lookup(res.fields, "ok") == Some(res.fields[0].1);
  }

  // ---- the server's state, frame by frame --------------------------------------------

  /** What the server keeps from one frame to the next: the session rows, the
      persona templates and their active states, and the tools listing cache. */
  datatype ServerState = ServerState(rows: Rows, templates: Dict<string, Personas.Persona>,
                                     states: Dict<string, Personas.Persona>, cache: ToolsCache)

  /** `persona_manager.reset(str(pid))` guarded by `bool(pid)`: whether a
      template was found, and the active states after. */
  function ResetOutcome(templates: Dict<string, Personas.Persona>, states: Dict<string, Personas.Persona>, pid: Json)
    : (r: (bool, Dict<string, Personas.Persona>))
    ensures r.0 <==> Truthy(pid) && HasKey(templates, PyStr(pid))
  {
    var id := PyStr(pid);
    if Truthy(pid) && HasKey(templates, id) then (true, Put(states, id, Lookup(templates, id).value))
    else (false, states)
  }

  /** A reset changes one active persona, back to its template, and only
      when it reports success. */
  lemma ResetRestoresTemplate(templates: Dict<string, Personas.Persona>, states: Dict<string, Personas.Persona>,
                              pid: Json, k: string)
    ensures var r := ResetOutcome(templates, states, pid);
      Lookup(r.1, k) == if r.0 && k == PyStr(pid) then Lookup(templates, k) else Lookup(states, k)
  {
    var id := PyStr(pid);
    if Truthy(pid) && HasKey(templates, id) {
      PutLookup(states, id, Lookup(templates, id).value, k);
    }
  }

  /** `_handle_agents(scope, workspace_id)`: the body and the tools cache after.
      "agents.list" lists the template ids in sorted order and the tools the
      cache serves; the other scopes leave the cache alone. */
  function AgentsOutcome(s: ServerState, scope: Json, ws: Json, w: World): (r: (Json, ToolsCache))
  {
    if scope == JStr("agents.list") then
      var c := CacheLookup(s.cache, w.now, w.services);
      (AgentsListBody(ws, SortStrings(Keys(s.templates)), c.1), c.0)
    else (AgentsOtherBody(scope, ws), s.cache)
  }

  /** "agents.list" lists the template ids, each once and in sorted order,
      with the tools the cache lookup serves, and leaves the cache as the
      lookup does; the other agents scopes leave the cache alone. */
  lemma AgentsListing(s: ServerState, scope: Json, ws: Json, w: World)
    ensures var r := AgentsOutcome(s, scope, ws, w);
      scope == JStr("agents.list") ==>
        r.1 == CacheLookup(s.cache, w.now, w.services).0
        && exists ids :: SortedStrings(ids) && multiset(ids) == multiset(Keys(s.templates))
                         && r.0 == AgentsListBody(ws, ids, r.1.entries.value)
    ensures var r := AgentsOutcome(s, scope, ws, w);
      scope != JStr("agents.list") ==> r == (AgentsOtherBody(scope, ws), s.cache)
  {
    if scope == JStr("agents.list") {
      var ids := SortStrings(Keys(s.templates));
      assert AgentsOutcome(s, scope, ws, w).0 == AgentsListBody(ws, ids, CacheLookup(s.cache, w.now, w.services).1);
    }
  }

  /** The persona ids an "agents.list" body gives are determined by the
      templates: any sorted listing of the same ids is the one given. */
  lemma AgentsListPersonasDetermined(s: ServerState, ws: Json, w: World, ids: seq<string>)
    requires SortedStrings(ids) && multiset(ids) == multiset(Keys(s.templates))
    ensures AgentsOutcome(s, JStr("agents.list"), ws, w).0
         == AgentsListBody(ws, ids, CacheLookup(s.cache, w.now, w.services).1)
  {
    SortedUnique(ids, SortStrings(Keys(s.templates)));
  }

  /** The branch of `handle` a frame takes: its result and the state after. */
  function HandleResult(b: ToolBridge.Bridge, s: ServerState, msg: Msg, w: World): (r: (Json, ServerState))
    ensures r.1.templates == s.templates
    ensures HandleRoute(Get(msg, "scope")) != Resurrect ==> r.1.states == s.states
    ensures HandleRoute(Get(msg, "scope")) != Route.Session && HandleRoute(Get(msg, "scope")) != Memory ==> r.1.rows == s.rows
    ensures !RefreshesCache(msg) ==> r.1.cache == s.cache
  {
    var route := HandleRoute(Get(msg, "scope"));
    if route.ToolsList? || route.Agents? || route.Session? || route.Memory? || route.Resurrect? then HandleWrite(s, msg, w)
    else (HandleRead(b, msg, w), s)
  }

  /** The branches of `handle` that change the server's state: the cached
      tools listing (served to "tools.list" and "agents.list"), sessions,
      memory and persona resets. */
  function HandleWrite(s: ServerState, msg: Msg, w: World): (r: (Json, ServerState))
    ensures r.1.templates == s.templates
    ensures var route := HandleRoute(Get(msg, "scope"));
      route.ToolsList? || route.Agents? || route.Session? || route.Memory? ==> r.1.states == s.states
    ensures HandleRoute(Get(msg, "scope")) != Route.Session && HandleRoute(Get(msg, "scope")) != Memory ==> r.1.rows == s.rows
    ensures !RefreshesCache(msg) ==> r.1.cache == s.cache
  {
    match HandleRoute(Get(msg, "scope"))
    case ToolsList =>
      var c := CacheLookup(s.cache, w.now, w.services);
      (JObj([("ok", JBool(true)), ("tools", JArr(c.1))]), s.(cache := c.0))
    case Agents =>
      var o := AgentsOutcome(s, Get(msg, "scope"), Get(msg, "workspace_id"), w);
      (OkBody(o.0), s.(cache := o.1))
    case Session =>
      var o := SessionOutcome(s.rows, s.states, msg, w);
      (Answered(o.0), s.(rows := o.1))
    case Memory =>
      var o := MemoryPlan(s.rows, msg, w);
      (Answered(o.reply), s.(rows := o.rows))
    case _ =>
      match ResurrectTarget(msg)
      case Raised(m) => (Failure(m), s)
      case Ok(pid) =>
        var o := ResetOutcome(s.templates, s.states, pid);
        (ResurrectJson(pid, o.0), s.(states := o.1))
  }

  /** The branches of `handle` that read no state. */
  function HandleRead(b: ToolBridge.Bridge, msg: Msg, w: World): Json
  {
    match HandleRoute(Get(msg, "scope"))
    case Tools => HandleTools(b, msg, w.toolReply)
    case ResourcesList => OkBody(CatalogBody(w.catalog))
    case ResourcesHealth => OkBody(HealthBody(w))
    case Voice =>
      (match HandleVoice(msg, w.voiceConnected, w.voiceWriteOk, w.voiceSteps)
       case Ok(v) => VoiceJson(v)
       case Raised(m) => Failure(m))
    case Generic => Echo(GetOr(msg, "payload", EmptyObj))
    case BadScope(m) => Failure(m)
    case _ => Failure("unknown_scope")
  }

  /** One iteration of `handle`: the reply and the state after. */
  function HandleStep(b: ToolBridge.Bridge, s: ServerState, msg: Msg, w: World): (HandleReply, ServerState)
  {
    var o := HandleResult(b, s, msg, w);
    (HandleReply(RequestId(msg, w.freshId), Get(msg, "scope"), o.0, w.now), o.1)
  }

  /** The frames of `handle` that write session rows. */
  predicate WritesRows(msg: Msg)
  {
    var route := HandleRoute(Get(msg, "scope"));
    route == Route.Session || route == Memory
  }

  /** What one `handle` frame does: its reply meets `Answers`, and an agents
      frame's is the body `_handle_agents` gives in this state; the templates
      never change; the cache changes only on "tools.list" and "agents.list",
      as the cache lookup leaves it; the rows only on session and memory frames, as those
      handlers leave them, with a memory handler's exception answered as an
      error; the active personas only on "agents.resurrect", and then only
      back to a template. */
  lemma HandleStepEffects(b: ToolBridge.Bridge, s: ServerState, msg: Msg, w: World)
    ensures Answers(b, msg, w, HandleStep(b, s, msg, w).0)
    ensures HandleStep(b, s, msg, w).1.templates == s.templates
    ensures HandleStep(b, s, msg, w).1.cache == if RefreshesCache(msg) then CacheLookup(s.cache, w.now, w.services).0 else s.cache
    ensures HandleRoute(Get(msg, "scope")) == Agents ==>
      HandleStep(b, s, msg, w).0.response == OkBody(AgentsOutcome(s, Get(msg, "scope"), Get(msg, "workspace_id"), w).0)
    ensures HandleRoute(Get(msg, "scope")) == Route.Session ==>
      HandleStep(b, s, msg, w).1.rows == SessionOutcome(s.rows, s.states, msg, w).1
    ensures HandleRoute(Get(msg, "scope")) == Memory ==>
      var o := MemoryPlan(s.rows, msg, w);
      HandleStep(b, s, msg, w).1.rows == o.rows && HandleStep(b, s, msg, w).0.response == Answered(o.reply)
    ensures !WritesRows(msg) ==> HandleStep(b, s, msg, w).1.rows == s.rows
    ensures HandleRoute(Get(msg, "scope")) != Resurrect ==> HandleStep(b, s, msg, w).1.states == s.states
    ensures forall k :: Lookup(HandleStep(b, s, msg, w).1.states, k) in {Lookup(s.states, k), Lookup(s.templates, k)}
  {
    HandleStepAnswers(b, s, msg, w);
    HandleStepCache(b, s, msg, w);
    HandleStepRows(b, s, msg, w);
    HandleStepStates(b, s, msg, w);
  }

  /** The reply clause of `HandleStepEffects`. */
  lemma HandleStepAnswers(b: ToolBridge.Bridge, s: ServerState, msg: Msg, w: World)
    ensures Answers(b, msg, w, HandleStep(b, s, msg, w).0)
  {
    var route := HandleRoute(Get(msg, "scope"));
    if route == Resurrect {
      HandleAnswersResurrect(b, s, msg, w);
    } else if route == Agents {
      HandleAnswersAgents(b, s, msg, w);
    } else if route.ToolsList? || route.Session? || route.Memory? {
      HandleAnswersWrite(b, s, msg, w);
    } else {
      HandleAnswersRead(b, s, msg, w);
    }
  }

  /** `HandleStepAnswers` for "agents.resurrect". */
  lemma HandleAnswersResurrect(b: ToolBridge.Bridge, s: ServerState, msg: Msg, w: World)
    requires HandleRoute(Get(msg, "scope")) == Resurrect
    ensures Answers(b, msg, w, HandleStep(b, s, msg, w).0)
  {
    assert HandleResult(b, s, msg, w) == HandleWrite(s, msg, w);
    if ResurrectTarget(msg).Ok? {
      var pid := ResurrectTarget(msg).value;
      var o := ResetOutcome(s.templates, s.states, pid);
      assert Field(ResurrectJson(pid, o.0), "ok") == JBool(o.0);
    }
  }

  /** `HandleStepAnswers` for the other "agents." scopes. */
  lemma HandleAnswersAgents(b: ToolBridge.Bridge, s: ServerState, msg: Msg, w: World)
    requires HandleRoute(Get(msg, "scope")) == Agents
    ensures Answers(b, msg, w, HandleStep(b, s, msg, w).0)
  {
    HandleStepCache(b, s, msg, w);
  }

  /** `HandleStepAnswers` for "tools.list" and the session and memory scopes. */
  lemma HandleAnswersWrite(b: ToolBridge.Bridge, s: ServerState, msg: Msg, w: World)
    requires HandleRoute(Get(msg, "scope")).ToolsList? || HandleRoute(Get(msg, "scope")).Session?
      || HandleRoute(Get(msg, "scope")).Memory?
    ensures Answers(b, msg, w, HandleStep(b, s, msg, w).0)
  {
    assert HandleResult(b, s, msg, w) == HandleWrite(s, msg, w);
  }

  /** `HandleStepAnswers` for the scopes that leave the state alone. */
  lemma HandleAnswersRead(b: ToolBridge.Bridge, s: ServerState, msg: Msg, w: World)
    requires !HandleRoute(Get(msg, "scope")).ToolsList? && !HandleRoute(Get(msg, "scope")).Session?
      && !HandleRoute(Get(msg, "scope")).Memory? && !HandleRoute(Get(msg, "scope")).Agents?
      && !HandleRoute(Get(msg, "scope")).Resurrect?
    ensures Answers(b, msg, w, HandleStep(b, s, msg, w).0)
  {
    assert HandleResult(b, s, msg, w).0 == HandleRead(b, msg, w);
  }

  /** The rows clauses of `HandleStepEffects`. */
  lemma HandleStepRows(b: ToolBridge.Bridge, s: ServerState, msg: Msg, w: World)
    ensures HandleRoute(Get(msg, "scope")) == Route.Session ==>
      HandleStep(b, s, msg, w).1.rows == SessionOutcome(s.rows, s.states, msg, w).1
    ensures HandleRoute(Get(msg, "scope")) == Memory ==>
      var o := MemoryPlan(s.rows, msg, w);
      HandleStep(b, s, msg, w).1.rows == o.rows && HandleStep(b, s, msg, w).0.response == Answered(o.reply)
    ensures !WritesRows(msg) ==> HandleStep(b, s, msg, w).1.rows == s.rows
  {
    if WritesRows(msg) {
      assert HandleResult(b, s, msg, w) == HandleWrite(s, msg, w);
    }
  }

  /** The templates and active personas clauses of `HandleStepEffects`. */
  lemma HandleStepStates(b: ToolBridge.Bridge, s: ServerState, msg: Msg, w: World)
    ensures HandleStep(b, s, msg, w).1.templates == s.templates
    ensures HandleRoute(Get(msg, "scope")) != Resurrect ==> HandleStep(b, s, msg, w).1.states == s.states
    ensures forall k :: Lookup(HandleStep(b, s, msg, w).1.states, k) in {Lookup(s.states, k), Lookup(s.templates, k)}
  {
    if HandleRoute(Get(msg, "scope")) == Resurrect && ResurrectTarget(msg).Ok? {
      assert HandleResult(b, s, msg, w) == HandleWrite(s, msg, w);
      var pid := ResurrectTarget(msg).value;
      var o := ResetOutcome(s.templates, s.states, pid);
      forall k ensures Lookup(o.1, k) in {Lookup(s.states, k), Lookup(s.templates, k)} {
        ResetRestoresTemplate(s.templates, s.states, pid, k);
      }
    }
  }

  /** The cache and agents clauses of `HandleStepEffects`. */
  lemma HandleStepCache(b: ToolBridge.Bridge, s: ServerState, msg: Msg, w: World)
    ensures HandleStep(b, s, msg, w).1.cache == if RefreshesCache(msg) then CacheLookup(s.cache, w.now, w.services).0 else s.cache
    ensures HandleRoute(Get(msg, "scope")) == Agents ==>
      HandleStep(b, s, msg, w).0.response == OkBody(AgentsOutcome(s, Get(msg, "scope"), Get(msg, "workspace_id"), w).0)
    ensures HandleRoute(Get(msg, "scope")) == Agents ==>
      var scope := Get(msg, "scope");
      var r := HandleStep(b, s, msg, w).0;
      var ws := Get(msg, "workspace_id");
      if scope == JStr("agents.list") then r.response == OkBody(Field(r.response, "body")) && AgentsListShaped(Field(r.response, "body"), ws)
      else r.response == OkBody(AgentsOtherBody(scope, ws))
  {
    var route := HandleRoute(Get(msg, "scope"));
    if Get(msg, "scope") == JStr("agents.list") {
      AgentsScopesRoute("agents.list");
      AgentsListAnswered(s, Get(msg, "workspace_id"), w);
    }
    if route == Agents || route == ToolsList {
      assert HandleResult(b, s, msg, w) == HandleWrite(s, msg, w);
    }
  }

  /** The "agents.list" reply is ok and holds a listing of the agents shape. */
  lemma AgentsListAnswered(s: ServerState, ws: Json, w: World)
    ensures var body := AgentsOutcome(s, JStr("agents.list"), ws, w).0;
      Field(OkBody(body), "body") == body && AgentsListShaped(body, ws)
  {
    var c := CacheLookup(s.cache, w.now, w.services);
    var ids := SortStrings(Keys(s.templates));
    var body := AgentsListBody(ws, ids, c.1);
    assert AgentsOutcome(s, JStr("agents.list"), ws, w).0 == body;
    assert SortedStrings(ids) && body == AgentsListBody(ws, ids, c.1);
    assert Lookup(OkBody(body).fields, "body") == Some(body);
  }

  /** `trace` lists the states a run of `handle` passes through: every frame
      answered, in order, in the state the frame before it left. */
  ghost predicate HandleTrace(b: ToolBridge.Bridge, frames: seq<(Msg, World)>, replies: seq<HandleReply>,
                              trace: seq<ServerState>)
  {
    |replies| == |frames| && |trace| == |frames| + 1
    && forall i {:trigger HandleStep(b, trace[i], frames[i].0, frames[i].1)} ::
         0 <= i < |frames| ==> HandleStep(b, trace[i], frames[i].0, frames[i].1) == (replies[i], trace[i + 1])
  }

  /** Through a trace whose every step keeps `f`, the last state has the
      first state's `f`. */
  lemma {:induction false} KeptAlong<T>(trace: seq<ServerState>, n: nat, f: ServerState -> T)
    requires n < |trace|
    requires forall i :: 0 <= i < n ==> f(trace[i + 1]) == f(trace[i])
    ensures f(trace[n]) == f(trace[0])
  {
    if n > 0 {
      KeptAlong(trace, n - 1, f);
    }
  }

  /** `handle` answers every frame as `Answers` says, and never changes a
      persona template. */
  lemma HandleTraceAnswers(b: ToolBridge.Bridge, frames: seq<(Msg, World)>, replies: seq<HandleReply>,
                           trace: seq<ServerState>)
    requires HandleTrace(b, frames, replies, trace)
    ensures forall i :: 0 <= i < |frames| ==> Answers(b, frames[i].0, frames[i].1, replies[i])
    ensures trace[|frames|].templates == trace[0].templates
  {
    forall i | 0 <= i < |frames|
      ensures Answers(b, frames[i].0, frames[i].1, replies[i]) && trace[i + 1].templates == trace[i].templates
    {
      assert HandleStep(b, trace[i], frames[i].0, frames[i].1) == (replies[i], trace[i + 1]);
      HandleStepEffects(b, trace[i], frames[i].0, frames[i].1);
    }
    KeptAlong(trace, |frames|, (s: ServerState) => s.templates);
  }

  /** A run of frames none of which asks for a tools listing leaves the
      cache as it was. */
  lemma HandleTraceKeepsCache(b: ToolBridge.Bridge, frames: seq<(Msg, World)>, replies: seq<HandleReply>,
                              trace: seq<ServerState>)
    requires HandleTrace(b, frames, replies, trace)
    requires forall i :: 0 <= i < |frames| ==> !RefreshesCache(frames[i].0)
    ensures trace[|frames|].cache == trace[0].cache
  {
    forall i | 0 <= i < |frames|
      ensures trace[i + 1].cache == trace[i].cache
    {
      assert trace[i + 1] == HandleStep(b, trace[i], frames[i].0, frames[i].1).1;
    }
    KeptAlong(trace, |frames|, (s: ServerState) => s.cache);
  }

  /** A run of frames none of which is a session or memory frame leaves the
      session rows as they were. */
  lemma HandleTraceKeepsRows(b: ToolBridge.Bridge, frames: seq<(Msg, World)>, replies: seq<HandleReply>,
                             trace: seq<ServerState>)
    requires HandleTrace(b, frames, replies, trace)
    requires forall i :: 0 <= i < |frames| ==> !WritesRows(frames[i].0)
    ensures trace[|frames|].rows == trace[0].rows
  {
    forall i | 0 <= i < |frames|
      ensures trace[i + 1].rows == trace[i].rows
    {
      assert HandleStep(b, trace[i], frames[i].0, frames[i].1) == (replies[i], trace[i + 1]);
      HandleStepRows(b, trace[i], frames[i].0, frames[i].1);
    }
    KeptAlong(trace, |frames|, (s: ServerState) => s.rows);
  }

  /** One iteration of `mcp_socket`: the reply, None when the frame raises
      outside any handler, and the state after. */
  function SocketStep(b: ToolBridge.Bridge, s: ServerState, msg: Msg, w: World): (Option<SocketReply>, ServerState)
  {
    match Payload(msg)
    case Raised(_) => (None, s)
    case Ok(p) =>
      var o := SocketResult(b, s, msg, w, p);
      (if o.0.Some? then Some(SocketReply(RequestId(msg, w.freshId), o.0.value.0, o.0.value.1)) else None, o.1)
  }

  /** The branch of `mcp_socket` a parsed frame takes: the reply's ok and
      content, None when it raises, and the state after. */
  function SocketResult(b: ToolBridge.Bridge, s: ServerState, msg: Msg, w: World, p: Msg)
    : (r: (Option<(bool, Content)>, ServerState))
    ensures r.1.templates == s.templates
    ensures SocketRoute(Get(msg, "scope")) != Resurrect ==> r.1.states == s.states
    ensures SocketRoute(Get(msg, "scope")) != Route.Session && SocketRoute(Get(msg, "scope")) != Memory ==> r.1.rows == s.rows
    ensures Get(msg, "scope") != JStr("agents.list") ==> r.1.cache == s.cache
  {
    var route := SocketRoute(Get(msg, "scope"));
    if route.Agents? || route.Session? || route.Memory? || route.Resurrect? then SocketWrite(s, msg, w, p)
    else (SocketRead(b, msg, w, p), s)
  }

  /** The branches of `mcp_socket` that change the server's state: agents
      (the cached tools listing), sessions, memory and persona resets. */
  function SocketWrite(s: ServerState, msg: Msg, w: World, p: Msg): (Option<(bool, Content)>, ServerState)
  {
    match SocketRoute(Get(msg, "scope"))
    case Agents =>
      if !AgentsFramed(msg) then (None, s)
      else
        var o := AgentsOutcome(s, Get(msg, "scope"), SocketWorkspace(msg, p), w);
        (Some((true, WithBody(o.0))), s.(cache := o.1))
    case Session =>
      var o := SessionOutcome(s.rows, s.states, p, w);
      (match o.0
       case Raised(_) => None
       case Ok(res) => Some((ResultOk(res), WithBody(res))), s.(rows := o.1))
    case Memory =>
      var o := MemoryPlan(s.rows, p, w);
      (match o.reply
       case Raised(_) => None
       case Ok(res) => Some((MemoryOk(res), WithBody(res))), s.(rows := o.rows))
    case _ =>
      if !ResurrectFramed(msg) then (None, s)
      else
        var pid := SocketPersona(msg, p);
        var o := ResetOutcome(s.templates, s.states, pid);
        (Some((o.0, WithBody(ResetBody(pid, o.0)))), s.(states := o.1))
  }

  /** The branches of `mcp_socket` that read no state. */
  function SocketRead(b: ToolBridge.Bridge, msg: Msg, w: World, p: Msg): Option<(bool, Content)>
  {
    match SocketRoute(Get(msg, "scope"))
    case Handshake => Some((true, WithBody(HandshakeBody())))
    case Tools =>
      (match SocketToolCall(msg, p)
       case Raised(_) => None
       case Ok(call) =>
         var res := HandleTools(b, call, w.toolReply);
         Some((ResultOk(res), WithBody(res))))
    case ConfigReadResult =>
      var o := ConfigReadResultReply(msg, w.ready, w.autoConfigAllowed, w.options, w.apply);
      Some((o.ok, o.content))
    case ResourcesList => Some((true, WithBody(CatalogBody(w.catalog))))
    case ResourcesHealth => Some((true, WithBody(HealthBody(w))))
    case Voice =>
      (match VoiceFields(msg, p)
       case Raised(_) => None
       case Ok(fields) =>
         match HandleVoice(fields, w.voiceConnected, w.voiceWriteOk, w.voiceSteps)
         case Raised(_) => None
         case Ok(v) => Some((v.VoiceAudio?, WithBody(VoiceJson(v)))))
    case Generic =>
      var call := if Legacy(msg) then GetOr(msg, "payload", EmptyObj) else JObj(p);
      Some((true, WithBody(Echo(call))))
    case BadScope(_) => None
    case _ => Some((false, WithError(ErrorCode("UNKNOWN_SCOPE"))))
  }

  /** A socket frame's reply meets `SocketAnswers`. */
  lemma SocketStepAnswers(b: ToolBridge.Bridge, s: ServerState, msg: Msg, w: World)
    ensures SocketAnswers(b, msg, w, SocketStep(b, s, msg, w).0)
  {
    SocketStepId(b, s, msg, w);
    if Payload(msg).Ok? {
      SocketStepFixed(b, s, msg, w);
      SocketStepListed(b, s, msg, w);
    }
  }

  lemma SocketStepId(b: ToolBridge.Bridge, s: ServerState, msg: Msg, w: World)
    ensures var r := SocketStep(b, s, msg, w).0;
      (Payload(msg).Raised? || SocketRoute(Get(msg, "scope")).BadScope? ==> r.None?)
      && (r.Some? ==> r.value.id == RequestId(msg, w.freshId))
  {
    SocketStepTagged(b, s, msg, w);
    if Payload(msg).Ok? && SocketRoute(Get(msg, "scope")).BadScope? {
      SocketStepReads(b, s, msg, w);
    }
  }

  /** A frame whose payload does not parse gets no reply, and every reply
      carries the frame's request id. */
  lemma SocketStepTagged(b: ToolBridge.Bridge, s: ServerState, msg: Msg, w: World)
    ensures var r := SocketStep(b, s, msg, w).0;
      (Payload(msg).Raised? ==> r.None?) && (r.Some? ==> r.value.id == RequestId(msg, w.freshId))
  {
  }

  /** A frame on a route that reads no state gets the `SocketRead` reply,
      under its request id. */
  lemma SocketStepReads(b: ToolBridge.Bridge, s: ServerState, msg: Msg, w: World)
    requires Payload(msg).Ok?
    requires var route := SocketRoute(Get(msg, "scope"));
      !(route.Agents? || route.Session? || route.Memory? || route.Resurrect?)
    ensures var a := SocketRead(b, msg, w, Payload(msg).value);
      SocketStep(b, s, msg, w).0 == if a.Some? then Some(SocketReply(RequestId(msg, w.freshId), a.value.0, a.value.1)) else None
  {
    assert SocketResult(b, s, msg, w, Payload(msg).value).0 == SocketRead(b, msg, w, Payload(msg).value);
  }

  lemma SocketStepFixed(b: ToolBridge.Bridge, s: ServerState, msg: Msg, w: World)
    requires Payload(msg).Ok?
    ensures SocketFixed(b, msg, w, SocketRoute(Get(msg, "scope")), Payload(msg).value, RequestId(msg, w.freshId),
                        SocketStep(b, s, msg, w).0)
  {
    var route := SocketRoute(Get(msg, "scope"));
    if route == Tools {
      SocketFixedTools(b, s, msg, w);
    } else if route == ConfigReadResult {
      SocketFixedConfig(b, s, msg, w);
    } else if route == Unknown || route == Handshake || route == Generic {
      SocketFixedOther(b, s, msg, w);
    }
  }

  lemma SocketFixedTools(b: ToolBridge.Bridge, s: ServerState, msg: Msg, w: World)
    requires Payload(msg).Ok? && SocketRoute(Get(msg, "scope")) == Tools
    ensures SocketFixed(b, msg, w, Tools, Payload(msg).value, RequestId(msg, w.freshId), SocketStep(b, s, msg, w).0)
  {
    SocketStepReads(b, s, msg, w);
  }

  lemma SocketFixedConfig(b: ToolBridge.Bridge, s: ServerState, msg: Msg, w: World)
    requires Payload(msg).Ok? && SocketRoute(Get(msg, "scope")) == ConfigReadResult
    ensures SocketFixed(b, msg, w, ConfigReadResult, Payload(msg).value, RequestId(msg, w.freshId), SocketStep(b, s, msg, w).0)
  {
    SocketStepReads(b, s, msg, w);
  }

  lemma SocketFixedOther(b: ToolBridge.Bridge, s: ServerState, msg: Msg, w: World)
    requires Payload(msg).Ok?
    requires var route := SocketRoute(Get(msg, "scope")); route == Unknown || route == Handshake || route == Generic
    ensures SocketFixed(b, msg, w, SocketRoute(Get(msg, "scope")), Payload(msg).value, RequestId(msg, w.freshId),
                        SocketStep(b, s, msg, w).0)
  {
    SocketStepReads(b, s, msg, w);
  }

  lemma SocketStepListed(b: ToolBridge.Bridge, s: ServerState, msg: Msg, w: World)
    requires Payload(msg).Ok?
    ensures SocketListed(msg, w, SocketRoute(Get(msg, "scope")), Payload(msg).value, RequestId(msg, w.freshId),
                         SocketStep(b, s, msg, w).0)
  {
    var route := SocketRoute(Get(msg, "scope"));
    if route == Agents {
      SocketListedAgents(b, s, msg, w);
    } else if route == Resurrect {
      SocketListedResurrect(b, s, msg, w);
    } else if route == Voice {
      SocketListedVoice(b, s, msg, w);
    } else {
      SocketListedOther(b, s, msg, w);
    }
  }

  lemma SocketListedAgents(b: ToolBridge.Bridge, s: ServerState, msg: Msg, w: World)
    requires Payload(msg).Ok? && SocketRoute(Get(msg, "scope")) == Agents
    ensures SocketListed(msg, w, Agents, Payload(msg).value, RequestId(msg, w.freshId), SocketStep(b, s, msg, w).0)
  {
    var p := Payload(msg).value;
    SocketStepCache(b, s, msg, w);
    if AgentsFramed(msg) && Get(msg, "scope") == JStr("agents.list") {
      AgentsListAnswered(s, SocketWorkspace(msg, p), w);
    }
  }

  lemma SocketListedResurrect(b: ToolBridge.Bridge, s: ServerState, msg: Msg, w: World)
    requires Payload(msg).Ok? && SocketRoute(Get(msg, "scope")) == Resurrect
    ensures SocketListed(msg, w, Resurrect, Payload(msg).value, RequestId(msg, w.freshId), SocketStep(b, s, msg, w).0)
  {
    var p := Payload(msg).value;
    assert SocketResult(b, s, msg, w, p) == SocketWrite(s, msg, w, p);
  }

  lemma SocketListedVoice(b: ToolBridge.Bridge, s: ServerState, msg: Msg, w: World)
    requires Payload(msg).Ok? && SocketRoute(Get(msg, "scope")) == Voice
    ensures SocketListed(msg, w, Voice, Payload(msg).value, RequestId(msg, w.freshId), SocketStep(b, s, msg, w).0)
  {
    var p := Payload(msg).value;
    assert SocketResult(b, s, msg, w, p) == (SocketRead(b, msg, w, p), s);
  }

  lemma SocketListedOther(b: ToolBridge.Bridge, s: ServerState, msg: Msg, w: World)
    requires Payload(msg).Ok?
    requires SocketRoute(Get(msg, "scope")) !in {Agents, Resurrect, Voice}
    ensures SocketListed(msg, w, SocketRoute(Get(msg, "scope")), Payload(msg).value, RequestId(msg, w.freshId),
                         SocketStep(b, s, msg, w).0)
  {
    var p := Payload(msg).value;
    var route := SocketRoute(Get(msg, "scope"));
    if route == ResourcesList || route == ResourcesHealth {
      assert SocketResult(b, s, msg, w, p) == (SocketRead(b, msg, w, p), s);
    }
  }

  /** What one socket frame does to the state: a frame that does not parse
      changes nothing; the templates never change; the tools cache only on a
      well-framed "agents.list", as the cache lookup leaves it, and that
      frame's reply is the body `_handle_agents` gives in this state; the
      rows only on session and memory frames, as those handlers leave them,
      even when the memory handler raises; the active personas only on
      "agents.resurrect", and then only back to a template. */
  lemma SocketStepEffects(b: ToolBridge.Bridge, s: ServerState, msg: Msg, w: World)
    ensures Payload(msg).Raised? ==> SocketStep(b, s, msg, w).1 == s
    ensures SocketStep(b, s, msg, w).1.templates == s.templates
    ensures SocketStep(b, s, msg, w).1.cache ==
      if Payload(msg).Ok? && Get(msg, "scope") == JStr("agents.list") && AgentsFramed(msg)
      then CacheLookup(s.cache, w.now, w.services).0 else s.cache
    ensures Payload(msg).Ok? && SocketRoute(Get(msg, "scope")) == Agents && AgentsFramed(msg) ==>
      var o := AgentsOutcome(s, Get(msg, "scope"), SocketWorkspace(msg, Payload(msg).value), w);
      SocketStep(b, s, msg, w) == (Some(SocketReply(RequestId(msg, w.freshId), true, WithBody(o.0))), s.(cache := o.1))
    ensures Payload(msg).Ok? && SocketRoute(Get(msg, "scope")) == Memory ==>
      SocketStep(b, s, msg, w).1.rows == MemoryPlan(s.rows, Payload(msg).value, w).rows
    ensures Payload(msg).Ok? && SocketRoute(Get(msg, "scope")) == Route.Session ==>
      var o := SessionOutcome(s.rows, s.states, Payload(msg).value, w);
      SocketStep(b, s, msg, w) ==
        (if o.0.Raised? then None else Some(SocketReply(RequestId(msg, w.freshId), ResultOk(o.0.value), WithBody(o.0.value))),
         s.(rows := o.1))
    ensures SocketRoute(Get(msg, "scope")) != Route.Session && SocketRoute(Get(msg, "scope")) != Memory ==>
      SocketStep(b, s, msg, w).1.rows == s.rows
    ensures SocketRoute(Get(msg, "scope")) != Resurrect ==> SocketStep(b, s, msg, w).1.states == s.states
    ensures forall k :: Lookup(SocketStep(b, s, msg, w).1.states, k) in {Lookup(s.states, k), Lookup(s.templates, k)}
  {
    SocketStepCache(b, s, msg, w);
    SocketStepRows(b, s, msg, w);
    SocketStepStates(b, s, msg, w);
  }

  /** The rows clauses of `SocketStepEffects`. */
  lemma SocketStepRows(b: ToolBridge.Bridge, s: ServerState, msg: Msg, w: World)
    ensures Payload(msg).Ok? && SocketRoute(Get(msg, "scope")) == Memory ==>
      SocketStep(b, s, msg, w).1.rows == MemoryPlan(s.rows, Payload(msg).value, w).rows
    ensures Payload(msg).Ok? && SocketRoute(Get(msg, "scope")) == Route.Session ==>
      var o := SessionOutcome(s.rows, s.states, Payload(msg).value, w);
      SocketStep(b, s, msg, w) ==
        (if o.0.Raised? then None else Some(SocketReply(RequestId(msg, w.freshId), ResultOk(o.0.value), WithBody(o.0.value))),
         s.(rows := o.1))
    ensures SocketRoute(Get(msg, "scope")) != Route.Session && SocketRoute(Get(msg, "scope")) != Memory ==>
      SocketStep(b, s, msg, w).1.rows == s.rows
  {
    if Payload(msg).Ok? {
      var p := Payload(msg).value;
      var route := SocketRoute(Get(msg, "scope"));
      if route.Session? || route.Memory? {
        assert SocketResult(b, s, msg, w, p) == SocketWrite(s, msg, w, p);
      }
    }
  }

  /** The parse, templates and active personas clauses of `SocketStepEffects`. */
  lemma SocketStepStates(b: ToolBridge.Bridge, s: ServerState, msg: Msg, w: World)
    ensures Payload(msg).Raised? ==> SocketStep(b, s, msg, w).1 == s
    ensures SocketStep(b, s, msg, w).1.templates == s.templates
    ensures SocketRoute(Get(msg, "scope")) != Resurrect ==> SocketStep(b, s, msg, w).1.states == s.states
    ensures forall k :: Lookup(SocketStep(b, s, msg, w).1.states, k) in {Lookup(s.states, k), Lookup(s.templates, k)}
  {
    if Payload(msg).Ok? {
      var p := Payload(msg).value;
      var route := SocketRoute(Get(msg, "scope"));
      if route == Resurrect && ResurrectFramed(msg) {
        assert SocketResult(b, s, msg, w, p) == SocketWrite(s, msg, w, p);
        var pid := SocketPersona(msg, p);
        forall k ensures Lookup(ResetOutcome(s.templates, s.states, pid).1, k) in {Lookup(s.states, k), Lookup(s.templates, k)} {
          ResetRestoresTemplate(s.templates, s.states, pid, k);
        }
      }
    }
  }

  /** The cache and agents clauses of `SocketStepEffects`. */
  lemma SocketStepCache(b: ToolBridge.Bridge, s: ServerState, msg: Msg, w: World)
    ensures SocketStep(b, s, msg, w).1.cache ==
      if Payload(msg).Ok? && Get(msg, "scope") == JStr("agents.list") && AgentsFramed(msg)
      then CacheLookup(s.cache, w.now, w.services).0 else s.cache
    ensures Payload(msg).Ok? && SocketRoute(Get(msg, "scope")) == Agents && AgentsFramed(msg) ==>
      var o := AgentsOutcome(s, Get(msg, "scope"), SocketWorkspace(msg, Payload(msg).value), w);
      SocketStep(b, s, msg, w) == (Some(SocketReply(RequestId(msg, w.freshId), true, WithBody(o.0))), s.(cache := o.1))
    ensures Payload(msg).Ok? && SocketRoute(Get(msg, "scope")) == Agents && !AgentsFramed(msg) ==>
      SocketStep(b, s, msg, w) == (None, s)
  {
    if Payload(msg).Ok? {
      var p := Payload(msg).value;
      var route := SocketRoute(Get(msg, "scope"));
      if Get(msg, "scope") == JStr("agents.list") {
        AgentsScopesRoute("agents.list");
      }
      if route == Agents {
        assert SocketResult(b, s, msg, w, p) == SocketWrite(s, msg, w, p);
      }
    }
  }

  /** `trace` lists the states a run of `mcp_socket` passes through: the
      frames answered in order, each in the state the frame before it left,
      and, when `closed`, the frame after the last reply, which raised outside
      the handlers and ended the connection, keeping what its handler had
      already changed. */
  ghost predicate SocketTrace(b: ToolBridge.Bridge, frames: seq<(Msg, World)>, replies: seq<SocketReply>, closed: bool,
                              trace: seq<ServerState>)
  {
    var n := |replies|;
    (if closed then n < |frames| && |trace| == n + 2 else n == |frames| && |trace| == n + 1)
    && (forall i {:trigger SocketStep(b, trace[i], frames[i].0, frames[i].1)} ::
          0 <= i < n ==> SocketStep(b, trace[i], frames[i].0, frames[i].1) == (Some(replies[i]), trace[i + 1]))
    && (closed ==> SocketStep(b, trace[n], frames[n].0, frames[n].1) == (None, trace[n + 1]))
  }

  /** One more frame answered extends a socket trace by its reply and the
      state it leaves; a frame that raises closes it. */
  lemma SocketTraceGrows(b: ToolBridge.Bridge, frames: seq<(Msg, World)>, replies: seq<SocketReply>,
                         trace: seq<ServerState>, r: Option<SocketReply>, after: ServerState)
    requires |replies| < |frames| && |trace| == |replies| + 1
    requires forall k {:trigger SocketStep(b, trace[k], frames[k].0, frames[k].1)} ::
      0 <= k < |replies| ==> SocketStep(b, trace[k], frames[k].0, frames[k].1) == (Some(replies[k]), trace[k + 1])
    requires SocketStep(b, trace[|replies|], frames[|replies|].0, frames[|replies|].1) == (r, after)
    ensures r.None? ==> SocketTrace(b, frames, replies, true, trace + [after])
    ensures r.Some? ==> forall k {:trigger SocketStep(b, (trace + [after])[k], frames[k].0, frames[k].1)} ::
      0 <= k < |replies| + 1 ==>
        SocketStep(b, (trace + [after])[k], frames[k].0, frames[k].1) == (Some((replies + [r.value])[k]), (trace + [after])[k + 1])
  {
    var t := trace + [after];
    assert forall k :: 0 <= k < |trace| ==> t[k] == trace[k];
  }

  /** `mcp_socket` answers the frames in order, each as `SocketAnswers` says,
      until the first frame that raises, which gets no reply; it never changes
      a persona template. */
  lemma SocketTraceAnswers(b: ToolBridge.Bridge, frames: seq<(Msg, World)>, replies: seq<SocketReply>, closed: bool,
                           trace: seq<ServerState>)
    requires SocketTrace(b, frames, replies, closed, trace)
    ensures forall i :: 0 <= i < |replies| ==> SocketAnswers(b, frames[i].0, frames[i].1, Some(replies[i]))
    ensures closed ==> SocketAnswers(b, frames[|replies|].0, frames[|replies|].1, None)
    ensures trace[|trace| - 1].templates == trace[0].templates
  {
    var n := |trace| - 1;
    forall i | 0 <= i < n
      ensures trace[i + 1].templates == trace[i].templates
      ensures i < |replies| ==> SocketAnswers(b, frames[i].0, frames[i].1, Some(replies[i]))
      ensures i == |replies| ==> SocketAnswers(b, frames[i].0, frames[i].1, None)
    {
      if i < |replies| {
        assert SocketStep(b, trace[i], frames[i].0, frames[i].1) == (Some(replies[i]), trace[i + 1]);
      }
      SocketStepAnswers(b, trace[i], frames[i].0, frames[i].1);
      SocketStepStates(b, trace[i], frames[i].0, frames[i].1);
    }
    KeptAlong(trace, n, (s: ServerState) => s.templates);
  }

  /** A socket frame other than "agents.list" leaves the tools cache alone. */
  lemma SocketStepKeepsCache(b: ToolBridge.Bridge, s: ServerState, msg: Msg, w: World)
    requires Get(msg, "scope") != JStr("agents.list")
    ensures SocketStep(b, s, msg, w).1.cache == s.cache
  {
  }

  /** A connection none of whose frames is "agents.list" leaves the tools
      listing cache as it found it. */
  lemma SocketTraceKeepsCache(b: ToolBridge.Bridge, frames: seq<(Msg, World)>, replies: seq<SocketReply>, closed: bool,
                              trace: seq<ServerState>)
    requires SocketTrace(b, frames, replies, closed, trace)
    requires forall i :: 0 <= i < |frames| ==> Get(frames[i].0, "scope") != JStr("agents.list")
    ensures trace[|trace| - 1].cache == trace[0].cache
  {
    var n := |trace| - 1;
    forall i | 0 <= i < n
      ensures trace[i + 1].cache == trace[i].cache
    {
      SocketTraceStep(b, frames, replies, closed, trace, i);
      SocketStepKeepsCache(b, trace[i], frames[i].0, frames[i].1);
    }
    KeptAlong(trace, n, (s: ServerState) => s.cache);
  }

  /** Each state of a socket trace after the first is the one the frame
      before it left. */
  lemma SocketTraceStep(b: ToolBridge.Bridge, frames: seq<(Msg, World)>, replies: seq<SocketReply>, closed: bool,
                        trace: seq<ServerState>, i: nat)
    requires SocketTrace(b, frames, replies, closed, trace)
    requires i < |trace| - 1
    ensures i < |frames| && SocketStep(b, trace[i], frames[i].0, frames[i].1).1 == trace[i + 1]
  {
    if i < |replies| {
      assert SocketStep(b, trace[i], frames[i].0, frames[i].1) == (Some(replies[i]), trace[i + 1]);
    }
  }

  // ---- the server ---------------------------------------------------------------------

  class Server {
    const bridge: ToolBridge.Bridge
    const store: SessionStore
    const personas: Personas.PersonaManager
    var toolsCache: ToolsCache

    ghost predicate Valid()
      reads this, store, personas
    {
      store.Valid() && personas.Valid()
    }

    /** The state the server keeps between frames. */
    ghost function Current(): ServerState
      reads this, store, personas
    {
      ServerState(store.rows, personas.personas, personas.activeStates, toolsCache)
    }

    constructor(bridge: ToolBridge.Bridge, store: SessionStore, personas: Personas.PersonaManager)
      ensures this.bridge == bridge && this.store == store && this.personas == personas
      ensures toolsCache == ToolsCache(None, 0)
    {
      this.bridge := bridge;
      this.store := store;
      this.personas := personas;
      toolsCache := ToolsCache(None, 0);
    }

    /** `_tools_list_cached`, with the service listing as a parameter. */
    method ToolsListCached(now: int, services: seq<Json>) returns (tools: seq<Json>)
      modifies this
      ensures (toolsCache, tools) == CacheLookup(old(toolsCache), now, services)
    {
      if toolsCache.entries.Some? && now - toolsCache.ts < ToolsTtl {
        return toolsCache.entries.value;
      }
      toolsCache := ToolsCache(Some(services), now);
      tools := services;
    }

    /** `_assign_session_host`: the host and model chosen, written to the row. */
    method AssignSessionHost(workspaceId: string, threadId: string, w: World)
      returns (host: Option<string>, model: Option<string>)
      requires store.Valid()
      modifies store
      ensures store.Valid()
      ensures host == HostChoice(w.lmHosts, w.hostHealth)
      ensures model == if host.Some? then ModelChoice(w.modelCatalog, host.value) else None
      ensures store.rows == HostAssigned(old(store.rows), Key(workspaceId, threadId), w)
    {
      var values := StripHosts(w.lmHosts);
      if values == [] {
        return None, None;
      }
      var first := FirstHealthy(values, w.hostHealth);
      var choice := if first.Some? then values[first.value] else values[0];
      model := ModelChoice(w.modelCatalog, choice);
      var _ := store.SetHost(workspaceId, threadId, Some(choice), model, w.now);
      host := Some(choice);
    }

    /** `_ensure_session_collection`: the collection obtained, recorded on the
        row when non-empty. */
    method EnsureSessionCollection(workspaceId: string, threadId: string, w: World) returns (id: Option<string>)
      requires store.Valid()
      modifies store
      ensures store.Valid()
      ensures id == CollectionObtained(w)
      ensures store.rows == CollectionLinked(old(store.rows), Key(workspaceId, threadId), w)
    {
      if !w.chromaAvailable || w.collectionName == "" {
        return None;
      }
      id := EnsureReply(w, w.collectionName);
      if Filled(id) {
        var _ := store.SetCollection(workspaceId, threadId, w.collectionName, id.value, w.now);
      }
    }

    /** `_handle_session`: create or resume a session. */
    method HandleSession(msg: Msg, w: World) returns (res: Attempt<Json>)
      requires Valid()
      modifies store
      ensures Valid()
      ensures (res, store.rows) == SessionOutcome(old(store.rows), personas.activeStates, msg, w)
    {
      var action := Get(msg, "action");
      var workspaceId := WorkspaceOf(msg);
      if action == JStr("create") {
        var requested := RequestedPersona(msg);
        if requested.Raised? {
          return Raised(requested.message);
        }
        var personaId := CreatePersona(personas.activeStates, requested.value);
        var persona := personas.Get(personaId, false);
        var threadId := CreatedThread(msg, w.clockMs);
        store.UpsertSession(workspaceId, threadId, OptText(Get(msg, "conversation_id")), OptText(Get(msg, "user_id")),
                            Some(personaId), w.now);
        var _, _ := AssignSessionHost(workspaceId, threadId, w);
        var _ := EnsureSessionCollection(workspaceId, threadId, w);
        var session := store.GetSession(workspaceId, threadId);
        res := Ok(JObj([("ok", JBool(true)), ("thread_id", JStr(threadId)),
                        ("session", if session.Some? then SessionJson(session.value) else JNull),
                        ("persona", JObj(if persona.Some? then persona.value else []))]));
      } else if action == JStr("resume") {
        var thread := Get(msg, "thread_id");
        if !Truthy(thread) {
          return Ok(Failure("thread_id_required"));
        }
        var threadId := PyStr(thread);
        var row := store.GetSession(workspaceId, threadId);
        var found := row.Some?;
        if row.Some? {
          store.TouchSession(workspaceId, threadId, w.now);
          if !Filled(row.value.hostUrl) {
            var _, _ := AssignSessionHost(workspaceId, threadId, w);
            row := store.GetSession(workspaceId, threadId);
          }
          if row.Some? && !Filled(row.value.collectionId) {
            var _ := EnsureSessionCollection(workspaceId, threadId, w);
            row := store.GetSession(workspaceId, threadId);
          }
        }
        res := Ok(JObj([("ok", JBool(found)), ("session", if row.Some? then SessionJson(row.value) else JNull)]));
      } else {
        res := Ok(Failure("unknown_session_action"));
      }
    }

    /** `_handle_memory`, as `MemoryPlan` states it. */
    method HandleMemory(msg: Msg, w: World) returns (res: Attempt<Json>, call: Option<UpsertCall>)
      requires Valid()
      modifies store
      ensures Valid()
      ensures var o := MemoryPlan(old(store.rows), msg, w);
        res == o.reply && call == o.call && store.rows == o.rows
    {
      var o := MemoryPlan(store.rows, msg, w);
      if !w.upsertAllowed || !w.chromaAvailable || !Truthy(Get(msg, "thread_id")) {
        return o.reply, None;
      }
      var key := MemoryKey(msg);
      var session := store.GetSession(key.workspaceId, key.threadId);
      if session.None? {
        return o.reply, None;
      }
      var row := session.value;
      var name := MemoryCollectionName(row, w);
      var id := row.collectionId;
      if !Filled(id) {
        id := EnsureReply(w, name);
        if !Filled(id) {
          return o.reply, None;
        }
        var _ := store.SetCollection(key.workspaceId, key.threadId, name, id.value, w.now);
      }
      res, call := o.reply, o.call;
    }

    /** `_handle_agents(scope, workspace_id)`. */
    method AgentsBody(scope: Json, ws: Json, w: World) returns (body: Json)
      modifies this
      ensures (body, toolsCache) == AgentsOutcome(old(Current()), scope, ws, w)
    {
      if scope == JStr("agents.list") {
        var ids := SortStrings(Keys(personas.ListPersonas()));
        var tools := ToolsListCached(w.now, w.services);
        body := AgentsListBody(ws, ids, tools);
      } else {
        body := AgentsOtherBody(scope, ws);
      }
    }

    /** `persona_manager.reset(str(pid))` guarded by `bool(pid)`. */
    method Resurrect(pid: Json) returns (ok: bool)
      requires Valid()
      modifies personas
      ensures Valid()
      ensures ok <==> Truthy(pid) && HasKey(personas.personas, PyStr(pid))
      ensures personas.personas == old(personas.personas)
      ensures (ok, personas.activeStates) == ResetOutcome(old(personas.personas), old(personas.activeStates), pid)
    {
      if !Truthy(pid) {
        return false;
      }
      ok := personas.Reset(PyStr(pid));
    }

    /** One iteration of `handle`: dispatch on the scope, turn an exception
        into an error result, and reply with id, scope, result and time. */
    method HandleFrame(msg: Msg, w: World) returns (reply: HandleReply)
      requires Valid()
      modifies this, store, personas
      ensures Valid()
      ensures (reply, Current()) == HandleStep(bridge, old(Current()), msg, w)
      ensures Answers(bridge, msg, w, reply)
    {
      ghost var s0 := Current();
      var scope := Get(msg, "scope");
      var res: Json;
      match HandleRoute(scope) {
        case ToolsList =>
          var tools := ToolsListCached(w.now, w.services);
          res := JObj([("ok", JBool(true)), ("tools", JArr(tools))]);
        case Agents =>
          var body := AgentsBody(scope, Get(msg, "workspace_id"), w);
          res := OkBody(body);
        case Session =>
          var r := HandleSession(msg, w);
          res := Answered(r);
        case Memory =>
          var r, _ := HandleMemory(msg, w);
          res := Answered(r);
        case Resurrect =>
          var direct := Get(msg, "persona_id");
          var pid := if Truthy(direct) then Ok(direct) else GetAttr(Body(msg), "persona_id");
          if pid.Raised? {
            res := Failure(pid.message);
          } else {
            var ok := Resurrect(pid.value);
            res := ResurrectJson(pid.value, ok);
          }
        case _ =>
          res := HandleRead(bridge, msg, w);
      }
      reply := HandleReply(RequestId(msg, w.freshId), scope, res, w.now);
      HandleStepEffects(bridge, s0, msg, w);
    }

    /** `handle`: exactly one reply per frame, in order, each frame handled
        in the state the previous one left. */
    method Handle(frames: seq<(Msg, World)>) returns (replies: seq<HandleReply>, ghost trace: seq<ServerState>)
      requires Valid()
      modifies this, store, personas
      ensures Valid()
      ensures HandleTrace(bridge, frames, replies, trace) && trace[0] == old(Current()) && trace[|frames|] == Current()
      ensures |replies| == |frames|
      ensures forall i :: 0 <= i < |frames| ==> Answers(bridge, frames[i].0, frames[i].1, replies[i])
    {
      replies, trace := [], [Current()];
      var i := 0;
      while i < |frames|
        invariant 0 <= i <= |frames| && |replies| == i && |trace| == i + 1
        invariant Valid()
        invariant trace[0] == old(Current()) && trace[i] == Current()
        invariant forall k {:trigger HandleStep(bridge, trace[k], frames[k].0, frames[k].1)} ::
          0 <= k < i ==> HandleStep(bridge, trace[k], frames[k].0, frames[k].1) == (replies[k], trace[k + 1])
      {
        var r := HandleFrame(frames[i].0, frames[i].1);
        replies, trace := replies + [r], trace + [Current()];
        i := i + 1;
      }
      HandleTraceAnswers(bridge, frames, replies, trace);
    }

    /** One iteration of `mcp_socket`; None when the frame raises outside any
        handler, which ends the connection. */
    method SocketFrame(msg: Msg, w: World) returns (reply: Option<SocketReply>)
      requires Valid()
      modifies this, store, personas
      ensures Valid()
      ensures (reply, Current()) == SocketStep(bridge, old(Current()), msg, w)
      ensures SocketAnswers(bridge, msg, w, reply)
    {
      SocketStepAnswers(bridge, Current(), msg, w);
      var payload := Payload(msg);
      if payload.Raised? {
        return None;
      }
      var answer := SocketBranch(msg, w, payload.value);
      reply := if answer.Some? then Some(SocketReply(RequestId(msg, w.freshId), answer.value.0, answer.value.1)) else None;
    }

    /** The "agents." branch of `mcp_socket`. */
    method SocketAgents(msg: Msg, w: World, p: Msg) returns (answer: Option<(bool, Content)>)
      requires Valid()
      requires SocketRoute(Get(msg, "scope")) == Agents
      modifies this
      ensures Valid()
      ensures (answer, Current()) == SocketWrite(old(Current()), msg, w, p)
    {
      var headers := Headers(msg);
      var body := Body(msg);
      if !headers.JObj? {
        return None;
      }
      var ws := Get(headers.fields, "workspace_id");
      if !Truthy(ws) {
        if !body.JObj? {
          return None;
        }
        ws := PyOr(Get(body.fields, "workspace_id"), Get(p, "workspace_id"));
      }
      var listing := AgentsBody(Get(msg, "scope"), ws, w);
      answer := Some((true, WithBody(listing)));
    }

    /** The "session." branch of `mcp_socket`: an exception of the handler
        closes the connection. */
    method SocketSession(msg: Msg, w: World, p: Msg) returns (answer: Option<(bool, Content)>)
      requires Valid()
      requires SocketRoute(Get(msg, "scope")) == Route.Session
      modifies store
      ensures Valid()
      ensures (answer, Current()) == SocketWrite(old(Current()), msg, w, p)
    {
      var r := HandleSession(p, w);
      if r.Raised? {
        return None;
      }
      answer := Some((ResultOk(r.value), WithBody(r.value)));
    }

    /** The "memory." branch of `mcp_socket`: an exception of the handler
        closes the connection. */
    method SocketMemory(msg: Msg, w: World, p: Msg) returns (answer: Option<(bool, Content)>)
      requires Valid()
      requires SocketRoute(Get(msg, "scope")) == Memory
      modifies store
      ensures Valid()
      ensures (answer, Current()) == SocketWrite(old(Current()), msg, w, p)
    {
      var r, _ := HandleMemory(p, w);
      if r.Raised? {
        return None;
      }
      answer := Some((MemoryOk(r.value), WithBody(r.value)));
    }

    /** The "agents.resurrect" branch of `mcp_socket`. */
    method SocketResurrect(msg: Msg, w: World, p: Msg) returns (answer: Option<(bool, Content)>)
      requires Valid()
      requires SocketRoute(Get(msg, "scope")) == Route.Resurrect
      modifies personas
      ensures Valid()
      ensures (answer, Current()) == SocketWrite(old(Current()), msg, w, p)
    {
      var headers := Headers(msg);
      var body := Body(msg);
      if !headers.JObj? || !body.JObj? {
        return None;
      }
      var pid := PyOr(PyOr(Get(body.fields, "persona_id"), Get(p, "persona_id")), Get(headers.fields, "persona_id"));
      var ok := Resurrect(pid);
      answer := Some((ok, WithBody(ResetBody(pid, ok))));
    }

    /** The branch of `mcp_socket` a parsed frame takes: the reply's ok and
        content, or None when the branch raises. */
    method SocketBranch(msg: Msg, w: World, p: Msg) returns (answer: Option<(bool, Content)>)
      requires Valid()
      modifies this, store, personas
      ensures Valid()
      ensures (answer, Current()) == SocketResult(bridge, old(Current()), msg, w, p)
    {
      match SocketRoute(Get(msg, "scope")) {
        case Agents =>
          answer := SocketAgents(msg, w, p);
          assert SocketResult(bridge, old(Current()), msg, w, p) == SocketWrite(old(Current()), msg, w, p);
        case Session =>
          answer := SocketSession(msg, w, p);
          assert SocketResult(bridge, old(Current()), msg, w, p) == SocketWrite(old(Current()), msg, w, p);
        case Memory =>
          answer := SocketMemory(msg, w, p);
          assert SocketResult(bridge, old(Current()), msg, w, p) == SocketWrite(old(Current()), msg, w, p);
        case Resurrect =>
          answer := SocketResurrect(msg, w, p);
          assert SocketResult(bridge, old(Current()), msg, w, p) == SocketWrite(old(Current()), msg, w, p);
        case _ =>
          answer := SocketRead(bridge, msg, w, p);
      }
    }

    /** `mcp_socket`: one reply per frame, in order, until a frame raises
        outside the handlers and the connection closes. */
    method Serve(frames: seq<(Msg, World)>) returns (replies: seq<SocketReply>, closed: bool, ghost trace: seq<ServerState>)
      requires Valid()
      modifies this, store, personas
      ensures Valid()
      ensures SocketTrace(bridge, frames, replies, closed, trace) && trace[0] == old(Current())
      ensures trace[|trace| - 1] == Current()
      ensures closed <==> |replies| < |frames|
      ensures |replies| <= |frames|
      ensures forall i :: 0 <= i < |replies| ==> SocketAnswers(bridge, frames[i].0, frames[i].1, Some(replies[i]))
      ensures closed ==> SocketAnswers(bridge, frames[|replies|].0, frames[|replies|].1, None)
    {
      replies, closed, trace := ServeFrames(frames);
      SocketTraceAnswers(bridge, frames, replies, closed, trace);
    }

    /** The loop of `mcp_socket`. */
    method ServeFrames(frames: seq<(Msg, World)>)
      returns (replies: seq<SocketReply>, closed: bool, ghost trace: seq<ServerState>)
      requires Valid()
      modifies this, store, personas
      ensures Valid()
      ensures SocketTrace(bridge, frames, replies, closed, trace) && trace[0] == old(Current())
      ensures trace[|trace| - 1] == Current()
    {
      replies, closed, trace := [], false, [Current()];
      var i := 0;
      while i < |frames|
        invariant 0 <= i <= |frames| && |replies| == i && |trace| == i + 1
        invariant Valid()
        invariant trace[0] == old(Current()) && trace[i] == Current()
        invariant forall k {:trigger SocketStep(bridge, trace[k], frames[k].0, frames[k].1)} ::
          0 <= k < i ==> SocketStep(bridge, trace[k], frames[k].0, frames[k].1) == (Some(replies[k]), trace[k + 1])
      {
        var r := SocketFrame(frames[i].0, frames[i].1);
        SocketTraceGrows(bridge, frames, replies, trace, r, Current());
        trace := trace + [Current()];
        if r.None? {
          return replies, true, trace;
        }
        replies := replies + [r.value];
        i := i + 1;
      }
    }
  }
}
