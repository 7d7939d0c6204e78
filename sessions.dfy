/** The orchestrator's session table: one row per (workspace, thread) pair,
    carrying the conversation it belongs to, the LM host and model it was
    pinned to, its health, its vector collection and two timestamps. The
    SQLite table is modelled as a map from the primary key to the row; the
    clock is a parameter (`now`, whole seconds). */
module Sessions {
  import opened Values

  datatype Key = Key(workspaceId: string, threadId: string)

  datatype Session = Session(
    workspaceId: string,
    threadId: string,
    conversationId: Option<string>,
    userId: Option<string>,
    personaId: Option<string>,
    hostUrl: Option<string>,
    modelId: Option<string>,
    healthState: string,
    collectionId: Option<string>,
    collectionName: Option<string>,
    createdTs: int,
    updatedTs: int)

  type Rows = map<Key, Session>

  /** SQL `COALESCE(a, b)`. */
  function Coalesce<T>(a: Option<T>, b: Option<T>): (r: Option<T>)
    ensures a.Some? ==> r == a
    ensures a.None? ==> r == b
  {
    if a.Some? then a else b
  }

  /** Every row sits under its own primary key. */
  ghost predicate Keyed(rows: Rows)
  {
    forall k :: k in rows ==> rows[k].workspaceId == k.workspaceId && rows[k].threadId == k.threadId
  }

  // ---- the row a statement leaves behind ---------------------------------------

  /** The row `upsert_session` leaves: a fresh row (health "ok", created and
      updated now) when the key is new, else the existing row with each given
      identity field replacing the stored one and the update time refreshed. */
  function Upserted(rows: Rows, key: Key, conv: Option<string>, user: Option<string>,
                    persona: Option<string>, now: int): (s: Session)
    ensures s.workspaceId == key.workspaceId && s.threadId == key.threadId
    ensures s.updatedTs == now
    ensures key !in rows ==> s == Session(key.workspaceId, key.threadId, conv, user, persona,
                                          None, None, "ok", None, None, now, now)
  {
    if key in rows then
      var prior := rows[key];
      prior.(workspaceId := key.workspaceId, threadId := key.threadId,
           conversationId := Coalesce(conv, prior.conversationId),
           userId := Coalesce(user, prior.userId),
           personaId := Coalesce(persona, prior.personaId),
           updatedTs := now)
    else
      Session(key.workspaceId, key.threadId, conv, user, persona, None, None, "ok", None, None, now, now)
  }

  /** A second upsert never forgets an identity field, and never touches the
      host, model, health, collection or creation time of an existing row. */
  lemma UpsertKeepsState(rows: Rows, key: Key, conv: Option<string>, user: Option<string>,
                         persona: Option<string>, now: int)
    requires Keyed(rows) && key in rows
    ensures var s := Upserted(rows, key, conv, user, persona, now); var o := rows[key];
      s == o.(conversationId := s.conversationId, userId := s.userId,
              personaId := s.personaId, updatedTs := now)
      && (o.conversationId.Some? ==> s.conversationId.Some?)
      && (o.userId.Some? ==> s.userId.Some?)
      && (o.personaId.Some? ==> s.personaId.Some?)
      && (conv.Some? ==> s.conversationId == conv)
  {
  }

  /** Repeating the same upsert at the same time changes nothing more. */
  lemma UpsertIdempotent(rows: Rows, key: Key, conv: Option<string>, user: Option<string>,
                         persona: Option<string>, now: int)
    ensures var once := rows[key := Upserted(rows, key, conv, user, persona, now)];
      once[key := Upserted(once, key, conv, user, persona, now)] == once
  {
    var once := rows[key := Upserted(rows, key, conv, user, persona, now)];
    var s := once[key];
    assert Coalesce(conv, s.conversationId) == s.conversationId;
    assert Coalesce(user, s.userId) == s.userId;
    assert Coalesce(persona, s.personaId) == s.personaId;
    assert Upserted(once, key, conv, user, persona, now) == s;
  }

  /** The rows `DELETE ... WHERE updated_ts < cutoff` keeps. */
  function Pruned(rows: Rows, cutoff: int): (r: Rows)
    ensures forall k :: k in r <==> k in rows && rows[k].updatedTs >= cutoff
    ensures forall k :: k in r ==> r[k] == rows[k]
  {
    map k | k in rows && rows[k].updatedTs >= cutoff :: rows[k]
  }

  /** The rows a prune deletes. */
  function Idle(rows: Rows, cutoff: int): set<Key>
  {
    set k | k in rows && rows[k].updatedTs < cutoff
  }

  /** Pruning splits the table: the rows deleted and the rows kept account for
      every row, so the reported count is exactly the number deleted. */
  lemma PrunedCount(rows: Rows, cutoff: int)
    ensures |rows| == |Pruned(rows, cutoff)| + |Idle(rows, cutoff)|
  {
    var kept := Pruned(rows, cutoff).Keys;
    var idle := Idle(rows, cutoff);
    assert rows.Keys == kept + idle;
    assert kept * idle == {};
  }

  /** A row touched at `now` survives any prune whose idle window ends at or
      before `now`. */
  lemma TouchedSurvivesPrune(rows: Rows, key: Key, now: int, ttlMinutes: int, later: int)
    requires key in rows
    requires later - ttlMinutes * 60 <= now
    ensures var touched := rows[key := rows[key].(updatedTs := now)];
      key in Pruned(touched, later - ttlMinutes * 60)
  {
  }

  /** Pruning twice with the same cutoff deletes nothing the second time. */
  lemma PruneIdempotent(rows: Rows, cutoff: int)
    ensures Pruned(Pruned(rows, cutoff), cutoff) == Pruned(rows, cutoff)
    ensures Idle(Pruned(rows, cutoff), cutoff) == {}
  {
  }

  // ---- the table ---------------------------------------------------------------

  class SessionStore {
    var rows: Rows

    ghost predicate Valid()
      reads this
    {
      Keyed(rows)
    }

    constructor()
      ensures Valid() && rows == map[]
    {
      rows := map[];
    }

    /** `upsert_session`: insert the row, or refresh an existing one. */
    method UpsertSession(workspaceId: string, threadId: string, conv: Option<string>,
                         user: Option<string>, persona: Option<string>, now: int)
      requires Valid()
      modifies this
      ensures Valid()
      ensures var key := Key(workspaceId, threadId);
        rows == old(rows)[key := Upserted(old(rows), key, conv, user, persona, now)]
    {
      var key := Key(workspaceId, threadId);
      rows := rows[key := Upserted(rows, key, conv, user, persona, now)];
    }

    /** `touch_session`: refresh the update time of an existing row only. */
    method TouchSession(workspaceId: string, threadId: string, now: int)
      requires Valid()
      modifies this
      ensures Valid()
      ensures var key := Key(workspaceId, threadId);
        rows == if key in old(rows) then old(rows)[key := old(rows)[key].(updatedTs := now)] else old(rows)
    {
      var key := Key(workspaceId, threadId);
      if key in rows {
        rows := rows[key := rows[key].(updatedTs := now)];
      }
    }

    /** `get_session`: the row under the key, if any. */
    function GetSession(workspaceId: string, threadId: string): (r: Option<Session>)
      reads this
      requires Valid()
      ensures r.Some? <==> Key(workspaceId, threadId) in rows
      ensures r.Some? ==> r.value.workspaceId == workspaceId && r.value.threadId == threadId
      ensures r.Some? ==> r.value == rows[Key(workspaceId, threadId)]
    {
      var key := Key(workspaceId, threadId);
      if key in rows then Some(rows[key]) else None
    }

    /** `find_by_conversation`: a most recently updated row of the
        conversation (any one of them when several tie), or None. */
    method FindByConversation(conversationId: string) returns (r: Option<Session>)
      ensures r.None? <==> forall k :: k in rows ==> rows[k].conversationId != Some(conversationId)
      ensures r.Some? ==> (exists k :: k in rows && rows[k] == r.value)
                          && r.value.conversationId == Some(conversationId)
      ensures r.Some? ==> forall k :: k in rows && rows[k].conversationId == Some(conversationId)
                                      ==> rows[k].updatedTs <= r.value.updatedTs
    {
      r := None;
      var todo := rows.Keys;
      while todo != {}
        invariant todo <= rows.Keys
        invariant r.None? ==> forall k :: k in rows.Keys - todo ==> rows[k].conversationId != Some(conversationId)
        invariant r.Some? ==> (exists k :: k in rows && rows[k] == r.value)
                              && r.value.conversationId == Some(conversationId)
        invariant r.Some? ==> forall k :: k in rows.Keys - todo && rows[k].conversationId == Some(conversationId)
                                          ==> rows[k].updatedTs <= r.value.updatedTs
        decreases |todo|
      {
        var k :| k in todo;
        var row := rows[k];
        if row.conversationId == Some(conversationId) && (r.None? || r.value.updatedTs < row.updatedTs) {
          r := Some(row);
        }
        todo := todo - {k};
      }
    }

    /** `set_host`: pin an existing row to a host and model (either may be
        cleared); returns the number of rows updated. */
    method SetHost(workspaceId: string, threadId: string, hostUrl: Option<string>,
                   modelId: Option<string>, now: int) returns (updated: nat)
      requires Valid()
      modifies this
      ensures Valid()
      ensures var key := Key(workspaceId, threadId);
        updated == (if key in old(rows) then 1 else 0)
        && rows == if key in old(rows)
                   then old(rows)[key := old(rows)[key].(hostUrl := hostUrl, modelId := modelId, updatedTs := now)]
                   else old(rows)
    {
      var key := Key(workspaceId, threadId);
      updated := 0;
      if key in rows {
        rows := rows[key := rows[key].(hostUrl := hostUrl, modelId := modelId, updatedTs := now)];
        updated := 1;
      }
    }

    /** `set_health`: record the health of an existing row. */
    method SetHealth(workspaceId: string, threadId: string, healthState: string, now: int)
      returns (updated: nat)
      requires Valid()
      modifies this
      ensures Valid()
      ensures var key := Key(workspaceId, threadId);
        updated == (if key in old(rows) then 1 else 0)
        && rows == if key in old(rows)
                   then old(rows)[key := old(rows)[key].(healthState := healthState, updatedTs := now)]
                   else old(rows)
    {
      var key := Key(workspaceId, threadId);
      updated := 0;
      if key in rows {
        rows := rows[key := rows[key].(healthState := healthState, updatedTs := now)];
        updated := 1;
      }
    }

    /** `set_collection`: record the vector collection of an existing row. */
    method SetCollection(workspaceId: string, threadId: string, name: string, id: string, now: int)
      returns (updated: nat)
      requires Valid()
      modifies this
      ensures Valid()
      ensures var key := Key(workspaceId, threadId);
        updated == (if key in old(rows) then 1 else 0)
        && rows == if key in old(rows)
                   then old(rows)[key := old(rows)[key].(collectionName := Some(name), collectionId := Some(id), updatedTs := now)]
                   else old(rows)
    {
      var key := Key(workspaceId, threadId);
      updated := 0;
      if key in rows {
        rows := rows[key := rows[key].(collectionName := Some(name), collectionId := Some(id), updatedTs := now)];
        updated := 1;
      }
    }

    /** `list_active`: the number of rows. */
    function ListActive(): (n: nat)
      reads this
      ensures n == |rows.Keys|
    {
      |rows.Keys|
    }

    /** `prune_idle`: delete every row not updated within the last
        `ttlMinutes` minutes and return how many were deleted. */
    method PruneIdle(ttlMinutes: int, now: int) returns (count: nat)
      requires Valid()
      modifies this
      ensures Valid()
      ensures rows == Pruned(old(rows), now - ttlMinutes * 60)
      ensures count == |Idle(old(rows), now - ttlMinutes * 60)|
    {
      var cutoff := now - ttlMinutes * 60;
      PrunedCount(rows, cutoff);
      count := |rows| - |Pruned(rows, cutoff)|;
      rows := Pruned(rows, cutoff);
    }
  }

  // ---- schema migration ----------------------------------------------------------

  /** Every column of the table as created. */
  const TableColumns: seq<string> := [
    "workspace_id", "thread_id", "conversation_id", "user_id", "persona_id", "host_url",
    "model_id", "health_state", "chroma_collection_id", "chroma_collection_name",
    "created_ts", "updated_ts"]

  /** The columns added after the first release, with the statement that adds
      each, in the order `_ensure_schema` plans them. */
  const Migrations: seq<(string, string)> := [
    ("host_url", "ALTER TABLE sessions ADD COLUMN host_url TEXT"),
    ("model_id", "ALTER TABLE sessions ADD COLUMN model_id TEXT"),
    ("health_state", "ALTER TABLE sessions ADD COLUMN health_state TEXT DEFAULT 'ok'"),
    ("chroma_collection_id", "ALTER TABLE sessions ADD COLUMN chroma_collection_id TEXT"),
    ("chroma_collection_name", "ALTER TABLE sessions ADD COLUMN chroma_collection_name TEXT")]

  /** `xs` can be obtained from `ys` by deleting entries: it keeps their order. */
  ghost predicate Embeds<T>(xs: seq<T>, ys: seq<T>)
    decreases |ys|
  {
    xs == [] || (ys != [] && ((xs[0] == ys[0] && Embeds(xs[1..], ys[1..])) || Embeds(xs, ys[1..])))
  }

  /** The migrations of `ms` whose column is missing, in order. */
  function PlanFrom(ms: seq<(string, string)>, columns: set<string>): (plan: seq<(string, string)>)
    ensures forall i :: 0 <= i < |plan| ==> plan[i] in ms && plan[i].0 !in columns
    ensures forall m :: m in ms && m.0 !in columns ==> m in plan
    ensures Embeds(plan, ms)
    ensures (forall i, j :: 0 <= i < j < |ms| ==> ms[i] != ms[j]) ==>
              forall i, j :: 0 <= i < j < |plan| ==> plan[i] != plan[j]
    ensures |plan| <= |ms|
  {
    if ms == [] then []
    else
      var rest := PlanFrom(ms[1..], columns);
      if ms[0].0 in columns then rest
      else
        assert ([ms[0]] + rest)[1..] == rest;
        [ms[0]] + rest
  }

  /** The plan of `_ensure_schema` for a table whose columns are `columns`. */
  function Plan(columns: set<string>): seq<(string, string)>
  {
    PlanFrom(Migrations, columns)
  }

  function ColumnsOf(plan: seq<(string, string)>): set<string>
  {
    set i | 0 <= i < |plan| :: plan[i].0
  }

  lemma ColumnsSnoc(plan: seq<(string, string)>)
    requires plan != []
    ensures ColumnsOf(plan) == ColumnsOf(plan[..|plan| - 1]) + {plan[|plan| - 1].0}
  {
    var prev := plan[..|plan| - 1];
    forall c | c in ColumnsOf(plan) ensures c in ColumnsOf(prev) + {plan[|plan| - 1].0} {
      var i :| 0 <= i < |plan| && plan[i].0 == c;
      if i < |prev| { assert prev[i].0 == c; }
    }
    forall c | c in ColumnsOf(prev) ensures c in ColumnsOf(plan) {
      var i :| 0 <= i < |prev| && prev[i].0 == c;
      assert plan[i].0 == c;
    }
  }

  /** The columns whose statement succeeded, in the order they ran. */
  function Applied(plan: seq<(string, string)>, failing: set<string>): (cs: seq<string>)
    ensures forall c :: c in cs <==> c !in failing && c in ColumnsOf(plan)
  {
    if plan == [] then []
    else
      ColumnsSnoc(plan);
      Applied(plan[..|plan| - 1], failing) + (if plan[|plan| - 1].0 in failing then [] else [plan[|plan| - 1].0])
  }

  /** `_ensure_schema`: probe the columns (None when the probe fails, which
      ends the migration), then run each planned statement; a statement can
      fail (its column is in `failing`) without stopping the others. Returns
      the columns afterwards and the columns migrated, in order. */
  method EnsureSchema(probe: Option<set<string>>, failing: set<string>)
    returns (columns: set<string>, migrated: seq<string>)
    ensures probe.None? ==> columns == {} && migrated == []
    ensures probe.Some? ==> migrated == Applied(Plan(probe.value), failing)
                            && columns == probe.value + set c | c in migrated
  {
    if probe.None? {
      return {}, [];
    }
    columns, migrated := RunPlan(Plan(probe.value), probe.value, failing);
  }

  /** The statement loop of `_ensure_schema`: each planned statement runs in
      order, and its column is added unless the statement fails. */
  method RunPlan(plan: seq<(string, string)>, existing: set<string>, failing: set<string>)
    returns (columns: set<string>, migrated: seq<string>)
    ensures migrated == Applied(plan, failing)
    ensures columns == existing + set c | c in migrated
  {
    migrated := [];
    columns := existing;
    var i := 0;
    while i < |plan|
      invariant 0 <= i <= |plan|
      invariant migrated == Applied(plan[..i], failing)
      invariant columns == existing + set c | c in migrated
    {
      assert plan[..i + 1][..i] == plan[..i];
      var (column, sql) := plan[i];
      if column !in failing {
        columns := columns + {column};
        migrated := migrated + [column];
      }
      i := i + 1;
    }
    assert plan[..|plan|] == plan;
  }

  /** A planned column is one of the migrations' columns that is missing. */
  lemma PlanColumns(ms: seq<(string, string)>, columns: set<string>)
    ensures forall c :: c in ColumnsOf(PlanFrom(ms, columns)) <==> c !in columns && c in ColumnsOf(ms)
  {
    var plan := PlanFrom(ms, columns);
    forall c ensures c in ColumnsOf(plan) <==> c !in columns && c in ColumnsOf(ms) {
      if c in ColumnsOf(plan) {
        var i :| 0 <= i < |plan| && plan[i].0 == c;
        var j :| 0 <= j < |ms| && ms[j] == plan[i];
        assert ms[j].0 == c;
      }
      if c !in columns && c in ColumnsOf(ms) {
        var j :| 0 <= j < |ms| && ms[j].0 == c;
        assert ms[j] in plan;
        var i :| 0 <= i < |plan| && plan[i] == ms[j];
        assert plan[i].0 == c;
      }
    }
  }

  /** Each migrated column was missing and is one of the planned migrations;
      every missing column whose statement succeeds is migrated. */
  lemma AppliedIsPlanned(columns: set<string>, failing: set<string>)
    ensures forall c :: c in Applied(Plan(columns), failing) <==>
      c !in columns && c !in failing && c in ColumnsOf(Migrations)
  {
    PlanColumns(Migrations, columns);
  }

  /** A table created by the current statement needs no migration. */
  lemma FreshTableNeedsNoMigration()
    ensures Plan(set c | c in TableColumns) == []
  {
    var cols := set c | c in TableColumns;
    assert TableColumns[5] == "host_url" && TableColumns[6] == "model_id";
    assert TableColumns[7] == "health_state" && TableColumns[8] == "chroma_collection_id";
    assert TableColumns[9] == "chroma_collection_name";
    assert forall m :: m in Migrations ==> m.0 in cols;
    NothingMissing(Migrations, cols);
  }

  /** A plan is empty when no migration's column is missing. */
  lemma NothingMissing(ms: seq<(string, string)>, columns: set<string>)
    requires forall m :: m in ms ==> m.0 in columns
    ensures PlanFrom(ms, columns) == []
  {
    var p := PlanFrom(ms, columns);
    assert |p| == 0 || (p[0] in ms && p[0].0 !in columns);
  }

  /** Once every planned statement succeeded, the next start plans nothing. */
  lemma MigrationConverges(ms: seq<(string, string)>, columns: set<string>)
    ensures PlanFrom(ms, columns + ColumnsOf(PlanFrom(ms, columns))) == []
  {
    var plan := PlanFrom(ms, columns);
    var after := columns + ColumnsOf(plan);
    forall m | m in ms ensures m.0 in after {
      if m.0 !in columns {
        var i :| 0 <= i < |plan| && plan[i] == m;
        assert plan[i].0 in ColumnsOf(plan);
      }
    }
    NothingMissing(ms, after);
  }
}
