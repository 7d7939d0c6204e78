# Cathedral orchestrator — a Dafny model

This project models the core of the Cathedral orchestrator. The orchestrator is a
Home Assistant add-on that sits between chat clients, LM Studio hosts, a Chroma vector
store, Home Assistant services and a voice server. The model also covers the
AnythingLLM bridge skill that keeps the client's `.env` in step with the orchestrator.

The model has one Dafny module per source file:

| module | source file | what it holds |
|---|---|---|
| `Sessions` | `cathedral_orchestrator/orchestrator/sessions.py` | The session table, a class whose `rows` map stands for the SQLite table, plus the schema-migration plan. |
| `Chroma` | `cathedral_orchestrator/orchestrator/vector/chroma_client.py` | The Chroma client, a class holding the name→id cache and the `prefer v2` flag. Health, collection lookup/creation and the retrying upsert are methods proved against reference functions. |
| `Routing` | `cathedral_orchestrator/orchestrator/main.py` | Host-option normalisation, the first-wins model index, routing, the `/v1/models` merge, the embeddings alignment, and the runtime options (a `Settings` class). |
| `ToolBridge` | `cathedral_orchestrator/orchestrator/toolbridge.py` | The tool-name split, the domain allow-list, the service URL and the status classification. |
| `Personas` | `cathedral_orchestrator/orchestrator/__init__.py` | The persona manager (templates and active states) and the voice-request framing with its read loop. |
| `Sse` | `cathedral_orchestrator/orchestrator/sse.py` | The SSE relay transform. |
| `EnvFile` | `clients/anythingllm_agent_skill/cathedral-mpc-bridge/handler.js` | The `.env` reader and writer, the `config.write` merge and the `config.read.result` message. |
| `Mpc`, `MpcServer` | `cathedral_orchestrator/orchestrator/mpc_server.py` | The control-protocol server: the pure frame and scope logic (`Mpc`), and the `Server` class with its per-frame dispatch for both sockets (`MpcServer`). |

`Values`, `Text` and `Bytes` are shared support modules:
- `Values`: JSON values, ordered dictionaries, Python and JavaScript truthiness, and `str()`;
- `Text`: whitespace trimming, splitting and joining;
- `Bytes`: UTF-8 and 4-byte little-endian integers.

JSON objects are ordered association lists, so insertion order and "first key wins"
lookups behave as they do in Python dictionaries. JavaScript objects differ in two ways
that the model does not follow; they are listed under "## Left out".

Everything outside the program reaches the model as a parameter. This covers the clock,
uuids, HTTP replies, SQLite, the voice socket, the provider callbacks and `main.py`'s
module globals. `MpcServer.World` carries one frame's worth of these answers.

## Model

| member | source | states |
|---|---|---|
| Sessions.Coalesce | cathedral_orchestrator/orchestrator/sessions.py:113-117 | `COALESCE(new, old)`: the incoming value when present, else the stored one |
| Sessions.Upserted | cathedral_orchestrator/orchestrator/sessions.py:106-121 | an absent key produces a new row with created = updated = now, health `ok` and null host/model/collection; the row always carries its key and updated = now |
| Sessions.UpsertKeepsState | cathedral_orchestrator/orchestrator/sessions.py:113-117 | on an existing row the merge changes only conversation/user/persona (never erasing a present value) and updated_ts; created_ts, host, model, health and collection are kept |
| Sessions.UpsertIdempotent | cathedral_orchestrator/orchestrator/sessions.py:106-121 | repeating the same upsert at the same time changes nothing further |
| Sessions.Pruned | cathedral_orchestrator/orchestrator/sessions.py:274-299 | exactly the rows with updated_ts ≥ cutoff survive, unchanged |
| Sessions.PrunedCount | cathedral_orchestrator/orchestrator/sessions.py:274-299 | the rows kept and the rows deleted partition the table |
| Sessions.TouchedSurvivesPrune | cathedral_orchestrator/orchestrator/sessions.py:124-131 | a session touched within the TTL is not pruned (a row exactly at the cutoff survives) |
| Sessions.PruneIdempotent | cathedral_orchestrator/orchestrator/sessions.py:274-299 | a second prune at the same cutoff deletes nothing |
| Sessions.SessionStore.constructor | cathedral_orchestrator/orchestrator/sessions.py:14-34 | the table starts empty |
| Sessions.SessionStore.UpsertSession | cathedral_orchestrator/orchestrator/sessions.py:106-121 | only the row of the key changes, to the upserted row; one row per key is kept |
| Sessions.SessionStore.TouchSession | cathedral_orchestrator/orchestrator/sessions.py:124-131 | only updated_ts of an existing row changes; an absent key inserts nothing |
| Sessions.SessionStore.GetSession | cathedral_orchestrator/orchestrator/sessions.py:133-142 | None iff the key is absent, else that key's row |
| Sessions.SessionStore.FindByConversation | cathedral_orchestrator/orchestrator/sessions.py:144-153 | None iff no row has the conversation id, else a row with it and the greatest updated_ts |
| Sessions.SessionStore.SetHost | cathedral_orchestrator/orchestrator/sessions.py:155-191 | writes host and model exactly as given (null too) and updated_ts on the matching row only; reports 1 or 0 rows; never inserts |
| Sessions.SessionStore.SetHealth | cathedral_orchestrator/orchestrator/sessions.py:193-225 | writes health and updated_ts on the matching row only; never inserts |
| Sessions.SessionStore.SetCollection | cathedral_orchestrator/orchestrator/sessions.py:227-260 | writes collection name, id and updated_ts on the matching row only; never inserts |
| Sessions.SessionStore.ListActive | cathedral_orchestrator/orchestrator/sessions.py:262-272 | the number of rows |
| Sessions.SessionStore.PruneIdle | cathedral_orchestrator/orchestrator/sessions.py:274-299 | the table becomes the pruned table at now − ttl·60 and the count is the number of idle rows removed |
| Sessions.PlanFrom | cathedral_orchestrator/orchestrator/sessions.py:56-73 | the plan holds exactly the migrations whose column is missing, as a subsequence of the migration list (so in migration order), and without repeats when the list has none |
| Sessions.Applied | cathedral_orchestrator/orchestrator/sessions.py:78-89 | the migrated columns are the planned ones whose ALTER did not fail |
| Sessions.EnsureSchema | cathedral_orchestrator/orchestrator/sessions.py:40-90 | with no table nothing is migrated; otherwise the columns gain exactly the applied migrations |
| Sessions.RunPlan | cathedral_orchestrator/orchestrator/sessions.py:77-89 | the loop applies each planned ALTER in order; the columns gain exactly those that succeed |
| Sessions.AppliedIsPlanned | cathedral_orchestrator/orchestrator/sessions.py:56-89 | a column is migrated iff it is one of the five migration columns, missing, and its ALTER succeeds |
| Sessions.PlanColumns | cathedral_orchestrator/orchestrator/sessions.py:55-72 | a column is planned iff it is in the migration list and not yet in the table |
| Sessions.FreshTableNeedsNoMigration | cathedral_orchestrator/orchestrator/sessions.py:14-34 | a table made by the initial schema needs no migration |
| Sessions.NothingMissing | cathedral_orchestrator/orchestrator/sessions.py:56-73 | when all columns exist the plan is empty |
| Sessions.MigrationConverges | cathedral_orchestrator/orchestrator/sessions.py:56-89 | after a fully applied plan, a second run plans nothing |
| Chroma.ShouldFallbackExactly | cathedral_orchestrator/orchestrator/vector/chroma_client.py:49-52 | the fallback statuses are exactly 404, 405, 410 and 422 |
| Chroma.BaseUrlOf | cathedral_orchestrator/orchestrator/vector/chroma_client.py:39-41 | the URL with all trailing '/' removed (a prefix followed only by '/') |
| Chroma.TargetName | cathedral_orchestrator/orchestrator/vector/chroma_client.py:93-100 | the stripped collection name carries no surrounding whitespace |
| Chroma.ExtractId | cathedral_orchestrator/orchestrator/vector/chroma_client.py:119-123 | an extracted id is never empty |
| Chroma.IdFrom | cathedral_orchestrator/orchestrator/vector/chroma_client.py:112-179 | an id comes only from a 200 lookup or a 200/201 create reply, and is non-empty |
| Chroma.TryGen | cathedral_orchestrator/orchestrator/vector/chroma_client.py:112-179 | one generation sends the lookup, then the create only when the lookup gave no id |
| Chroma.EnsureSpec | cathedral_orchestrator/orchestrator/vector/chroma_client.py:86-110 | reference definition of `ensure_collection` over the HTTP replies; `EnsureCacheMonotone`, `EnsureResultCached` and `EnsureRequestOrder` state its properties and the method is proved against it |
| Chroma.EnsureCacheMonotone | cathedral_orchestrator/orchestrator/vector/chroma_client.py:102-110 | cache entries stay non-empty, are never removed or changed, and only the target may be added |
| Chroma.EnsureResultCached | cathedral_orchestrator/orchestrator/vector/chroma_client.py:102-110 | a returned id equals the cache entry for the target |
| Chroma.EnsureRequestOrder | cathedral_orchestrator/orchestrator/vector/chroma_client.py:86-110 | no request iff the base or target is empty or the target is cached; otherwise v2 lookup first, and v1 only after v2 gave no id |
| Chroma.UpsertPayload | cathedral_orchestrator/orchestrator/vector/chroma_client.py:205-211 | the payload carries the ids, and an embeddings key iff embeddings were given |
| Chroma.BackoffSchedule | cathedral_orchestrator/orchestrator/vector/chroma_client.py:236 | the sleeps after attempts 1, 2 and 3 are 2, 4 and 5 seconds |
| Chroma.OneAttempt | cathedral_orchestrator/orchestrator/vector/chroma_client.py:221-235 | one or two posts; every post but the last failed; the attempt is done iff its last post got a 2xx |
| Chroma.RetryStepKeeps | cathedral_orchestrator/orchestrator/vector/chroma_client.py:221-236 | one loop turn keeps the retry invariant (sleeps so far follow the schedule) |
| Chroma.RetryTurnsInv | cathedral_orchestrator/orchestrator/vector/chroma_client.py:221-236 | after n turns the invariant holds and the loop has stopped on success or reached attempt min(n+1, 4) |
| Chroma.UpsertBounds | cathedral_orchestrator/orchestrator/vector/chroma_client.py:198-238 | at most six posts; an empty base or id sends nothing; failure means three attempts and sleeps 2, 4, 5; success on attempt k slept the first k−1 of them |
| Chroma.UpsertSpec | cathedral_orchestrator/orchestrator/vector/chroma_client.py:198-238 | reference definition of the retrying upsert over the HTTP replies; `UpsertBounds`, `UpsertStopsAtFirstSuccess`, `UpsertReturns` and `UpsertRetries` state its properties |
| Chroma.UpsertStopsAtFirstSuccess | cathedral_orchestrator/orchestrator/vector/chroma_client.py:221-235 | no post before the last succeeded, and the result is ok iff the last post succeeded |
| Chroma.RetryTurnsSettle | cathedral_orchestrator/orchestrator/vector/chroma_client.py:221-238 | once the loop has stopped, further turns change nothing |
| Chroma.UpsertReturns | cathedral_orchestrator/orchestrator/vector/chroma_client.py:229-230 | a successful attempt ends the loop at once with ok |
| Chroma.UpsertRetries | cathedral_orchestrator/orchestrator/vector/chroma_client.py:228-236 | a failed attempt moves to the next attempt after sleeping Backoff(attempt) |
| Chroma.AllNotFoundOscillates | cathedral_orchestrator/orchestrator/vector/chroma_client.py:221-236 | with every post answered 404, each attempt posts v2 then v1, the flag flips back to v2, and the upsert fails after six posts |
| Chroma.ChromaClient.constructor | cathedral_orchestrator/orchestrator/vector/chroma_client.py:30-35 | an empty cache and a preference for v2 |
| Chroma.ChromaClient.Health | cathedral_orchestrator/orchestrator/vector/chroma_client.py:56-82 | ok iff the base is set and the v2 or v1 heartbeat answered 2xx/3xx; the flag follows the heartbeat that answered and is kept on failure; an empty base sends nothing |
| Chroma.ChromaClient.EnsureGen | cathedral_orchestrator/orchestrator/vector/chroma_client.py:112-179 | caches the id a generation returns and sets the flag to that generation |
| Chroma.ChromaClient.EnsureCollection | cathedral_orchestrator/orchestrator/vector/chroma_client.py:86-110 | result, cache, requests and flag are those of the reference `EnsureSpec` |
| Chroma.ChromaClient.AttemptOnce | cathedral_orchestrator/orchestrator/vector/chroma_client.py:221-235 | one attempt's posts and flag update are those of `OneAttempt` |
| Chroma.ChromaClient.RetryLoop | cathedral_orchestrator/orchestrator/vector/chroma_client.py:221-238 | the loop's result, posts, sleeps and flag are those of three reference turns |
| Chroma.ChromaClient.Upsert | cathedral_orchestrator/orchestrator/vector/chroma_client.py:183-238 | the upsert's result, posts, sleeps and flag are those of `UpsertSpec` on the payload; the cache is unchanged |
| Routing.NormalizeLmHosts | cathedral_orchestrator/orchestrator/main.py:53-61 | a dict keeps its keys in order and a list names its entries `h0`, `h1`, …, one host per entry; a string s gives the single host `primary` = s; anything else gives no hosts |
| Routing.NormalizeSingle | cathedral_orchestrator/orchestrator/main.py:57-58 | a one-element host list becomes the single host `h0` |
| Routing.HostKeyInjective | cathedral_orchestrator/orchestrator/main.py:58 | distinct positions get distinct `h<i>` names |
| Routing.NormalizeListNames | cathedral_orchestrator/orchestrator/main.py:57-58 | a list becomes `h0`, `h1`, … bound to `str()` of each entry, in order |
| Routing.NormalizeDictKeys | cathedral_orchestrator/orchestrator/main.py:55-56 | a dict keeps its keys in order, each bound to `str()` of its value |
| Routing.NormalizeDictLookup | cathedral_orchestrator/orchestrator/main.py:55-56 | a lookup in the normalised dict is `str()` of the original lookup |
| Routing.HostsJson | cathedral_orchestrator/orchestrator/main.py:137 | the current hosts as an options object, one field per host |
| Routing.NormalizeHostsJson | cathedral_orchestrator/orchestrator/main.py:137 | normalising the current hosts again gives them back unchanged |
| Routing.FirstHost | cathedral_orchestrator/orchestrator/main.py:100-110 | the first host in input order that lists the model or a key equal to it as a dict key (`true` and `1` alike), or None iff no host does |
| Routing.AddModelsLookup | cathedral_orchestrator/orchestrator/main.py:104-109 | adding a host's models keeps existing keys and binds new truthy keys the host lists; `true` finds the entry of `1` and the reverse |
| Routing.AddModelsDistinct | cathedral_orchestrator/orchestrator/main.py:104-109 | the index keeps one entry per model key |
| Routing.ModelIndexFirstWins | cathedral_orchestrator/orchestrator/main.py:100-110 | over the walked model lists, each truthy key (`id`, else `name`) maps to the first host listing it or an equal dict key (`true` == `1`), keys are distinct, and a falsy key is not indexed |
| Routing.ModelKey | cathedral_orchestrator/orchestrator/main.py:104 | reference definition: `m.get("id") or m.get("name")`; `ModelIndexFirstWins` and `IndexFirstWins` state how the index uses it |
| Values.DictKey | cathedral_orchestrator/orchestrator/main.py:101-109 | `True == 1` and `False == 0` are one dict key: the key keeps truthiness and is never a bool |
| Routing.IndexOf | cathedral_orchestrator/orchestrator/main.py:100-110 | reference definition of the index the loop builds, keys held as Python dict keys (`DictKey`), or the exception its walk raises; `IndexFirstWins` states its properties and `BuildModelIndex` is proved against it |
| Routing.ReachedOk | cathedral_orchestrator/orchestrator/main.py:100-110 | the walk succeeds iff every host's `data` can be walked, and then yields every host, in order, with its iterated data |
| Routing.IndexFirstWins | cathedral_orchestrator/orchestrator/main.py:100-110 | on the raw replies: raises iff some host's `data` is not iterable or holds a non-dict model or an unhashable key; otherwise binds each truthy key, `true` and `1` as one, to its first lister |
| Routing.FirstHostSnoc | cathedral_orchestrator/orchestrator/main.py:100-110 | a later host never displaces an earlier lister |
| Routing.FirstHostAt | cathedral_orchestrator/orchestrator/main.py:100-110 | the earliest lister is the first host |
| Routing.BuildModelIndex | cathedral_orchestrator/orchestrator/main.py:100-110 | the loop returns the reference index `IndexOf`, or the exception its walk raises |
| Routing.IndexHost | cathedral_orchestrator/orchestrator/main.py:102-109 | the inner loop adds one host's models as `AddModels` does, or raises at the first model it cannot take |
| Routing.RouteForModel | cathedral_orchestrator/orchestrator/main.py:181-188 | raises iff walking the hosts raises, the model cannot be a dict key, or no host is configured (IndexError); otherwise answers the first host listing the model or an equal key (`true` for `1`) when its URL is non-empty, else the first configured host |
| Routing.RouteTrueIsOne | cathedral_orchestrator/orchestrator/main.py:101-109 | a model listed as id `true` by a first host and as id `1` by a second routes a request for `1` to the first host, as `idx.get(1)` does |
| Routing.RouteChoosesFirstLister | cathedral_orchestrator/orchestrator/main.py:181-188 | the first host listing the model is chosen when its URL is non-empty; any host other than the first one is chosen only because it lists the model |
| Routing.RequestTarget | cathedral_orchestrator/orchestrator/main.py:194 | a request without a model goes to the first host, and raises IndexError when none is configured |
| Routing.ChatStream | cathedral_orchestrator/orchestrator/main.py:196 | streaming is on unless `stream` is present and falsy |
| Routing.ModelsFromHost | cathedral_orchestrator/orchestrator/main.py:88-98 | a failing, non-2xx or non-object reply gives an empty list; otherwise the reply's `data` value as it is, unchecked (an empty list when absent) |
| Routing.PyContains | cathedral_orchestrator/orchestrator/main.py:174-176 | Python `in` raises iff the value is no dict, list or string; on a dict it is key membership |
| Routing.Without | cathedral_orchestrator/orchestrator/main.py:177 | removes the key and keeps every other binding |
| Routing.MergeEntry | cathedral_orchestrator/orchestrator/main.py:173-178 | raises iff the entry is no dict, list or string, or is a string or list without "id" but with "name"; otherwise kept iff it has `id` or `name` (Python `in`, a substring test on a string), as it is when it has `id`; a dict with only `name` gets it as `id`, without `name`, other fields kept |
| Routing.StringEntries | cathedral_orchestrator/orchestrator/main.py:174-177 | the string "idefics" is listed as it is, and "name-x" raises |
| Routing.MergeHost | cathedral_orchestrator/orchestrator/main.py:172-177 | the inner loop merges one host's models as `MergeModels` does, or raises at the first it cannot merge |
| Routing.ListModels | cathedral_orchestrator/orchestrator/main.py:164-179 | the response is the list object around the merged union, or the first exception the merge raises |
| Routing.MergeModelsIds | cathedral_orchestrator/orchestrator/main.py:171-178 | when one host's merge succeeds, every entry has an id and there are no more entries than models |
| Routing.MergeAllIds | cathedral_orchestrator/orchestrator/main.py:171-178 | when the merge succeeds, every entry of the union has an id |
| Routing.MergeAll | cathedral_orchestrator/orchestrator/main.py:171-178 | reference definition of the `/v1/models` union, host by host; `MergeAllIds`, `MergeAllAppend` and `FailingHostContributesNothing` state its properties and `ListModels` is proved against it |
| Routing.MergeAllAppend | cathedral_orchestrator/orchestrator/main.py:171-178 | the union of two host lists is their unions concatenated in host order, and an exception in the earlier hosts wins |
| Routing.FailingHostContributesNothing | cathedral_orchestrator/orchestrator/main.py:88-98 | a failing host leaves the others' union unchanged |
| Routing.SameModelListedTwice | cathedral_orchestrator/orchestrator/main.py:171-178 | a model served by two hosts is listed twice (no de-duplication) |
| Routing.EmbeddingInputs | cathedral_orchestrator/orchestrator/main.py:221-227 | a list input keeps one text per item |
| Routing.EmbeddingInputsKeep | cathedral_orchestrator/orchestrator/main.py:225 | strings stay, None becomes "", anything else becomes `str()` |
| Routing.AlignDocuments | cathedral_orchestrator/orchestrator/main.py:240-242 | exactly n documents: the inputs truncated, or padded with "" |
| Routing.EmbeddingRecords | cathedral_orchestrator/orchestrator/main.py:236-246 | records only when upserts are on; one id, one document and one shared metadata per vector |
| Routing.EmbeddingRecordsVectors | cathedral_orchestrator/orchestrator/main.py:238-239 | one vector per returned item, its `embedding` field |
| Routing.UpdateAllLookup | cathedral_orchestrator/orchestrator/main.py:135 | after the merge a posted key reads the posted value, others their old value |
| Routing.DomainSet | cathedral_orchestrator/orchestrator/main.py:146 | `set()` of the allow-list: a list raises iff it holds an unhashable item (a list or dict, "unhashable type"), and otherwise gives the set of its string items; a string gives its characters, a dict its keys; any other value raises "not iterable" |
| Routing.FirstUnhashable | cathedral_orchestrator/orchestrator/main.py:146 | None iff every item can go into a set; otherwise an item of the list that cannot |
| Routing.ApplyOptionsRederives | cathedral_orchestrator/orchestrator/main.py:134-146 | a posted setting takes the posted value; a setting absent from both keeps its previous value; a posted list of hashable items becomes exactly the allow-list of its strings, and one holding an unhashable item leaves the previous allow-list |
| Routing.ApplyOptions | cathedral_orchestrator/orchestrator/main.py:134-146 | reference definition (no contract of its own): the options merged, each setting re-read from them with its previous value as default, the allow-list rebuilt only when `set()` accepts it; `ApplyOptionsRederives`, `ApplyOptionsAllowList`, `ApplyOptionsHosts` and `ApplyOptionsIdempotent` state its properties |
| Routing.ApplyOptionsAllowList | cathedral_orchestrator/orchestrator/main.py:142-146 | for a posted list: when every item is hashable the allow-list is exactly its strings; when one is not, `set()` raises and the previous allow-list stays |
| Routing.ApplyOptionsHosts | cathedral_orchestrator/orchestrator/main.py:137 | the hosts after applying options are the normalised merged `lm_hosts`, the current hosts when it is absent |
| Routing.ApplyOptionsIdempotent | cathedral_orchestrator/orchestrator/main.py:134-146 | posting the same options twice equals posting them once |
| Routing.UpdateAllNoop | cathedral_orchestrator/orchestrator/main.py:135 | re-posting values already present leaves the options unchanged |
| Routing.SetOptionsAsWritten | cathedral_orchestrator/orchestrator/main.py:131-161 | as written every setting is reassigned and the request always raises: at `set()` when the allow-list holds an unhashable item or is not iterable (the allow-list then stays as it was), otherwise at the `ChromaConfig` call |
| Routing.Settings.constructor | cathedral_orchestrator/orchestrator/main.py:64-72 | each setting is read from the options with its documented default |
| Routing.Settings.SetOptions | cathedral_orchestrator/orchestrator/main.py:131-161 | the settings become `ApplyOptions` of the old ones; the intended reply echoes the posted options iff the new allow-list converts to a set, and is None when `set()` raises |
| ToolBridge.NewBridge | cathedral_orchestrator/orchestrator/toolbridge.py:12-20 | the allow-list is the set of the given names (empty for None); the base defaults to `http://supervisor` |
| ToolBridge.SplitTool | cathedral_orchestrator/orchestrator/toolbridge.py:28-32 | no split iff there is no '.'; otherwise a dot-free domain and the rest, joining back to the name |
| ToolBridge.SplitToolJoin | cathedral_orchestrator/orchestrator/toolbridge.py:28-32 | `domain.service` with a dot-free domain splits back into the two |
| ToolBridge.Classify | cathedral_orchestrator/orchestrator/toolbridge.py:67-95 | done iff 200/201/202, unauthorized iff 401, failed otherwise |
| ToolBridge.ServiceUrl | cathedral_orchestrator/orchestrator/toolbridge.py:48 | reference definition of the Core REST URL `/core/api/services/<domain>/<service>`; `Call` states that an accepted call posts to it |
| ToolBridge.Call | cathedral_orchestrator/orchestrator/toolbridge.py:27-95 | an invalid name or a disallowed domain posts nothing; otherwise exactly one post to the service URL with the payload (or {}) |
| ToolBridge.ToJson | cathedral_orchestrator/orchestrator/toolbridge.py:27-95 | the dictionary's `ok` is true iff the call succeeded |
| ToolBridge.CallOkExactly | cathedral_orchestrator/orchestrator/toolbridge.py:27-95 | ok iff the name splits, the domain is allowed and the reply status is 200, 201 or 202 |
| ToolBridge.RejectedNameIndependentOfReply | cathedral_orchestrator/orchestrator/toolbridge.py:28-41 | a rejected call does not depend on the network |
| Personas.LoadYaml | cathedral_orchestrator/orchestrator/__init__.py:25-92 | a non-empty persona is the loaded mapping; a missing or non-mapping document gives {} |
| Personas.LoadYamlJsonFallback | cathedral_orchestrator/orchestrator/__init__.py:28-73 | without PyYAML: blank text gives {}, a JSON object is used as is, any other JSON value gives {} |
| Personas.LastIndexOf | cathedral_orchestrator/orchestrator/__init__.py:112-116 | the last position of the character, −1 iff absent |
| Personas.Suffix | cathedral_orchestrator/orchestrator/__init__.py:112 | a suffix is empty or a '.' followed by at least one dot-free character |
| Personas.StemSuffix | cathedral_orchestrator/orchestrator/__init__.py:112-116 | the stem and the suffix make up the file name |
| Personas.Stem | cathedral_orchestrator/orchestrator/__init__.py:116 | reference definition of `Path.stem`; `StemSuffix` states that stem and suffix make up the name |
| Personas.IsPersonaFile | cathedral_orchestrator/orchestrator/__init__.py:112 | reference definition: the lower-cased suffix is `.yaml`, `.yml` or `.json`; `DotFileIgnored` and `LoadedLookup` use it |
| Personas.DotFileIgnored | cathedral_orchestrator/orchestrator/__init__.py:112 | a file named `.yaml` has no suffix and is skipped |
| Personas.LastFile | cathedral_orchestrator/orchestrator/__init__.py:111-118 | the persona file with that stem that was read last, or None iff there is none |
| Personas.LoadedLookup | cathedral_orchestrator/orchestrator/__init__.py:110-124 | one template per stem, loaded from the last such file |
| Personas.TemplatesDefault | cathedral_orchestrator/orchestrator/__init__.py:126-134 | `default` is always present: the file's, else the seeded one |
| Personas.TemplatesOther | cathedral_orchestrator/orchestrator/__init__.py:110-124 | any other key is present iff a persona file has that stem |
| Personas.Templates | cathedral_orchestrator/orchestrator/__init__.py:107-134 | reference definition of the reloaded templates; `TemplatesDefault`, `TemplatesOther` and `LoadedLookup` state its properties and `PersonaManager.Reload` is proved against it |
| Personas.PersonaManager.constructor | cathedral_orchestrator/orchestrator/__init__.py:102-105 | the manager starts reloaded: templates from disk, active states equal to them |
| Personas.PersonaManager.Reload | cathedral_orchestrator/orchestrator/__init__.py:107-134 | both maps are rebuilt from scratch, active states equal to the templates, `default` present |
| Personas.PersonaManager.LoadDirectory | cathedral_orchestrator/orchestrator/__init__.py:110-124 | the directory loop leaves exactly the loaded dictionaries as templates, with active states equal to them |
| Personas.PersonaManager.ListPersonas | cathedral_orchestrator/orchestrator/__init__.py:136-137 | a copy with the template keys and entries |
| Personas.PersonaManager.Get | cathedral_orchestrator/orchestrator/__init__.py:139-144 | reads the chosen map, falls back to `default`, and is None iff neither exists (never under the manager's invariant) |
| Personas.PersonaManager.Reset | cathedral_orchestrator/orchestrator/__init__.py:146-152 | ok iff a template exists; then that active state is the template and nothing else changes |
| Personas.VoiceFrame | cathedral_orchestrator/orchestrator/__init__.py:163-178 | the frame is 4 + length bytes, and exists iff the UTF-8 length fits 32 bits |
| Personas.VoiceFrameRoundTrip | cathedral_orchestrator/orchestrator/__init__.py:163-178 | the header decodes to the text's byte length and the rest decodes to the text |
| Personas.Synthesize | cathedral_orchestrator/orchestrator/__init__.py:162-208 | the read loop returns the reference audio and sends the frame only when connected |
| Personas.ReadFailureLosesAudio | cathedral_orchestrator/orchestrator/__init__.py:195-202 | an IO error after data has been read still yields empty audio |
| Bytes.Utf8RoundTrip | cathedral_orchestrator/orchestrator/__init__.py:163 | decoding the UTF-8 encoding gives back the text |
| Bytes.Le32RoundTrip | cathedral_orchestrator/orchestrator/__init__.py:178 | the 4-byte little-endian length reads back as the length |
| Sse.Encoded | cathedral_orchestrator/orchestrator/sse.py:16-19 | bytes are forwarded unchanged; a truthy chunk never encodes to nothing |
| Sse.DoneEvent | cathedral_orchestrator/orchestrator/sse.py:23-24 | the terminator is the UTF-8 of `data: [DONE]` and a blank line |
| Sse.EventStream | cathedral_orchestrator/orchestrator/sse.py:11-24 | the stream always ends with the terminator; it raises iff the upstream failed with something other than a closed stream |
| Sse.ForwardAppend | cathedral_orchestrator/orchestrator/sse.py:13-19 | forwarding keeps input order (forwarding distributes over concatenation) |
| Sse.ForwardOne | cathedral_orchestrator/orchestrator/sse.py:14-19 | a falsy chunk is dropped, any other is encoded |
| Sse.Forward | cathedral_orchestrator/orchestrator/sse.py:13-19 | reference definition of the relay loop; `ForwardAppend`, `ForwardOne` and `ForwardNonEmpty` state its properties |
| Sse.ForwardNonEmpty | cathedral_orchestrator/orchestrator/sse.py:14-19 | no empty event is ever forwarded, and none is added |
| Sse.ClosedIsClean | cathedral_orchestrator/orchestrator/sse.py:20-24 | a closed upstream ends exactly like a finished one |
| Sse.UpstreamDoneRepeated | cathedral_orchestrator/orchestrator/sse.py:20-24 | an upstream `[DONE]` is followed by a second one |
| Sse.StreamHeadersSay | cathedral_orchestrator/orchestrator/sse.py:26-34 | no-cache, keep-alive and no proxy buffering |
| Sse.SseProxy | cathedral_orchestrator/orchestrator/sse.py:7-34 | the given media type (default `text/event-stream`), the fixed headers and the event stream |
| Text.SplitLines | clients/anythingllm_agent_skill/cathedral-mpc-bridge/handler.js:46 | `split(/\r?\n/)` gives at least one piece |
| Text.SplitLinesJoin | clients/anythingllm_agent_skill/cathedral-mpc-bridge/handler.js:46 | splitting lines joined by LF or CRLF gives them back |
| Text.StrLeTotal | cathedral_orchestrator/orchestrator/mpc_server.py:182 | Python string order (code point by code point, a prefix first) is total |
| Text.StrLeRefl | cathedral_orchestrator/orchestrator/mpc_server.py:182 | the string order is reflexive |
| Text.StrLeTrans | cathedral_orchestrator/orchestrator/mpc_server.py:182 | the string order is transitive |
| Text.StrLeAntisymmetric | cathedral_orchestrator/orchestrator/mpc_server.py:182 | the string order is antisymmetric |
| Text.InsertString | cathedral_orchestrator/orchestrator/mpc_server.py:182 | inserting into a sorted list keeps it sorted and adds exactly the one string |
| Text.SortStrings | cathedral_orchestrator/orchestrator/mpc_server.py:182 | `sorted()` of strings: sorted, and a permutation of its input |
| Text.SortedUnique | cathedral_orchestrator/orchestrator/mpc_server.py:182 | two sorted permutations of the same strings are equal, so `sorted()` has one answer |
| EnvFile.Unquote | clients/anythingllm_agent_skill/cathedral-mpc-bridge/handler.js:53-54 | one matching pair of surrounding quotes is removed; otherwise the value is unchanged |
| EnvFile.ParseLine | clients/anythingllm_agent_skill/cathedral-mpc-bridge/handler.js:46-55 | blank, comment, `=`-less and `=`-first lines are skipped; a kept key is non-empty, trimmed and `=`-free |
| EnvFile.ReadEnvFile | clients/anythingllm_agent_skill/cathedral-mpc-bridge/handler.js:42-58 | an unreadable file gives {}; otherwise the line loop builds the parsed file |
| EnvFile.ParseLinesDistinct | clients/anythingllm_agent_skill/cathedral-mpc-bridge/handler.js:46-55 | the result has one entry per key |
| EnvFile.LaterLineWins | clients/anythingllm_agent_skill/cathedral-mpc-bridge/handler.js:51-55 | a later line for the same key overwrites an earlier one |
| EnvFile.QuoteIfNeeded | clients/anythingllm_agent_skill/cathedral-mpc-bridge/handler.js:59 | unchanged unless quoting is needed; then wrapped in double quotes |
| EnvFile.EnvLines | clients/anythingllm_agent_skill/cathedral-mpc-bridge/handler.js:62 | one line per entry |
| EnvFile.ParseWrittenLine | clients/anythingllm_agent_skill/cathedral-mpc-bridge/handler.js:51-62 | a written `k=v` line reads back as (k, v) for a safe key and value |
| EnvFile.ParseKeyValueLine | clients/anythingllm_agent_skill/cathedral-mpc-bridge/handler.js:47-55 | a `k=rest` line reads as k with the unquoted trimmed rest |
| EnvFile.QuotedReadsBack | clients/anythingllm_agent_skill/cathedral-mpc-bridge/handler.js:53-59 | a quote-free value survives quoting, trimming and unquoting |
| EnvFile.ParseEnvLines | clients/anythingllm_agent_skill/cathedral-mpc-bridge/handler.js:46-62 | parsing the written lines of a safe map gives the map |
| EnvFile.SerializeRoundTrip | clients/anythingllm_agent_skill/cathedral-mpc-bridge/handler.js:42-62 | reading a serialised safe map, with LF or CRLF line ends, returns the same map |
| EnvFile.EscapedQuoteNotUndone | clients/anythingllm_agent_skill/cathedral-mpc-bridge/handler.js:53-59 | a value holding `"` reads back with the backslash kept |
| EnvFile.MergeKeysLookup | clients/anythingllm_agent_skill/cathedral-mpc-bridge/handler.js:196-201 | for any visited key list, a visited key with a present non-null update reads the stringified update; every other key keeps its value |
| EnvFile.MergeKeysShape | clients/anythingllm_agent_skill/cathedral-mpc-bridge/handler.js:196-201 | existing keys keep their order and the map keeps one entry per key |
| EnvFile.ApplyConfigWrite | clients/anythingllm_agent_skill/cathedral-mpc-bridge/handler.js:196-201 | the loop computes the merge over the four synced keys |
| EnvFile.ConfigWrite | clients/anythingllm_agent_skill/cathedral-mpc-bridge/handler.js:194-207 | the written file is the serialised merge of the old file and the update |
| EnvFile.ReadAnythingLLMEnv | clients/anythingllm_agent_skill/cathedral-mpc-bridge/handler.js:99-109 | each of LMSTUDIO_BASE_PATH, EMBEDDING_BASE_PATH, CHROMA_URL and VECTOR_DB reads the file's value, or "" when absent; a missing file reports all four as "" |
| EnvFile.WriteThenReadReportsUpdate | clients/anythingllm_agent_skill/cathedral-mpc-bridge/handler.js:194-207 | after `config.write` of a CHROMA_URL, `config.read` reports that URL |
| EnvFile.SendConfigReadResult | clients/anythingllm_agent_skill/cathedral-mpc-bridge/handler.js:111-121 | a response with the correlation id when there is one, else an event with a fresh `cfgsync_` id |
| Mpc.GetAttr | cathedral_orchestrator/orchestrator/mpc_server.py:243 | `.get` succeeds iff the value is a dict, and reads that key |
| Mpc.SetDefault | cathedral_orchestrator/orchestrator/mpc_server.py:519-520 | sets the key only when absent, leaving other keys alone |
| Mpc.Payload | cathedral_orchestrator/orchestrator/mpc_server.py:509-521 | a legacy frame (no `type`) is its own payload; a versioned one fails iff its headers are not a dict |
| Mpc.PayloadVersioned | cathedral_orchestrator/orchestrator/mpc_server.py:515-521 | the body's keys, plus the headers' workspace id only when the body lacks one |
| Mpc.HandleToolsListFirst | cathedral_orchestrator/orchestrator/mpc_server.py:245-252 | `tools.list` is matched before the `tools.` prefix |
| Mpc.HandleRoute | cathedral_orchestrator/orchestrator/mpc_server.py:245-306 | reference definition of the branch `handle` takes for a scope; the lemmas that follow state its order |
| Mpc.SocketRoute | cathedral_orchestrator/orchestrator/mpc_server.py:523-727 | reference definition of the branch `mcp_socket` takes for a scope |
| Mpc.AgentsScopesRoute | cathedral_orchestrator/orchestrator/mpc_server.py:271-273 | every `agents.` scope other than `agents.resurrect` takes the agents branch on both sockets |
| Mpc.HandleResourcesExact | cathedral_orchestrator/orchestrator/mpc_server.py:245-306 | `resources.list` and `resources.health` have their own branches |
| Mpc.HandleResourcesGeneric | cathedral_orchestrator/orchestrator/mpc_server.py:245-306 | any other `resources.` scope is handled generically |
| Mpc.MissingScopeUnknown | cathedral_orchestrator/orchestrator/mpc_server.py:245-306 | a missing scope is unknown to both sockets |
| Mpc.ConfigScopesDiverge | cathedral_orchestrator/orchestrator/mpc_server.py:245-306 | a `config.` scope other than `config.read.result` is generic on the handler socket but unknown on the second socket |
| Mpc.SocketToolsListIsCall | cathedral_orchestrator/orchestrator/mpc_server.py:533-548 | on the second socket `tools.list` is a tool call |
| Mpc.HandleTools | cathedral_orchestrator/orchestrator/mpc_server.py:321-329 | a missing or non-string tool is invalid; ok iff the name splits, the domain is allowed and the status is 2xx-success |
| Mpc.ToolNameErrorsAgree | cathedral_orchestrator/orchestrator/mpc_server.py:321-329 | a dot-free tool name answers like a missing one |
| Mpc.SocketToolCall | cathedral_orchestrator/orchestrator/mpc_server.py:533-548 | a call is built iff the frame is legacy or has a dict body; the body's intent names the tool |
| Mpc.VoiceText | cathedral_orchestrator/orchestrator/mpc_server.py:206-211 | `text`, else `content`, else the body's or payload's `text` |
| Mpc.HandleVoice | cathedral_orchestrator/orchestrator/mpc_server.py:205-226 | raises iff reading the text raises; `text_required` iff the text is falsy; `synthesis_failed` iff no audio; else the audio |
| Mpc.VoiceJson | cathedral_orchestrator/orchestrator/mpc_server.py:212-226 | `ok` is true iff audio was produced |
| Mpc.VoiceWithoutServer | cathedral_orchestrator/orchestrator/mpc_server.py:215-218 | with the voice server unreachable a voice request fails with `synthesis_failed` |
| Mpc.StripHosts | cathedral_orchestrator/orchestrator/mpc_server.py:110 | each host with its trailing '/' removed |
| Mpc.FirstHealthy | cathedral_orchestrator/orchestrator/mpc_server.py:111-117 | the first host whose health is `ok`, or None iff there is none |
| Mpc.HostChoice | cathedral_orchestrator/orchestrator/mpc_server.py:107-125 | None iff no hosts; else the first healthy stripped host, else the first |
| Mpc.ConfigPatchSays | cathedral_orchestrator/orchestrator/mpc_server.py:575-593 | chroma mode and URL iff CHROMA_URL is set and unlocked; the hosts iff LMSTUDIO_BASE_PATH is set and unlocked; nothing else |
| Mpc.ConfigPatch | cathedral_orchestrator/orchestrator/mpc_server.py:575-593 | reference definition of the patch built from the client `.env`; `ConfigPatchSays`, `ConfigPatchSetsChroma` and `ConfigPatchSetsHosts` state its properties |
| Mpc.ConfigReadResultReply | cathedral_orchestrator/orchestrator/mpc_server.py:558-634 | BOOTSTRAP_PENDING unless ready, allowed and enabled; an empty patch is ok with nothing applied and no call; otherwise the patch is posted and applied iff the call answered 200 |
| Mpc.AutoConfigDefaultsOn | cathedral_orchestrator/orchestrator/mpc_server.py:565 | `auto_config` defaults to on |
| Mpc.ConfigPatchSetsChroma | cathedral_orchestrator/orchestrator/mpc_server.py:575-593 | applying the patch sets the Chroma URL and http mode |
| Mpc.ConfigPatchSetsHosts | cathedral_orchestrator/orchestrator/mpc_server.py:575-593 | applying the patch makes the client's base path the only host `h0` |
| MpcServer.CacheLookup | cathedral_orchestrator/orchestrator/mpc_server.py:90-99 | the cache afterwards holds exactly the list returned |
| MpcServer.CacheServesWithinTtl | cathedral_orchestrator/orchestrator/mpc_server.py:90-99 | within 300 seconds of a refresh the cached list is served without a new fetch |
| MpcServer.ToolsListFailsAsWritten | cathedral_orchestrator/orchestrator/mpc_server.py:90-99 | as written, on a cold cache the first `tools.list` answers the missing-attribute error and the first `agents.list` raises it |
| MpcServer.ToolsListAsWritten | cathedral_orchestrator/orchestrator/mpc_server.py:90-99 | reference definition of `_tools_list_cached` as written: a fresh entry is served, a miss raises the missing-attribute error |
| MpcServer.AgentsListAsWritten | cathedral_orchestrator/orchestrator/mpc_server.py:181-188 | reference definition of the `agents.list` body as written: the listing around the cached tools, or the exception the cache raises |
| MpcServer.CreatedThread | cathedral_orchestrator/orchestrator/mpc_server.py:348 | without a thread id the thread is `thr_` and the hex millisecond clock |
| MpcServer.UnknownPersonaStoredAsWritten | cathedral_orchestrator/orchestrator/mpc_server.py:337-347 | as written, an unknown persona id is stored on the session |
| MpcServer.CreatePersonaAsWritten | cathedral_orchestrator/orchestrator/mpc_server.py:337-347 | reference definition of the persona `session.create` stores as written; `UnknownPersonaStoredAsWritten` shows the check never fires |
| MpcServer.RequestedPersona | cathedral_orchestrator/orchestrator/__init__.py:139-144 | the id `session.create` looks up (`persona_id or "default"`): a list or dict raises "unhashable type" at the manager's lookup; any other id that is not text names no persona |
| MpcServer.CreatePersona | cathedral_orchestrator/orchestrator/mpc_server.py:337-347 | the stored persona is the requested text id iff it exists (or is `default`), else `default`; an id that is not text gives `default` |
| MpcServer.SessionDictPersonaRaises | cathedral_orchestrator/orchestrator/mpc_server.py:337-338 | a create with persona id `{"x": 1}` raises "unhashable type: 'dict'" and writes no row |
| MpcServer.SessionNumberPersonaIsDefault | cathedral_orchestrator/orchestrator/mpc_server.py:337-347 | a create with persona id `5` returns and stores the `default` persona even when a persona "5" exists |
| MpcServer.CreatedSessionPinned | cathedral_orchestrator/orchestrator/mpc_server.py:334-371 | the created row carries the persona and the chosen host; no other row changes |
| MpcServer.ResumeKeepsPinnedSession | cathedral_orchestrator/orchestrator/mpc_server.py:372-395 | a row with host and collection only has its time updated |
| MpcServer.ResumeUnknownWritesNothing | cathedral_orchestrator/orchestrator/mpc_server.py:372-395 | resuming an absent session writes nothing |
| MpcServer.MemoryPlan | cathedral_orchestrator/orchestrator/mpc_server.py:399-478 | the refusals in source order; an upsert uses the session's non-empty collection and answers ok or `upsert_failed`; missing metadatas are one {} per document; other rows unchanged |
| MpcServer.MemoryUpsert | cathedral_orchestrator/orchestrator/mpc_server.py:449-478 | raises iff missing metadatas meet non-iterable documents or, with a base URL, the upsert's arguments do not convert (`PayloadError`); without a base URL answers `upsert_failed`; otherwise posts to the linked collection with one {} per document for missing metadatas and answers ok with the collection id or `upsert_failed` |
| MpcServer.PayloadError | cathedral_orchestrator/orchestrator/vector/chroma_client.py:205-211 | the upsert's arguments convert iff ids, documents and metadatas iterate and the embeddings are None or iterate into iterables; otherwise the TypeError of the first in that order |
| MpcServer.FirstNotIterable | cathedral_orchestrator/orchestrator/vector/chroma_client.py:211 | None iff every embedding vector iterates, else one that does not |
| MpcServer.MemoryCall | cathedral_orchestrator/orchestrator/mpc_server.py:449-460 | falsy ids, documents and metadatas become []; missing metadatas are one {} per document; the embeddings pass unchanged |
| MpcServer.MemoryIdsNotIterable | cathedral_orchestrator/orchestrator/vector/chroma_client.py:205-206 | with a base URL, a truthy non-iterable `ids` raises "'<type>' object is not iterable" |
| MpcServer.MemoryListsConvert | cathedral_orchestrator/orchestrator/vector/chroma_client.py:205-211 | list ids, documents and metadatas with embeddings None or a list of lists never raise |
| MpcServer.MemoryPlanUpserts | cathedral_orchestrator/orchestrator/mpc_server.py:420-478 | past the refusals, a session with a collection answers exactly the upsert into it, raises included |
| MpcServer.MemoryUsesSessionCollection | cathedral_orchestrator/orchestrator/mpc_server.py:420-440 | a session with a collection upserts into it and nothing is written |
| MpcServer.BlankCollectionNameLinksNothing | cathedral_orchestrator/orchestrator/mpc_server.py:136-157 | a whitespace-only collection name obtains no collection and writes nothing |
| MpcServer.CollectionObtained | cathedral_orchestrator/orchestrator/mpc_server.py:136-157 | reference definition of the collection `_ensure_session_collection` obtains; `BlankCollectionNameLinksNothing` and `Server.EnsureSessionCollection` use it |
| MpcServer.SessionOutcomeEffects | cathedral_orchestrator/orchestrator/mpc_server.py:331-397 | a session frame writes at most its own row; it raises iff it is a create whose persona id is a list or dict, and then writes nothing; any other create leaves that row present, other actions add no row, and a refused frame writes nothing |
| MpcServer.SessionOutcome | cathedral_orchestrator/orchestrator/mpc_server.py:331-397 | reference definition of a session frame's reply (or exception) and rows; `SessionOutcomeEffects` states its effects and `Server.HandleSession` is proved against it |
| MpcServer.ResumedRowsFrame | cathedral_orchestrator/orchestrator/mpc_server.py:372-395 | a resume adds no row and changes no other row |
| MpcServer.ResurrectTarget | cathedral_orchestrator/orchestrator/mpc_server.py:274-277 | the frame's truthy `persona_id`, else the body's, which raises iff the body is not an object |
| MpcServer.ResetOutcome | cathedral_orchestrator/orchestrator/mpc_server.py:278-280 | the reset reports success iff the id is truthy and names a template |
| MpcServer.ResetRestoresTemplate | cathedral_orchestrator/orchestrator/__init__.py:146-152 | a reset changes only the named active persona, back to its template, and only when it succeeds |
| MpcServer.AgentRecord | cathedral_orchestrator/orchestrator/mpc_server.py:163-179 | reference definition of the agent record: the handled and delegated scopes, the chat and embedding parameters, and the workspace (`default` when falsy) with version 0.1.9 |
| MpcServer.AgentsOtherBody | cathedral_orchestrator/orchestrator/mpc_server.py:189-195 | `agents.get` and `agents.describe` answer the agent record under `agent`; any other scope answers {} |
| MpcServer.AgentsOutcome | cathedral_orchestrator/orchestrator/mpc_server.py:181-195 | reference definition of `_handle_agents` with the cache it leaves; `AgentsListing` states its properties |
| MpcServer.AgentsListing | cathedral_orchestrator/orchestrator/mpc_server.py:181-188 | `agents.list` refreshes the tools cache as `_tools_list_cached` does and lists the agent record, the persona ids sorted (a sorted permutation of the template keys) and the cached tools; any other scope leaves the cache alone |
| MpcServer.AgentsListPersonasDetermined | cathedral_orchestrator/orchestrator/mpc_server.py:182 | the persona list is the one sorted arrangement of the template keys |
| MpcServer.AgentsListAnswered | cathedral_orchestrator/orchestrator/mpc_server.py:287-292 | the reply body is the listing, and it has the `agents.list` shape |
| MpcServer.Answered | cathedral_orchestrator/orchestrator/mpc_server.py:307-314 | an exception raised by a handler becomes `{"ok": false, "error": …}` |
| MpcServer.VoiceFields | cathedral_orchestrator/orchestrator/mpc_server.py:701-703 | a socket voice frame raises iff it is versioned and its body is not an object |
| MpcServer.MemoryOk | cathedral_orchestrator/orchestrator/mpc_server.py:635-643 | a socket memory reply's ok is the result's own `ok`, true when it has none |
| MpcServer.HandleStepEffects | cathedral_orchestrator/orchestrator/mpc_server.py:236-319 | a `handle` frame's reply meets `Answers`; the templates never change; only `tools.list` and `agents.list` change the cache, to what `_tools_list_cached` leaves; an agents frame answers `_handle_agents`; only session and memory frames change the rows (as their handlers leave them, a memory exception answered as an error), and only `agents.resurrect` an active persona, back to its template |
| MpcServer.HandleStep | cathedral_orchestrator/orchestrator/mpc_server.py:236-319 | reference definition of one `handle` frame: the reply and the state after |
| MpcServer.HandleResult | cathedral_orchestrator/orchestrator/mpc_server.py:245-306 | the branch a frame takes never changes a template; only `agents.resurrect` changes active personas, only session and memory the rows, only `tools.list` and `agents.list` the cache |
| MpcServer.HandleWrite | cathedral_orchestrator/orchestrator/mpc_server.py:245-292 | the stateful branches of `handle`: templates never change, only `agents.resurrect` changes active personas, only session and memory the rows, only `tools.list` and `agents.list` the cache |
| MpcServer.Answers | cathedral_orchestrator/orchestrator/mpc_server.py:236-319 | reference predicate of what `handle` replies to each kind of frame |
| MpcServer.HandleStepAnswers | cathedral_orchestrator/orchestrator/mpc_server.py:236-319 | every `handle` reply meets `Answers` |
| MpcServer.HandleAnswersResurrect | cathedral_orchestrator/orchestrator/mpc_server.py:272-287 | `agents.resurrect` answers the target's error, or the reset reply whose ok says whether the reset happened |
| MpcServer.HandleAnswersAgents | cathedral_orchestrator/orchestrator/mpc_server.py:271-292 | the other agents scopes answer the listing or the agent record |
| MpcServer.HandleAnswersWrite | cathedral_orchestrator/orchestrator/mpc_server.py:245-252 | `tools.list`, session and memory frames answer as their handlers do |
| MpcServer.HandleAnswersRead | cathedral_orchestrator/orchestrator/mpc_server.py:236-319 | the scopes that change no state answer as `Answers` says |
| MpcServer.HandleStepCache | cathedral_orchestrator/orchestrator/mpc_server.py:245-292 | the cache changes only on `tools.list` and `agents.list`, to `CacheLookup`'s; an agents frame answers `_handle_agents` |
| MpcServer.HandleStepRows | cathedral_orchestrator/orchestrator/mpc_server.py:249-252 | only session and memory frames change the rows, to what their handlers leave |
| MpcServer.HandleStepStates | cathedral_orchestrator/orchestrator/mpc_server.py:272-287 | templates never change; only `agents.resurrect` changes an active persona, and only back to its template |
| MpcServer.HandleTrace | cathedral_orchestrator/orchestrator/mpc_server.py:236-319 | reference predicate of a run of `handle`: each reply and state is `HandleStep` of the state before |
| MpcServer.HandleTraceAnswers | cathedral_orchestrator/orchestrator/mpc_server.py:236-319 | along a run of `handle`, every reply meets `Answers` and the templates stay as they were |
| MpcServer.HandleTraceKeepsRows | cathedral_orchestrator/orchestrator/mpc_server.py:236-319 | a run of frames with no session or memory frame leaves the session rows unchanged |
| MpcServer.HandleTraceKeepsCache | cathedral_orchestrator/orchestrator/mpc_server.py:236-319 | a run of frames with no `tools.list` or `agents.list` frame leaves the tools cache as it was |
| MpcServer.SocketStepAnswers | cathedral_orchestrator/orchestrator/mpc_server.py:502-731 | a socket frame's reply meets `SocketAnswers` |
| MpcServer.SocketStep | cathedral_orchestrator/orchestrator/mpc_server.py:502-731 | reference definition of one `mcp_socket` frame: the reply (none when it raises) and the state after |
| MpcServer.SocketResult | cathedral_orchestrator/orchestrator/mpc_server.py:523-729 | the branch a parsed frame takes never changes a template; only `agents.resurrect` changes active personas, only session and memory the rows, only `agents.list` the cache |
| MpcServer.SocketAnswers | cathedral_orchestrator/orchestrator/mpc_server.py:502-731 | reference predicate of what `mcp_socket` replies to each kind of frame |
| MpcServer.SocketStepId | cathedral_orchestrator/orchestrator/mpc_server.py:505-521 | a frame whose payload does not parse, or whose scope is not a string, gets no reply; every reply carries the frame's request id |
| MpcServer.SocketStepTagged | cathedral_orchestrator/orchestrator/mpc_server.py:505-521 | a frame whose payload does not parse gets no reply; every reply carries the frame's request id |
| MpcServer.SocketStepReads | cathedral_orchestrator/orchestrator/mpc_server.py:523-727 | a frame on a route that changes no state gets that route's reply under its request id |
| MpcServer.SocketStepFixed | cathedral_orchestrator/orchestrator/mpc_server.py:523-727 | handshake, unknown-scope, config-result, tool and generic frames are answered as `SocketFixed` says |
| MpcServer.SocketFixedTools | cathedral_orchestrator/orchestrator/mpc_server.py:533-548 | a tool frame answers the tool result, or raises when it has neither a legacy payload nor a dict body |
| MpcServer.SocketFixedConfig | cathedral_orchestrator/orchestrator/mpc_server.py:558-634 | a `config.read.result` frame answers the config outcome |
| MpcServer.SocketFixedOther | cathedral_orchestrator/orchestrator/mpc_server.py:523-727 | handshake, unknown and generic frames answer the handshake body, `UNKNOWN_SCOPE` and the echo |
| MpcServer.SocketStepListed | cathedral_orchestrator/orchestrator/mpc_server.py:644-711 | resources, agents and voice frames are answered as `SocketListed` says |
| MpcServer.SocketListedAgents | cathedral_orchestrator/orchestrator/mpc_server.py:672-700 | an agents frame is answered iff its headers (and, without a workspace there, its body) are objects, with the listing or the agent record |
| MpcServer.SocketListedResurrect | cathedral_orchestrator/orchestrator/mpc_server.py:672-692 | `agents.resurrect` is answered iff headers and body are objects, with the reset body |
| MpcServer.SocketListedVoice | cathedral_orchestrator/orchestrator/mpc_server.py:701-708 | a voice frame answers the voice reply, or raises |
| MpcServer.SocketListedOther | cathedral_orchestrator/orchestrator/mpc_server.py:644-671 | the resource frames answer the catalog and the health body |
| MpcServer.SocketStepRows | cathedral_orchestrator/orchestrator/mpc_server.py:549-557 | only session and memory frames change the rows, to what their handlers leave |
| MpcServer.SocketStepStates | cathedral_orchestrator/orchestrator/mpc_server.py:672-692 | an unparsed frame changes nothing; templates never change; only `agents.resurrect` changes an active persona, back to its template |
| MpcServer.SocketStepCache | cathedral_orchestrator/orchestrator/mpc_server.py:672-700 | only a well-framed `agents.list` changes the cache, to `CacheLookup`'s; a framed agents frame answers `_handle_agents`, an unframed one raises |
| MpcServer.SocketStepKeepsCache | cathedral_orchestrator/orchestrator/mpc_server.py:502-731 | a frame with any scope other than `agents.list` keeps the tools cache |
| MpcServer.SocketTrace | cathedral_orchestrator/orchestrator/mpc_server.py:502-731 | reference predicate of a run of `mcp_socket`: each reply and state is `SocketStep` of the state before, until a frame raises |
| MpcServer.SocketTraceStep | cathedral_orchestrator/orchestrator/mpc_server.py:502-731 | each state of a socket run after the first is the one the frame before it left |
| MpcServer.SocketTraceGrows | cathedral_orchestrator/orchestrator/mpc_server.py:505-729 | answering one more frame extends a socket run by its reply and state; a frame that raises closes it |
| MpcServer.SocketStepEffects | cathedral_orchestrator/orchestrator/mpc_server.py:502-731 | a socket frame that does not parse changes nothing; the templates never change; only a well-framed `agents.list` changes the cache, to what `_tools_list_cached` leaves, and an agents frame answers `_handle_agents`; only session and memory frames change the rows, as their handlers leave them; only `agents.resurrect` changes an active persona, back to its template |
| MpcServer.SocketTraceAnswers | cathedral_orchestrator/orchestrator/mpc_server.py:502-731 | along a run of `mcp_socket`, every reply meets `SocketAnswers`, the frame that closes the socket gets none, and the templates stay as they were |
| MpcServer.SocketTraceKeepsCache | cathedral_orchestrator/orchestrator/mpc_server.py:502-731 | a socket run with no `agents.list` frame leaves the tools cache as it was |
| MpcServer.ToolReplyOk | cathedral_orchestrator/orchestrator/mpc_server.py:321-329 | the frame's `ok` reads the tool result's `ok` |
| MpcServer.Server.constructor | cathedral_orchestrator/orchestrator/mpc_server.py:38-59 | the server holds its bridge, store and personas with an empty tools cache |
| MpcServer.Server.ToolsListCached | cathedral_orchestrator/orchestrator/mpc_server.py:90-99 | the cache and result are those of `CacheLookup` |
| MpcServer.Server.AgentsBody | cathedral_orchestrator/orchestrator/mpc_server.py:181-195 | the body and the tools cache left are those of `AgentsOutcome`, with the persona ids sorted from the manager's listing |
| MpcServer.Server.AssignSessionHost | cathedral_orchestrator/orchestrator/mpc_server.py:101-134 | the host is `HostChoice`, the model that host's first catalog model, and the row is written only when a host exists |
| MpcServer.Server.EnsureSessionCollection | cathedral_orchestrator/orchestrator/mpc_server.py:136-157 | the collection id obtained (none for a blank-after-strip name or no client), recorded on the session when there is one |
| MpcServer.Server.HandleSession | cathedral_orchestrator/orchestrator/mpc_server.py:331-397 | create, resume and unknown actions: the rows written and the reply sent, or the exception raised, for each |
| MpcServer.Server.HandleMemory | cathedral_orchestrator/orchestrator/mpc_server.py:399-478 | the reply, the upsert call and the rows are those of `MemoryPlan` |
| MpcServer.Server.Resurrect | cathedral_orchestrator/orchestrator/mpc_server.py:272-287 | ok iff the persona id is truthy and a template exists |
| MpcServer.Server.HandleFrame | cathedral_orchestrator/orchestrator/mpc_server.py:236-319 | the reply and the new store rows, active personas and tools cache (refreshed by `tools.list` and `agents.list`) are those of `HandleStep` on the old state; the reply meets `Answers` |
| MpcServer.Server.Handle | cathedral_orchestrator/orchestrator/mpc_server.py:236-319 | one reply per frame, in order, each `HandleStep` of the state the frame before left (`HandleTrace`), rows, personas and tools cache included, from the old state to the new; every reply meets `Answers` |
| MpcServer.Server.SocketFrame | cathedral_orchestrator/orchestrator/mpc_server.py:502-731 | the reply (none when the frame raises) and the new state, tools cache included, are those of `SocketStep` on the old state; the reply meets `SocketAnswers` |
| MpcServer.Server.SocketBranch | cathedral_orchestrator/orchestrator/mpc_server.py:523-729 | the branch a parsed frame takes gives the answer and the state, tools cache included, of `SocketResult` |
| MpcServer.Server.SocketAgents | cathedral_orchestrator/orchestrator/mpc_server.py:672-700 | the agents branch gives the answer and the state of `SocketWrite` |
| MpcServer.Server.SocketResurrect | cathedral_orchestrator/orchestrator/mpc_server.py:672-692 | the `agents.resurrect` branch gives the answer and the state of `SocketWrite` |
| MpcServer.Server.SocketSession | cathedral_orchestrator/orchestrator/mpc_server.py:549-557 | the session branch's answer and state are those of `SocketWrite`; a handler exception closes the connection |
| MpcServer.Server.SocketMemory | cathedral_orchestrator/orchestrator/mpc_server.py:635-643 | the memory branch's answer and state are those of `SocketWrite`; a raising handler closes the connection |
| MpcServer.Server.Serve | cathedral_orchestrator/orchestrator/mpc_server.py:502-731 | replies to the frames in order, each a `SocketStep` of the state before (`SocketTrace`, tools cache included), until the first frame that raises, which closes the socket unanswered; every reply meets `SocketAnswers` |
| MpcServer.Server.ServeFrames | cathedral_orchestrator/orchestrator/mpc_server.py:502-731 | the loop of `mcp_socket` meets `SocketTrace` from the old state to the new, tools cache included |

## Left out

- I/O is not modelled: sockets, HTTP, SQLite, files, the voice TCP connection, logging and sleeping. Their answers are parameters (`World`, reply sequences, file contents), and a sleep is recorded as a number of seconds.
- The WebSocket accept, receive and send loops are not modelled. A frame is a parsed JSON object, and a frame that is not an object is not modelled.
- Floating point is not modelled: `temperature`, `top_p` and the float `ts` of a reply. Timestamps are integers, and only their order matters.
- `deepcopy` is not modelled because persona dictionaries are values. Sorting the persona directory is given by the file order passed in.
- The 4096-byte read size of the voice loop is not modelled; only the chunk sequence matters.
- Base64 encoding of the voice audio is not modelled; the reply carries the bytes.
- `lower()` is approximated by ASCII-only case folding, and `str()` of a list or dict by a fixed placeholder (`PyStr`).
- MpcServer.Server.HandleSession: session ids taken from a frame are stored as their `PyStr` text. The source binds them raw into SQLite (sessions.py:104-119). A dict or list id raises at binding, and `handle` answers that error. A bool binds as 1 or 0, not as "True". The model stores the rendered text instead.
- MpcServer.CreatePersonaAsWritten: it takes the requested id as text. As written a number or bool id is also kept and stored raw, since `get` falls back to `default` for it; the intended `CreatePersona` stores `default`.
- EnvFile.ReadEnvFile: JavaScript objects enumerate integer-like keys first, in ascending order, and `out[k] = v` with the key `__proto__` stores nothing. The model treats both as ordinary keys appended in file order.
- Routing.Settings.SetOptions: as written the request always raises when it rebuilds the Chroma client, because `ChromaConfig` takes no `mode` or `persist_dir`. The model's reply is the intended one; `SetOptionsAsWritten` states what the code does (see "## Findings").
- MpcServer.CollectionObtained: for a name that is not blank and a client with a base URL (`World.chromaBase`), the collection id obtained is a parameter (`World.ensured`). It stands for `ChromaClient.ensure_collection`'s answer and is not tied to `Chroma.EnsureSpec`.
- MpcServer.MemoryUpsert: whether the retrying upsert succeeds is the parameter `World.upsertOk`. It stands for `ChromaClient.upsert`'s posts and is not tied to `Chroma.UpsertSpec`; the base-URL check and the argument conversion before the posts are modelled.
- MpcServer.SessionOutcome: a create stores the intended persona (`CreatePersona`: the requested one when it exists, else `default`). As written an unknown id is stored as requested (mpc_server.py:337-355), which `CreatePersonaAsWritten` and `UnknownPersonaStoredAsWritten` state (see "## Findings"). `HandleStep` and `SocketStep` inherit the intended persona.
- MpcServer.Server.HandleSession: it is proved equal to `SessionOutcome`, so it stores the intended persona, not the unknown id the code stores; `UnknownPersonaStoredAsWritten` states the code.
- MpcServer.Server.ToolsListCached: a cache miss serves `World.services` (the intended `CacheLookup`). As written the miss raises AttributeError at mpc_server.py:95, which `ToolsListAsWritten` and `ToolsListFailsAsWritten` state (see "## Findings"). The `tools.list` and `agents.list` branches of `HandleStep` and the `agents.list` branch of `SocketStep` inherit the intended cache.
- Text.SplitLines: the last piece keeps a trailing carriage return, as JavaScript's `split(/\r?\n/)` does; `trim` then removes it.
- MpcServer.AgentRecord: the chat parameters `temperature` 0.7 and `top_p` 0.9 are floats in the source; the record carries them as the text "0.7" and "0.9", since floats are not modelled.
- MpcServer.AgentsOutcome: the `agents.list` tools come from the intended cache (`CacheLookup` over `World.services`). As written the listing raises, which `AgentsListAsWritten` states (see "## Findings").
- `update_chroma` and `update_collection_name_provider` are modelled as provider answers (`World.chromaAvailable`, `World.collectionName`), not as setter calls.
- `main.py` is not modelled in two places. The embeddings handler calls `chroma.upsert` without a collection id (main.py:246), and `/health` does not await `chroma.health()` (main.py:120). The model covers only the records the handler builds.
- Chroma.EnsureRequestOrder: `ensure_collection` always tries v2 first, whatever the preferred generation. The model follows the code.
- Routing.Settings.constructor: the import-time `ToolBridge(allowed_domains=…)` raises when the configured allow-list holds an unhashable item, and the import-time `ChromaConfig(mode=…)` raises in any case; the constructor models the intended start-up and gives an empty allow-list for an unusable one.
- Routing.DomainSet: a list's hashable non-string items (numbers, booleans, None) stay out of the modelled set of strings; they can never match a domain name.
- Routing.Settings.SetOptions: a posted `temperature` or `top_p` that `float()` rejects would abort the request after the earlier settings are reassigned. Floats are not modelled, so the model treats both as converting.
- Routing.SameModelListedTwice: `/v1/models` does not de-duplicate; the model follows the code.
- Sse.UpstreamDoneRepeated: the relay always appends `[DONE]`, even after an upstream one; the model follows the code.
- EnvFile.SerializeRoundTrip: the reader never undoes the writer's `\"` escape. The round trip is therefore proved only for values without `"`, and `EscapedQuoteNotUndone` shows the failure.
- MpcServer.Server.HandleSession: when a resumed row already has host and collection, the reply carries the row as read before the touch. The model states this through `ResumeReplyRow`.

## Findings

| source | as written | input that shows it | evidently intended | confidence | as-written member | corrected member |
|---|---|---|---|---|---|---|
| cathedral_orchestrator/orchestrator/mpc_server.py:95 | `_tools_list_cached` calls `self.tb.list_services()`, but `ToolBridge` defines no such method, so every `tools.list` on a cold cache answers an error, and every `agents.list` on a cold cache raises it (`handle` answers an error, `mcp_socket` closes the connection) | a first `tools.list` or `agents.list` frame | return the service list and cache it for 300 seconds | not executed | MpcServer.ToolsListFailsAsWritten | MpcServer.CacheServesWithinTtl |
| cathedral_orchestrator/orchestrator/mpc_server.py:337-347 | `session.create` checks for an unknown persona with `get()`, which already falls back to `default`, so the check never fires and the unknown id is stored on the session | `persona_id: "ghost"` with only `default` loaded | store `default` when the requested persona does not exist | not executed | MpcServer.UnknownPersonaStoredAsWritten | MpcServer.CreatePersona |
| cathedral_orchestrator/orchestrator/main.py:147-154 | `api_set_options` builds `ChromaConfig(mode=…, url=…, collection_name=…, persist_dir=…)`, but `ChromaConfig` declares only `url` and `collection_name`, so every request raises TypeError after the settings are reassigned, and the Chroma client is never replaced (an allow-list holding an unhashable item raises earlier, at `set()`) | any POST to `/api/options` whose `allowed_domains` is a list of strings | apply the options, rebuild the client and answer `{"ok": true, "applied": …}` | not executed | Routing.SetOptionsAsWritten | Routing.Settings.SetOptions |
