/** The vector-store client: a cache from collection name to collection id
    and a flag saying whether the server's v2 API is preferred, updated by
    the health probe, by collection lookup/creation and by the upsert retry
    loop. The HTTP server is an oracle: the n-th request sent receives the
    n-th reply of `replies` (a transport error once they run out), and the
    methods return the requests they sent and the back-off sleeps taken. */
module Chroma {
  import opened Values
  import opened Text

  datatype Verb = HttpGet | HttpPost

  /** One HTTP request: verb, URL, query parameters and JSON body. */
  datatype Request = Request(verb: Verb, url: string, query: Dict<string, string>, body: Json)

  /** A reply: the request raised, or a status with a body that parsed as JSON
      (None when `resp.json()` would raise). */
  datatype Reply = TransportError | Response(status: int, body: Option<Json>)

  function ReplyAt(replies: seq<Reply>, i: nat): Reply
  {
    if i < |replies| then replies[i] else TransportError
  }

  /** `_should_fallback`: the statuses a server of the other API generation
      answers with. */
  predicate ShouldFallback(status: int)
  {
    status in {404, 405, 410, 422}
  }

  lemma ShouldFallbackExactly(status: int)
    ensures ShouldFallback(status) <==> status == 404 || status == 405 || status == 410 || status == 422
  {
  }

  /** `config.url or ""` with every trailing '/' removed. */
  function BaseUrlOf(url: string): (b: string)
    ensures b == [] || b[|b| - 1] != '/'
    ensures StartsWith(url, b) && forall i :: |b| <= i < |url| ==> url[i] == '/'
  {
    RStripChar(url, '/')
  }

  datatype Gen = V1 | V2

  /** `_v2(path)` / `_v1(path)`. */
  function GenUrl(base: string, gen: Gen, path: string): string
  {
    base + (if gen == V2 then "/api/v2" else "/api/v1") + path
  }

  // ---- health ------------------------------------------------------------------

  predicate Healthy(r: Reply)
  {
    r.Response? && 200 <= r.status < 400
  }

  function Heartbeat(base: string, gen: Gen): Request
  {
    Request(HttpGet, GenUrl(base, gen, "/heartbeat"), [], JNull)
  }

  // ---- collections ---------------------------------------------------------------

  /** `(name or config.collection_name or "").strip()`. */
  function TargetName(name: Option<string>, default: string): (t: string)
    ensures t == [] || (!PySpace(t[0]) && !PySpace(t[|t| - 1]))
  {
    Trim(Py, if name.Some? && name.value != "" then name.value else default)
  }

  /** `data.get("id") or (data.get("collection") or {}).get("id")` on
      `resp.json() or {}`, as a string when truthy. None also covers the
      cases where the expression raises (a body that is not JSON, or not an
      object), which the caller catches. */
  function ExtractId(body: Option<Json>): (id: Option<string>)
    ensures id.Some? ==> id.value != ""
  {
    if body.None? then None
    else
      match PyOr(body.value, EmptyObj)
      case JObj(f) =>
        var direct := Get(f, "id");
        if Truthy(direct) then PyStrTruthy(direct); Some(PyStr(direct))
        else
          (match PyOr(Get(f, "collection"), EmptyObj)
           case JObj(c) =>
             var nested := Get(c, "id");
             if Truthy(nested) then PyStrTruthy(nested); Some(PyStr(nested)) else None
           case _ => None)
      case _ => None
  }

  /** The id carried by a lookup reply (status 200) or a create reply (200 or 201). */
  function IdFrom(r: Reply, created: bool): (id: Option<string>)
    ensures id.Some? ==> r.Response? && (r.status == 200 || (created && r.status == 201)) && id == ExtractId(r.body)
    ensures id.Some? ==> id.value != ""
  {
    match r
    case TransportError => None
    case Response(status, body) => if status == 200 || (created && status == 201) then ExtractId(body) else None
  }

  function LookupRequest(base: string, gen: Gen, target: string): Request
  {
    if gen == V2 then Request(HttpGet, GenUrl(base, V2, "/collections/by_name"), [("name", target)], JNull)
    else Request(HttpGet, GenUrl(base, V1, "/collections/" + target), [], JNull)
  }

  function CreateRequest(base: string, gen: Gen, target: string): Request
  {
    Request(HttpPost, GenUrl(base, gen, "/collections"), [],
            if gen == V2 then JObj([("name", JStr(target)), ("metadata", EmptyObj)])
            else JObj([("name", JStr(target))]))
  }

  datatype Tried = Tried(id: Option<string>, sent: seq<Request>)

  /** One generation's attempt, answered from position `pos` of the replies:
      look the collection up, and create it when the lookup gave no id. */
  function TryGen(base: string, gen: Gen, target: string, replies: seq<Reply>, pos: nat): (t: Tried)
    ensures t.id.Some? ==> t.id.value != ""
    ensures t.sent == [LookupRequest(base, gen, target)]
         || t.sent == [LookupRequest(base, gen, target), CreateRequest(base, gen, target)]
    ensures |t.sent| == 1 <==> IdFrom(ReplyAt(replies, pos), false).Some?
  {
    var found := IdFrom(ReplyAt(replies, pos), false);
    if found.Some? then Tried(found, [LookupRequest(base, gen, target)])
    else
      Tried(IdFrom(ReplyAt(replies, pos + 1), true),
            [LookupRequest(base, gen, target), CreateRequest(base, gen, target)])
  }

  datatype Ensured = Ensured(result: Option<string>, cache: map<string, string>, preferV2: Option<bool>, sent: seq<Request>)

  /** `ensure_collection` after the target name is known: what it returns, the
      cache and flag it leaves (None: flag unchanged) and the requests sent. */
  function EnsureSpec(base: string, target: string, cache: map<string, string>, replies: seq<Reply>): Ensured
  {
    if target == "" || base == "" then Ensured(None, cache, None, [])
    else if target in cache && cache[target] != "" then Ensured(Some(cache[target]), cache, None, [])
    else
      var t2 := TryGen(base, V2, target, replies, 0);
      if t2.id.Some? then Ensured(t2.id, cache[target := t2.id.value], Some(true), t2.sent)
      else
        var t1 := TryGen(base, V1, target, replies, |t2.sent|);
        if t1.id.Some? then Ensured(t1.id, cache[target := t1.id.value], Some(false), t2.sent + t1.sent)
        else Ensured(None, cache, None, t2.sent + t1.sent)
  }

  predicate NonEmptyEntries(cache: map<string, string>)
  {
    forall n :: n in cache ==> n != "" && cache[n] != ""
  }

  /** The cache only grows: an entry, once present, is never removed or
      changed, and the only entry ever added is the target's. */
  lemma EnsureCacheMonotone(base: string, target: string, cache: map<string, string>, replies: seq<Reply>)
    requires NonEmptyEntries(cache)
    ensures var e := EnsureSpec(base, target, cache, replies);
      NonEmptyEntries(e.cache)
      && (forall n :: n in cache ==> n in e.cache && e.cache[n] == cache[n])
      && e.cache.Keys <= cache.Keys + {target}
  {
  }

  /** A returned id is the cache entry for the target. */
  lemma EnsureResultCached(base: string, target: string, cache: map<string, string>, replies: seq<Reply>)
    requires NonEmptyEntries(cache)
    ensures var e := EnsureSpec(base, target, cache, replies);
      e.result.Some? ==> target in e.cache && e.cache[target] == e.result.value
  {
  }

  /** A cache hit, an empty target or an empty base sends nothing; otherwise
      the v2 lookup always goes first (whatever the flag), and v1 is tried,
      lookup first, only when v2 yielded no id. */
  lemma EnsureRequestOrder(base: string, target: string, cache: map<string, string>, replies: seq<Reply>)
    ensures var e := EnsureSpec(base, target, cache, replies);
      ((target == "" || base == "" || (target in cache && cache[target] != "")) <==> e.sent == [])
      && (e.sent != [] ==> e.sent[0] == LookupRequest(base, V2, target))
      && (forall i :: 0 <= i < |e.sent| && e.sent[i] == LookupRequest(base, V1, target) ==>
            i >= 1 && TryGen(base, V2, target, replies, 0).id.None?)
  {
    var e := EnsureSpec(base, target, cache, replies);
    if e.sent != [] {
      var t2 := TryGen(base, V2, target, replies, 0);
      assert LookupRequest(base, V1, target) != LookupRequest(base, V2, target) by {
        assert LookupRequest(base, V1, target).query != LookupRequest(base, V2, target).query;
      }
      assert LookupRequest(base, V1, target) != CreateRequest(base, V2, target) by {
        assert LookupRequest(base, V1, target).verb != CreateRequest(base, V2, target).verb;
      }
      assert forall i :: 0 <= i < |t2.sent| ==> t2.sent[i] != LookupRequest(base, V1, target);
    }
  }

  // ---- upserts -------------------------------------------------------------------

  /** The upsert body: ids, documents and metadatas, and embeddings only when
      given. */
  function UpsertPayload(ids: seq<string>, documents: seq<string>, metadatas: seq<Json>,
                         embeddings: Option<Json>): (p: Json)
    ensures p.JObj? && (HasKey(p.fields, "embeddings") <==> embeddings.Some?)
    ensures p.JObj? && Get(p.fields, "ids") == JArr(seq(|ids|, i requires 0 <= i < |ids| => JStr(ids[i])))
  {
    var base := [("ids", JArr(seq(|ids|, i requires 0 <= i < |ids| => JStr(ids[i])))),
                 ("documents", JArr(seq(|documents|, i requires 0 <= i < |documents| => JStr(documents[i])))),
                 ("metadatas", JArr(metadatas))];
    var fields := if embeddings.Some? then base + [("embeddings", embeddings.value)] else base;
    assert fields[0].0 == "ids";
    assert HasKey(fields, "embeddings") ==> embeddings.Some? by {
      if HasKey(fields, "embeddings") {
        var i :| 0 <= i < |fields| && fields[i].0 == "embeddings";
        assert i == 3;
      }
    }
    assert embeddings.Some? ==> fields[3].0 == "embeddings";
    JObj(fields)
  }

  function AddRequest(base: string, gen: Gen, collectionId: string, payload: Json): Request
  {
    Request(HttpPost, GenUrl(base, gen, "/collections/" + collectionId + "/add"), [], payload)
  }

  /** The status an attempt sees: 0 stands for the None of a transport error,
      and is falsy like it. */
  function StatusOf(r: Reply): int
  {
    if r.Response? then r.status else 0
  }

  predicate Succeeded(r: Reply)
  {
    StatusOf(r) != 0 && 200 <= StatusOf(r) < 300
  }

  predicate FallsBack(r: Reply)
  {
    StatusOf(r) != 0 && ShouldFallback(StatusOf(r))
  }

  /** `min(2 ** attempt, 5)`: the powers 1, 2 and 4 below attempt 3, and 5
      from there on, where 2 ** attempt is at least 8. */
  function Backoff(attempt: nat): int
  {
    if attempt < 3 then [1, 2, 4][attempt] else 5
  }

  lemma BackoffSchedule()
    ensures [Backoff(1), Backoff(2), Backoff(3)] == [2, 4, 5]
  {
  }

  datatype Attempt = Attempt(done: bool, preferV2: bool, sent: seq<Request>)

  /** One attempt, answered from position `pos` of the replies: v2 when
      preferred (a fallback status clears the flag), then v1 (a fallback
      status sets it); done at the first 2xx. */
  function OneAttempt(preferV2: bool, base: string, cid: string, payload: Json, replies: seq<Reply>, pos: nat): (a: Attempt)
    ensures 1 <= |a.sent| <= 2
    ensures forall j :: pos <= j < pos + |a.sent| - 1 ==> !Succeeded(ReplyAt(replies, j))
    ensures a.done <==> Succeeded(ReplyAt(replies, pos + |a.sent| - 1))
  {
    if preferV2 then
      var r2 := ReplyAt(replies, pos);
      if Succeeded(r2) then Attempt(true, true, [AddRequest(base, V2, cid, payload)])
      else
        var p := !FallsBack(r2);
        var r1 := ReplyAt(replies, pos + 1);
        var sent := [AddRequest(base, V2, cid, payload), AddRequest(base, V1, cid, payload)];
        if Succeeded(r1) then Attempt(true, p, sent)
        else Attempt(false, if FallsBack(r1) then true else p, sent)
    else
      var r1 := ReplyAt(replies, pos);
      var sent := [AddRequest(base, V1, cid, payload)];
      if Succeeded(r1) then Attempt(true, false, sent)
      else Attempt(false, FallsBack(r1), sent)
  }

  /** The state of the retry loop: the attempt under way (4 once all three
      failed), the preference, what was sent and slept so far, and whether a
      request succeeded. Replies are consumed in order, so the next one to
      read is at position `|sent|`. */
  datatype Retry = Retry(attempt: nat, preferV2: bool, sent: seq<Request>, sleeps: seq<int>, ok: bool)

  /** One turn of `for attempt in range(1, 4)`; a finished loop stays put. */
  function RetryStep(s: Retry, base: string, cid: string, payload: Json, replies: seq<Reply>): Retry
  {
    if s.ok || s.attempt >= 4 then s
    else
      var a := OneAttempt(s.preferV2, base, cid, payload, replies, |s.sent|);
      if a.done then Retry(s.attempt, a.preferV2, s.sent + a.sent, s.sleeps, true)
      else Retry(s.attempt + 1, a.preferV2, s.sent + a.sent, s.sleeps + [Backoff(s.attempt)], false)
  }

  /** The loop after `n` turns, from attempt 1 with the given preference. */
  function RetryTurns(n: nat, preferV2: bool, base: string, cid: string, payload: Json, replies: seq<Reply>): Retry
  {
    if n == 0 then Retry(1, preferV2, [], [], false)
    else RetryStep(RetryTurns(n - 1, preferV2, base, cid, payload, replies), base, cid, payload, replies)
  }

  /** `upsert`: nothing is sent when the base URL or the collection id is
      empty; otherwise the three-attempt loop runs. */
  function UpsertSpec(base: string, cid: string, payload: Json, preferV2: bool, replies: seq<Reply>): Retry
  {
    if base == "" || cid == "" then Retry(1, preferV2, [], [], false)
    else RetryTurns(3, preferV2, base, cid, payload, replies)
  }

  /** What holds of the loop at every turn: each reply before the last one
      was a failure, `ok` says whether the last one succeeded, each failed
      attempt sent at least one and at most two requests and slept its
      back-off. */
  ghost predicate RetryInv(s: Retry, replies: seq<Reply>)
  {
    var made := if s.ok then s.attempt else s.attempt - 1;
    1 <= s.attempt <= 4
    && (s.ok ==> s.attempt <= 3)
    && s.attempt - 1 <= |s.sent| <= 2 * made
    && |s.sleeps| == s.attempt - 1
    && (forall i :: 0 <= i < |s.sleeps| ==> s.sleeps[i] == Backoff(i + 1))
    && (forall j :: 0 <= j < |s.sent| - 1 ==> !Succeeded(ReplyAt(replies, j)))
    && (s.ok <==> |s.sent| > 0 && Succeeded(ReplyAt(replies, |s.sent| - 1)))
  }

  lemma SleepsSnoc(sleeps: seq<int>, attempt: nat)
    requires |sleeps| == attempt - 1
    requires forall i :: 0 <= i < |sleeps| ==> sleeps[i] == Backoff(i + 1)
    ensures forall i :: 0 <= i < |sleeps + [Backoff(attempt)]| ==> (sleeps + [Backoff(attempt)])[i] == Backoff(i + 1)
  {
  }

  /** Every turn of the loop keeps the invariant. */
  lemma RetryStepKeeps(s: Retry, base: string, cid: string, payload: Json, replies: seq<Reply>)
    requires RetryInv(s, replies)
    ensures RetryInv(RetryStep(s, base, cid, payload, replies), replies)
  {
    if !s.ok && s.attempt < 4 {
      var a := OneAttempt(s.preferV2, base, cid, payload, replies, |s.sent|);
      var t := RetryStep(s, base, cid, payload, replies);
      assert t.sent == s.sent + a.sent;
      if !a.done {
        SleepsSnoc(s.sleeps, s.attempt);
      }
      forall j | 0 <= j < |t.sent| - 1 ensures !Succeeded(ReplyAt(replies, j)) {
        if j == |s.sent| - 1 {
          assert !s.ok;
        }
      }
    }
  }

  /** After `n` turns the invariant holds, and the loop has either succeeded
      or reached attempt `n + 1`. */
  lemma {:induction false} RetryTurnsInv(n: nat, preferV2: bool, base: string, cid: string, payload: Json, replies: seq<Reply>)
    ensures var s := RetryTurns(n, preferV2, base, cid, payload, replies);
      RetryInv(s, replies) && (s.ok || s.attempt == if n < 3 then n + 1 else 4)
  {
    if n > 0 {
      RetryTurnsInv(n - 1, preferV2, base, cid, payload, replies);
      RetryStepKeeps(RetryTurns(n - 1, preferV2, base, cid, payload, replies), base, cid, payload, replies);
    }
  }

  /** The whole retry loop: at most three attempts and six requests; a failed
      upsert made all three and slept 2, 4 and 5 seconds (the last sleep
      before giving up); a successful one slept before each retry only. */
  lemma UpsertBounds(base: string, cid: string, payload: Json, preferV2: bool, replies: seq<Reply>)
    ensures var o := UpsertSpec(base, cid, payload, preferV2, replies);
      |o.sent| <= 6
      && (base == "" || cid == "" ==> !o.ok && o.sent == [] && o.sleeps == [] && o.preferV2 == preferV2)
      && (base != "" && cid != "" && !o.ok ==> o.attempt == 4 && o.sleeps == [2, 4, 5] && |o.sent| >= 3)
      && (o.ok ==> 1 <= o.attempt <= 3 && |o.sleeps| == o.attempt - 1 && o.sleeps == [2, 4, 5][..|o.sleeps|])
  {
    var o := UpsertSpec(base, cid, payload, preferV2, replies);
    if base != "" && cid != "" {
      RetryTurnsInv(3, preferV2, base, cid, payload, replies);
      BackoffSchedule();
      forall i | 0 <= i < |o.sleeps| ensures o.sleeps[i] == [2, 4, 5][i] {
        assert o.sleeps[i] == Backoff(i + 1);
      }
    }
  }

  /** Upsert answers True exactly when a request got a 2xx, and stops at the
      first one: every earlier reply failed. */
  lemma UpsertStopsAtFirstSuccess(base: string, cid: string, payload: Json, preferV2: bool, replies: seq<Reply>)
    ensures var o := UpsertSpec(base, cid, payload, preferV2, replies);
      (forall i :: 0 <= i < |o.sent| - 1 ==> !Succeeded(ReplyAt(replies, i)))
      && (o.ok <==> |o.sent| > 0 && Succeeded(ReplyAt(replies, |o.sent| - 1)))
  {
    if base != "" && cid != "" {
      RetryTurnsInv(3, preferV2, base, cid, payload, replies);
    }
  }

  /** A finished loop turns no further. */
  lemma {:induction false} RetryTurnsSettle(n: nat, m: nat, preferV2: bool, base: string, cid: string, payload: Json,
                                            replies: seq<Reply>)
    requires n <= m
    requires var s := RetryTurns(n, preferV2, base, cid, payload, replies); s.ok || s.attempt >= 4
    ensures RetryTurns(m, preferV2, base, cid, payload, replies) == RetryTurns(n, preferV2, base, cid, payload, replies)
    decreases m - n
  {
    if n < m {
      RetryTurnsSettle(n, m - 1, preferV2, base, cid, payload, replies);
    }
  }

  /** A turn that succeeds ends the loop with what it sent. */
  lemma UpsertReturns(attempt: nat, s: Retry, preferV2: bool, base: string, cid: string, payload: Json,
                      replies: seq<Reply>)
    requires 1 <= attempt <= 3 && s.attempt == attempt && !s.ok
    requires RetryTurns(attempt - 1, preferV2, base, cid, payload, replies) == s
    requires OneAttempt(s.preferV2, base, cid, payload, replies, |s.sent|).done
    ensures var a := OneAttempt(s.preferV2, base, cid, payload, replies, |s.sent|);
      RetryTurns(3, preferV2, base, cid, payload, replies) == Retry(attempt, a.preferV2, s.sent + a.sent, s.sleeps, true)
  {
    RetryTurnsSettle(attempt, 3, preferV2, base, cid, payload, replies);
  }

  /** A turn that fails moves the loop to the next attempt. */
  lemma UpsertRetries(attempt: nat, s: Retry, preferV2: bool, base: string, cid: string, payload: Json,
                      replies: seq<Reply>)
    requires 1 <= attempt <= 3 && s.attempt == attempt && !s.ok
    requires RetryTurns(attempt - 1, preferV2, base, cid, payload, replies) == s
    requires !OneAttempt(s.preferV2, base, cid, payload, replies, |s.sent|).done
    ensures var a := OneAttempt(s.preferV2, base, cid, payload, replies, |s.sent|);
      RetryTurns(attempt, preferV2, base, cid, payload, replies)
      == Retry(attempt + 1, a.preferV2, s.sent + a.sent, s.sleeps + [Backoff(attempt)], false)
  {
  }

  /** Against a server that answers 404 to everything, starting from v2: each
      attempt tries v2, falls back to v1, and sets the flag back, so all six
      requests go out alternately and the flag ends where it began. */
  lemma AllNotFoundOscillates(base: string, cid: string, payload: Json, replies: seq<Reply>)
    requires base != "" && cid != ""
    requires forall i :: 0 <= i < |replies| ==> replies[i] == Response(404, None)
    requires |replies| >= 6
    ensures var o := UpsertSpec(base, cid, payload, true, replies);
      !o.ok && o.preferV2
      && o.sent == [AddRequest(base, V2, cid, payload), AddRequest(base, V1, cid, payload),
                    AddRequest(base, V2, cid, payload), AddRequest(base, V1, cid, payload),
                    AddRequest(base, V2, cid, payload), AddRequest(base, V1, cid, payload)]
  {
    var r := Response(404, None);
    assert FallsBack(r) && !Succeeded(r);
    var pair := [AddRequest(base, V2, cid, payload), AddRequest(base, V1, cid, payload)];
    assert ReplyAt(replies, 0) == r && ReplyAt(replies, 1) == r;
    var s1 := RetryTurns(1, true, base, cid, payload, replies);
    assert OneAttempt(true, base, cid, payload, replies, 0) == Attempt(false, true, pair);
    assert RetryTurns(0, true, base, cid, payload, replies) == Retry(1, true, [], [], false);
    assert [] + pair == pair && [] + [Backoff(1)] == [Backoff(1)];
    assert s1 == Retry(2, true, pair, [Backoff(1)], false);
    assert ReplyAt(replies, 2) == r && ReplyAt(replies, 3) == r;
    var s2 := RetryTurns(2, true, base, cid, payload, replies);
    assert OneAttempt(true, base, cid, payload, replies, 2) == Attempt(false, true, pair);
    assert s2 == Retry(3, true, pair + pair, [Backoff(1), Backoff(2)], false);
    assert ReplyAt(replies, 4) == r && ReplyAt(replies, 5) == r;
    assert OneAttempt(true, base, cid, payload, replies, 4) == Attempt(false, true, pair);
  }

  // ---- the client ------------------------------------------------------------------

  class ChromaClient {
    const url: string
    const collectionName: string
    var cache: map<string, string>
    var preferV2: bool

    ghost predicate Valid()
      reads this
    {
      NonEmptyEntries(cache)
    }

    constructor(url: string, collectionName: string)
      ensures Valid() && cache == map[] && preferV2
      ensures this.url == url && this.collectionName == collectionName
    {
      this.url := url;
      this.collectionName := collectionName;
      cache := map[];
      preferV2 := true;
    }

    function BaseUrl(): string
    {
      BaseUrlOf(url)
    }

    /** `health`: the v2 heartbeat, then the v1 heartbeat; the first one that
        answers 2xx/3xx decides the flag. */
    method Health(replies: seq<Reply>) returns (ok: bool, sent: seq<Request>)
      modifies this
      ensures cache == old(cache)
      ensures ok <==> BaseUrl() != "" && (Healthy(ReplyAt(replies, 0)) || Healthy(ReplyAt(replies, 1)))
      ensures ok ==> preferV2 == Healthy(ReplyAt(replies, 0))
      ensures !ok ==> preferV2 == old(preferV2)
      ensures BaseUrl() == "" ==> sent == []
      ensures BaseUrl() != "" ==> sent == if Healthy(ReplyAt(replies, 0)) then [Heartbeat(BaseUrl(), V2)]
                                         else [Heartbeat(BaseUrl(), V2), Heartbeat(BaseUrl(), V1)]
    {
      var base := BaseUrl();
      sent := [];
      if base == "" {
        return false, sent;
      }
      sent := sent + [Heartbeat(base, V2)];
      var r := ReplyAt(replies, 0);
      if r.Response? && 200 <= r.status < 400 {
        preferV2 := true;
        return true, sent;
      }
      sent := sent + [Heartbeat(base, V1)];
      r := ReplyAt(replies, 1);
      if r.Response? && 200 <= r.status < 400 {
        preferV2 := false;
        return true, sent;
      }
      ok := false;
    }

    /** `_ensure_collection_v2` / `_ensure_collection_v1`: look up, else create;
        a non-empty id is cached and sets the flag to the generation used. */
    method EnsureGen(gen: Gen, target: string, replies: seq<Reply>, pos: nat) returns (ok: bool, sent: seq<Request>)
      requires Valid() && target != "" && BaseUrl() != ""
      modifies this
      ensures Valid()
      ensures var t := TryGen(BaseUrl(), gen, target, replies, pos);
        ok == t.id.Some? && sent == t.sent
        && cache == (if ok then old(cache)[target := t.id.value] else old(cache))
        && preferV2 == (if ok then gen == V2 else old(preferV2))
    {
      var base := BaseUrl();
      sent := [LookupRequest(base, gen, target)];
      var id := IdFrom(ReplyAt(replies, pos), false);
      if id.None? {
        sent := sent + [CreateRequest(base, gen, target)];
        id := IdFrom(ReplyAt(replies, pos + 1), true);
      }
      ok := id.Some?;
      if ok {
        cache := cache[target := id.value];
        preferV2 := gen == V2;
      }
    }

    /** `ensure_collection`. */
    method EnsureCollection(name: Option<string>, replies: seq<Reply>) returns (result: Option<string>, sent: seq<Request>)
      requires Valid()
      modifies this
      ensures Valid()
      ensures var e := EnsureSpec(BaseUrl(), TargetName(name, collectionName), old(cache), replies);
        result == e.result && cache == e.cache && sent == e.sent
        && preferV2 == (if e.preferV2.Some? then e.preferV2.value else old(preferV2))
    {
      var target := TargetName(name, collectionName);
      sent := [];
      if target == "" {
        return None, sent;
      }
      var base := BaseUrl();
      if base == "" {
        return None, sent;
      }
      if target in cache && cache[target] != "" {
        return Some(cache[target]), sent;
      }
      var ok, sent2 := EnsureGen(V2, target, replies, 0);
      sent := sent2;
      if ok {
        return Some(cache[target]), sent;
      }
      var sent1;
      ok, sent1 := EnsureGen(V1, target, replies, |sent2|);
      sent := sent + sent1;
      if ok {
        return Some(cache[target]), sent;
      }
      result := None;
    }

    /** One pass of the loop body: post to v2 when preferred, then to v1,
        flipping the preference on a fallback status. */
    method AttemptOnce(base: string, cid: string, payload: Json, replies: seq<Reply>, pos: nat)
      returns (done: bool, posted: seq<Request>)
      modifies this
      ensures cache == old(cache)
      ensures var a := OneAttempt(old(preferV2), base, cid, payload, replies, pos);
        done == a.done && posted == a.sent && preferV2 == a.preferV2
    {
      posted := [];
      var at := pos;
      if preferV2 {
        var status := StatusOf(ReplyAt(replies, at));
        at := at + 1;
        posted := posted + [AddRequest(base, V2, cid, payload)];
        if status != 0 && 200 <= status < 300 {
          return true, posted;
        }
        if status != 0 && ShouldFallback(status) {
          preferV2 := false;
        }
      }
      var status := StatusOf(ReplyAt(replies, at));
      posted := posted + [AddRequest(base, V1, cid, payload)];
      if status != 0 && 200 <= status < 300 {
        return true, posted;
      }
      if status != 0 && ShouldFallback(status) {
        preferV2 := true;
      }
      done := false;
    }

    /** `for attempt in range(1, 4)`, with a back-off sleep after each failed
        attempt. */
    method RetryLoop(base: string, collectionId: string, payload: Json, replies: seq<Reply>)
      returns (ok: bool, sent: seq<Request>, sleeps: seq<int>)
      modifies this
      ensures cache == old(cache)
      ensures var o := RetryTurns(3, old(preferV2), base, collectionId, payload, replies);
        ok == o.ok && sent == o.sent && sleeps == o.sleeps && preferV2 == o.preferV2
    {
      sent, sleeps := [], [];
      ghost var prefer0 := preferV2;
      var attempt := 1;
      while attempt < 4
        invariant 1 <= attempt <= 4 && cache == old(cache)
        invariant RetryTurns(attempt - 1, prefer0, base, collectionId, payload, replies)
               == Retry(attempt, preferV2, sent, sleeps, false)
        decreases 4 - attempt
      {
        ghost var s := Retry(attempt, preferV2, sent, sleeps, false);
        var done, posted := AttemptOnce(base, collectionId, payload, replies, |sent|);
        sent := sent + posted;
        if done {
          UpsertReturns(attempt, s, prefer0, base, collectionId, payload, replies);
          return true, sent, sleeps;
        }
        UpsertRetries(attempt, s, prefer0, base, collectionId, payload, replies);
        sleeps := sleeps + [Backoff(attempt)];
        attempt := attempt + 1;
      }
      ok := false;
    }

    /** `upsert`: the bounded retry loop, skipped when the base URL or the
        collection id is empty. */
    method Upsert(collectionId: string, ids: seq<string>, documents: seq<string>, metadatas: seq<Json>,
                  embeddings: Option<Json>, replies: seq<Reply>)
      returns (ok: bool, sent: seq<Request>, sleeps: seq<int>)
      modifies this
      ensures cache == old(cache)
      ensures var o := UpsertSpec(BaseUrl(), collectionId, UpsertPayload(ids, documents, metadatas, embeddings),
                                  old(preferV2), replies);
        ok == o.ok && sent == o.sent && sleeps == o.sleeps && preferV2 == o.preferV2
    {
      var base := BaseUrl();
      sent, sleeps := [], [];
      if base == "" || collectionId == "" {
        return false, sent, sleeps;
      }
      var payload := UpsertPayload(ids, documents, metadatas, embeddings);
      ok, sent, sleeps := RetryLoop(base, collectionId, payload, replies);
    }
  }
}
