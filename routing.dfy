/** The language-model gateway's routing helpers: the host option, the index
    from model to host, the choice of upstream for a request, the merged
    `/v1/models` listing, the documents stored beside returned embeddings,
    and the hot-applied options. Every upstream call is a parameter: a host's
    model list is given as the reply its `/v1/models` request got. */
module Routing {
  import opened Values
  import opened Text

  // ---- host option ----------------------------------------------------------

  /** The name given to the `i`-th host of a list: `f"h{i}"`. */
  function HostKey(i: nat): string
  {
    "h" + Decimal(i)
  }

  /** `_normalize_lm_hosts(raw)`: a dictionary becomes a copy with its values
      turned into text, a list is keyed `h0`, `h1`, ... in order, a string is
      the single host `primary`, and anything else gives no hosts. */
  function NormalizeLmHosts(raw: Json): (hosts: Dict<string, string>)
    ensures raw.JObj? ==> |hosts| == |raw.fields|
    ensures raw.JArr? ==> |hosts| == |raw.items|
    ensures raw.JObj? ==> forall i :: 0 <= i < |hosts| ==> hosts[i].0 == raw.fields[i].0
    ensures raw.JArr? ==> forall i :: 0 <= i < |hosts| ==> hosts[i].0 == HostKey(i)
    ensures raw.JStr? ==> hosts == [("primary", raw.s)]
    ensures !(raw.JObj? || raw.JArr? || raw.JStr?) ==> hosts == []
  {
    match raw
    case JObj(fields) => seq(|fields|, i requires 0 <= i < |fields| => (fields[i].0, PyStr(fields[i].1)))
    case JArr(items) => seq(|items|, i requires 0 <= i < |items| => (HostKey(i), PyStr(items[i])))
    case JStr(s) => [("primary", s)]
    case _ => []
  }

  /** Decimal digits determine the number they render. */
  lemma {:induction false} NatToBaseInjective(n: nat, m: nat)
    requires NatToBase(n, 10) == NatToBase(m, 10)
    ensures n == m
    decreases n
  {
    var s, t := NatToBase(n, 10), NatToBase(m, 10);
    if n < 10 && m < 10 {
      assert "0123456789abcdef"[n] == s[0] == t[0] == "0123456789abcdef"[m];
      DigitsDistinct(n, m);
    } else if n >= 10 && m >= 10 {
      var p, q := NatToBase(n / 10, 10), NatToBase(m / 10, 10);
      assert s == p + [DigitChar(n % 10)] && t == q + [DigitChar(m % 10)];
      assert p == s[..|s| - 1] && q == t[..|t| - 1];
      assert s[|s| - 1] == DigitChar(n % 10) && t[|t| - 1] == DigitChar(m % 10);
      DigitsDistinct(n % 10, m % 10);
      NatToBaseInjective(n / 10, m / 10);
    }
  }

  lemma DigitsDistinct(d: nat, e: nat)
    requires d < 10 && e < 10 && "0123456789abcdef"[d] == "0123456789abcdef"[e]
    ensures d == e
  {
    var digits := "0123456789abcdef";
    assert forall i :: 0 <= i < 10 ==> digits[i] as int == '0' as int + i;
  }

  /** Different positions of a host list get different names. */
  lemma HostKeyInjective(i: nat, j: nat)
    requires HostKey(i) == HostKey(j)
    ensures i == j
  {
    assert HostKey(i)[1..] == Decimal(i) && HostKey(j)[1..] == Decimal(j);
    NatToBaseInjective(i, j);
  }

  /** A host list is named position by position, each name bound to the
      text of its entry, and no name is used twice. */
  lemma NormalizeListNames(items: seq<Json>)
    ensures var hosts := NormalizeLmHosts(JArr(items));
      DistinctKeys(hosts)
      && forall i :: 0 <= i < |items| ==> Lookup(hosts, HostKey(i)) == Some(PyStr(items[i]))
  {
    var hosts := NormalizeLmHosts(JArr(items));
    forall i, j | 0 <= i < j < |hosts| ensures hosts[i].0 != hosts[j].0 {
      if hosts[i].0 == hosts[j].0 {
        HostKeyInjective(i, j);
      }
    }
    forall i | 0 <= i < |items| ensures Lookup(hosts, HostKey(i)) == Some(PyStr(items[i])) {
      LookupDistinct(hosts, i);
    }
  }

  /** A dictionary option keeps its names and its order, with every value
      rendered as text. */
  lemma NormalizeDictKeys(fields: seq<(string, Json)>)
    ensures var hosts := NormalizeLmHosts(JObj(fields));
      Keys(hosts) == Keys(fields)
      && (forall k :: Lookup(hosts, k).Some? <==> Lookup(fields, k).Some?)
      && (forall k :: Lookup(fields, k).Some? ==> Lookup(hosts, k) == Some(PyStr(Lookup(fields, k).value)))
  {
    var hosts := NormalizeLmHosts(JObj(fields));
    NormalizeDictLookup(fields);
  }

  lemma {:induction false} NormalizeDictLookup(fields: seq<(string, Json)>)
    ensures forall k :: (Lookup(NormalizeLmHosts(JObj(fields)), k) ==
                          if Lookup(fields, k).Some? then Some(PyStr(Lookup(fields, k).value)) else None)
  {
    var hosts := NormalizeLmHosts(JObj(fields));
    if fields != [] {
      NormalizeDictLookup(fields[1..]);
      assert hosts[1..] == NormalizeLmHosts(JObj(fields[1..]));
    }
  }

  /** Hosts written back as a JSON dictionary of strings. */
  function HostsJson(hosts: Dict<string, string>): (j: Json)
    ensures j.JObj? && |j.fields| == |hosts|
  {
    JObj(seq(|hosts|, i requires 0 <= i < |hosts| => (hosts[i].0, JStr(hosts[i].1))))
  }

  /** Normalising hosts that are already normalised changes nothing. */
  lemma NormalizeHostsJson(hosts: Dict<string, string>)
    ensures NormalizeLmHosts(HostsJson(hosts)) == hosts
  {
  }

  // ---- the model index ------------------------------------------------------

  /** `m.get("id") or m.get("name")` on a listed model: the name it is known
      by (falsy when it has neither). Only dicts get this far: `IndexProblem`
      rejects anything else first. */
  function ModelKey(m: Json): Json
  {
    if m.JObj? then PyOr(Get(m.fields, "id"), Get(m.fields, "name")) else JNull
  }

  /** A host and the models it listed, in host order. */
  type HostModels = seq<(string, seq<Json>)>

  /** Each configured host and the `data` value its `/v1/models` reply gave,
      in host order, before anything checks its shape. */
  type HostData = seq<(string, Json)>

  /** Some model of the list is known by a key equal to `k` as a dictionary
      key (`DictKey`). */
  predicate Lists(models: seq<Json>, k: Json)
  {
    exists j :: 0 <= j < |models| && DictKey(ModelKey(models[j])) == DictKey(k)
  }

  /** The reference meaning of the index: the first host, in host order,
      whose list names `k`. */
  function FirstHost(hms: HostModels, k: Json): (r: Option<string>)
    ensures r.None? <==> forall i :: 0 <= i < |hms| ==> !Lists(hms[i].1, k)
    ensures r.Some? ==> exists i :: (0 <= i < |hms| && hms[i].0 == r.value && Lists(hms[i].1, k)
                                     && forall i' :: 0 <= i' < i ==> !Lists(hms[i'].1, k))
  {
    if hms == [] then None
    else if Lists(hms[0].1, k) then Some(hms[0].0)
    else
      var r := FirstHost(hms[1..], k);
      assert forall i :: 0 < i < |hms| ==> hms[1..][i - 1] == hms[i];
      assert r.Some? ==> exists i :: (0 <= i < |hms[1..]| && hms[1..][i].0 == r.value && Lists(hms[1..][i].1, k)
                                      && forall i' :: 0 <= i' < i ==> !Lists(hms[1..][i'].1, k));
      r
  }

  /** One model offered to the index: a falsy key is skipped, a key already
      present keeps its host. Keys are held as `DictKey`s, so `true` finds
      an entry made for `1` and the reverse, as in a Python dict. */
  function AddModel(idx: Dict<Json, string>, base: string, m: Json): Dict<Json, string>
  {
    var k := DictKey(ModelKey(m));
    if !Truthy(k) || HasKey(idx, k) then idx else idx + [(k, base)]
  }

  function AddModels(idx: Dict<Json, string>, base: string, models: seq<Json>): Dict<Json, string>
  {
    if models == [] then idx
    else AddModel(AddModels(idx, base, models[..|models| - 1]), base, models[|models| - 1])
  }

  /** The index built host by host, model by model. */
  function ModelIndex(hms: HostModels): Dict<Json, string>
  {
    if hms == [] then []
    else AddModels(ModelIndex(hms[..|hms| - 1]), hms[|hms| - 1].0, hms[|hms| - 1].1)
  }

  /** Offering a host's models to an index leaves every present key alone and
      binds each new truthy key the host lists to that host. */
  lemma {:induction false} AddModelsLookup(idx: Dict<Json, string>, base: string, models: seq<Json>, k: Json)
    ensures Lookup(AddModels(idx, base, models), DictKey(k)) ==
      if HasKey(idx, DictKey(k)) then Lookup(idx, DictKey(k))
      else if Truthy(k) && Lists(models, k) then Some(base)
      else None
    decreases |models|
  {
    if models != [] {
      var init := models[..|models| - 1];
      var last := models[|models| - 1];
      var before := AddModels(idx, base, init);
      AddModelsLookup(idx, base, init, k);
      if Truthy(ModelKey(last)) && !HasKey(before, DictKey(ModelKey(last))) {
        LookupSnoc(before, DictKey(ModelKey(last)), base, DictKey(k));
      }
      ListsSnoc(models, k);
    }
  }

  /** A list names a key iff its prefix or its last model does. */
  lemma ListsSnoc(models: seq<Json>, k: Json)
    requires models != []
    ensures Lists(models, k) <==> Lists(models[..|models| - 1], k) || DictKey(ModelKey(models[|models| - 1])) == DictKey(k)
  {
    var init := models[..|models| - 1];
    if Lists(models, k) {
      var j :| 0 <= j < |models| && DictKey(ModelKey(models[j])) == DictKey(k);
      if j < |init| {
        assert init[j] == models[j];
      }
    }
    if Lists(init, k) {
      var j :| 0 <= j < |init| && DictKey(ModelKey(init[j])) == DictKey(k);
      assert models[j] == init[j];
    }
  }

  lemma {:induction false} AddModelsDistinct(idx: Dict<Json, string>, base: string, models: seq<Json>)
    requires DistinctKeys(idx)
    ensures DistinctKeys(AddModels(idx, base, models))
    decreases |models|
  {
    if models != [] {
      AddModelsDistinct(idx, base, models[..|models| - 1]);
    }
  }

  /** `build_model_index`: every truthy model key a host advertises is bound
      to the first host, in host order, that lists it or a key equal to it
      (`true` and `1` alike); no other key is present, and no key is present
      twice. */
  lemma {:induction false} ModelIndexFirstWins(hms: HostModels, k: Json)
    ensures DistinctKeys(ModelIndex(hms))
    ensures Lookup(ModelIndex(hms), DictKey(k)) == if Truthy(k) then FirstHost(hms, k) else None
    decreases |hms|
  {
    if hms != [] {
      var init := hms[..|hms| - 1];
      var last := hms[|hms| - 1];
      var prev := ModelIndex(init);
      assert ModelIndex(hms) == AddModels(prev, last.0, last.1);
      ModelIndexFirstWins(init, k);
      AddModelsDistinct(prev, last.0, last.1);
      AddModelsLookup(prev, last.0, last.1, k);
      assert FirstHost(hms, k) ==
        if FirstHost(init, k).Some? then FirstHost(init, k)
        else if Lists(last.1, k) then Some(last.0) else None by {
        assert init + [last] == hms;
        FirstHostSnoc(init, last, k);
      }
      assert HasKey(prev, DictKey(k)) <==> Lookup(prev, DictKey(k)).Some?;
    }
  }

  /** The first lister of a longer host list is the earlier one if there is
      one, else the new host when it lists the key. */
  lemma FirstHostSnoc(hms: HostModels, last: (string, seq<Json>), k: Json)
    ensures FirstHost(hms + [last], k) ==
      if FirstHost(hms, k).Some? then FirstHost(hms, k)
      else if Lists(last.1, k) then Some(last.0) else None
  {
    var all := hms + [last];
    var r := FirstHost(all, k);
    if FirstHost(hms, k).Some? {
      var i :| 0 <= i < |hms| && hms[i].0 == FirstHost(hms, k).value && Lists(hms[i].1, k)
        && forall i' :: 0 <= i' < i ==> !Lists(hms[i'].1, k);
      FirstHostAt(all, k, i);
      FirstHostAt(hms, k, i);
    } else if Lists(last.1, k) {
      assert all[|hms|] == last;
      FirstHostAt(all, k, |hms|);
    } else {
      assert forall i :: 0 <= i < |all| ==> !Lists(all[i].1, k) by {
        forall i | 0 <= i < |all| ensures !Lists(all[i].1, k) {
          if i < |hms| {
            assert all[i] == hms[i];
          }
        }
      }
    }
  }

  /** The first lister is determined by its position. */
  lemma {:induction false} FirstHostAt(hms: HostModels, k: Json, i: nat)
    requires i < |hms| && Lists(hms[i].1, k)
    requires forall i' :: 0 <= i' < i ==> !Lists(hms[i'].1, k)
    ensures FirstHost(hms, k) == Some(hms[i].0)
  {
    if i > 0 {
      assert hms[1..][i - 1] == hms[i];
      assert forall i' :: 0 <= i' < i - 1 ==> hms[1..][i'] == hms[i' + 1];
      FirstHostAt(hms[1..], k, i - 1);
    }
  }

  // ---- walking the hosts' data ------------------------------------------------

  function NoGet(m: Json): string
  {
    "'" + TypeName(m) + "' object has no attribute 'get'"
  }

  /** The exception `build_model_index` raises on reaching a model, if any:
      `m.get` on a value that is not a dict (AttributeError), or a truthy key
      that is a list or a dict, which `mid not in idx` cannot hash
      (TypeError). A dict whose key is falsy is skipped. */
  function IndexProblem(m: Json): Option<string>
  {
    if !m.JObj? then Some(NoGet(m))
    else if Truthy(ModelKey(m)) && !Hashable(ModelKey(m)) then Some(Unhashable(ModelKey(m)))
    else None
  }

  /** The exception raised at the first model of a list that the index loop
      cannot take, if any. */
  function FirstProblem(models: seq<Json>): Option<string>
  {
    if models == [] then None
    else if FirstProblem(models[..|models| - 1]).Some? then FirstProblem(models[..|models| - 1])
    else IndexProblem(models[|models| - 1])
  }

  /** The exception the index loop raises on one host's `data`, if any:
      iterating it (`None`, a number or a bool is not iterable), or the first
      model it cannot take. A dict iterates over its keys and a string over
      its characters, so any non-empty one raises AttributeError. */
  function HostProblem(data: Json): Option<string>
  {
    match PyIter(data)
    case Raised(e) => Some(e)
    case Ok(models) => FirstProblem(models)
  }

  /** The hosts' model lists as `build_model_index` walks them, or the first
      exception it raises. */
  function Reached(hd: HostData): Attempt<HostModels>
  {
    if hd == [] then Ok([])
    else
      match Reached(hd[..|hd| - 1])
      case Raised(e) => Raised(e)
      case Ok(hms) =>
        match HostProblem(hd[|hd| - 1].1)
        case Some(e) => Raised(e)
        case None => Ok(hms + [(hd[|hd| - 1].0, PyIter(hd[|hd| - 1].1).value)])
  }

  /** A list passes the index loop iff every one of its models does. */
  lemma {:induction false} FirstProblemNone(models: seq<Json>)
    ensures FirstProblem(models).None? <==> forall j :: 0 <= j < |models| ==> IndexProblem(models[j]).None?
  {
    if models != [] {
      var init := models[..|models| - 1];
      FirstProblemNone(init);
      assert forall j :: 0 <= j < |init| ==> init[j] == models[j];
    }
  }

  /** An exception raised within a prefix is the exception of the whole list. */
  lemma {:induction false} FirstProblemPrefix(models: seq<Json>, n: nat)
    requires n <= |models| && FirstProblem(models[..n]).Some?
    ensures FirstProblem(models) == FirstProblem(models[..n])
    decreases |models| - n
  {
    if n < |models| {
      assert models[..n + 1][..n] == models[..n];
      FirstProblemPrefix(models, n + 1);
    } else {
      assert models[..n] == models;
    }
  }

  /** An exception raised within the first hosts is the exception of the walk. */
  lemma {:induction false} ReachedPrefix(hd: HostData, n: nat)
    requires n <= |hd| && Reached(hd[..n]).Raised?
    ensures Reached(hd) == Reached(hd[..n])
    decreases |hd| - n
  {
    if n < |hd| {
      assert hd[..n + 1][..n] == hd[..n];
      ReachedPrefix(hd, n + 1);
    } else {
      assert hd[..n] == hd;
    }
  }

  /** `build_model_index` raises iff some host's data cannot be walked;
      otherwise it walks every host, in order, over its iterated data. */
  lemma {:induction false} ReachedOk(hd: HostData)
    ensures Reached(hd).Ok? <==> forall i :: 0 <= i < |hd| ==> HostProblem(hd[i].1).None?
    ensures Reached(hd).Ok? ==> |Reached(hd).value| == |hd|
    ensures Reached(hd).Ok? ==> forall i :: 0 <= i < |hd| ==>
              PyIter(hd[i].1).Ok? && Reached(hd).value[i] == (hd[i].0, PyIter(hd[i].1).value)
  {
    if hd != [] {
      var init := hd[..|hd| - 1];
      ReachedOk(init);
      assert forall i :: 0 <= i < |init| ==> init[i] == hd[i];
    }
  }

  /** What `build_model_index` returns, or the exception it raises. */
  function IndexOf(hd: HostData): Attempt<Dict<Json, string>>
  {
    match Reached(hd)
    case Raised(e) => Raised(e)
    case Ok(hms) => Ok(ModelIndex(hms))
  }

  /** On the hosts' raw data: the index raises iff some host's data cannot be
      walked; otherwise it binds every truthy key to its first lister. */
  lemma IndexFirstWins(hd: HostData, k: Json)
    ensures IndexOf(hd).Raised? <==> exists i :: 0 <= i < |hd| && HostProblem(hd[i].1).Some?
    ensures IndexOf(hd).Ok? ==> DistinctKeys(IndexOf(hd).value)
    ensures IndexOf(hd).Ok? ==>
      Lookup(IndexOf(hd).value, DictKey(k)) == if Truthy(k) then FirstHost(Reached(hd).value, k) else None
  {
    ReachedOk(hd);
    if Reached(hd).Ok? {
      ModelIndexFirstWins(Reached(hd).value, k);
    }
  }

  /** The inner loop of `build_model_index`: one host's models offered to the
      index in order, or the exception raised at the first it cannot take. */
  method IndexHost(start: Dict<Json, string>, base: string, models: seq<Json>)
    returns (r: Attempt<Dict<Json, string>>)
    ensures r == match FirstProblem(models) case Some(e) => Raised(e) case None => Ok(AddModels(start, base, models))
  {
    var idx := start;
    var j := 0;
    while j < |models|
      invariant 0 <= j <= |models|
      invariant FirstProblem(models[..j]).None?
      invariant idx == AddModels(start, base, models[..j])
    {
      var m := models[j];
      assert models[..j + 1][..j] == models[..j];
      if !m.JObj? {
        FirstProblemPrefix(models, j + 1);
        return Raised(NoGet(m));
      }
      var mid := PyOr(Get(m.fields, "id"), Get(m.fields, "name"));
      if Truthy(mid) {
        if !Hashable(mid) {
          FirstProblemPrefix(models, j + 1);
          return Raised(Unhashable(mid));
        }
        if !HasKey(idx, DictKey(mid)) {
          idx := idx + [(DictKey(mid), base)];
        }
      }
      j := j + 1;
    }
    assert models[..j] == models;
    r := Ok(idx);
  }

  /** `build_model_index(host_models)`. */
  method BuildModelIndex(hd: HostData) returns (idx: Attempt<Dict<Json, string>>)
    ensures idx == IndexOf(hd)
  {
    var acc: Dict<Json, string> := [];
    ghost var hms: HostModels := [];
    var i := 0;
    while i < |hd|
      invariant 0 <= i <= |hd|
      invariant Reached(hd[..i]) == Ok(hms) && acc == ModelIndex(hms)
    {
      assert hd[..i + 1][..i] == hd[..i];
      var it := PyIter(hd[i].1);
      if it.Raised? {
        ReachedPrefix(hd, i + 1);
        return Raised(it.message);
      }
      var r := IndexHost(acc, hd[i].0, it.value);
      if r.Raised? {
        ReachedPrefix(hd, i + 1);
        return Raised(r.message);
      }
      ghost var next := hms + [(hd[i].0, it.value)];
      assert next[..|next| - 1] == hms;
      acc, hms := r.value, next;
      i := i + 1;
    }
    assert hd[..i] == hd;
    idx := Ok(acc);
  }

  // ---- routing --------------------------------------------------------------

  /** The IndexError of `list(LM_HOSTS.values())[0]` with no host configured. */
  const NoHost := "list index out of range"

  /** `_route_for_model(model)`: the indexed host when it is a non-empty URL,
      else the first configured host. It raises when building the index
      does, when the model cannot be a dictionary key, and when no host is
      configured. */
  function RouteForModel(hd: HostData, model: Json): (r: Attempt<string>)
    ensures r.Raised? <==> Reached(hd).Raised? || !Hashable(model) || hd == []
    ensures r.Ok? ==>
      var first := if Truthy(model) then FirstHost(Reached(hd).value, model) else None;
      r.value == if first.Some? && first.value != "" then first.value else hd[0].0
  {
    match IndexOf(hd)
    case Raised(e) => Raised(e)
    case Ok(idx) =>
      ModelIndexFirstWins(Reached(hd).value, model);
      if !Hashable(model) then Raised(Unhashable(model))
      else
        var hit := Lookup(idx, DictKey(model));
        if hit.Some? && hit.value != "" then Ok(hit.value)
        else if hd == [] then Raised(NoHost)
        else Ok(hd[0].0)
  }

  /** A routed request goes to the first host that lists its model, unless
      that host's URL is empty; any other host than the first one is chosen
      only because it lists the model. */
  lemma RouteChoosesFirstLister(hd: HostData, model: Json)
    ensures var r := RouteForModel(hd, model);
      r.Ok? && Truthy(model) && FirstHost(Reached(hd).value, model).Some? &&
      FirstHost(Reached(hd).value, model).value != "" ==>
        r.value == FirstHost(Reached(hd).value, model).value
    ensures var r := RouteForModel(hd, model);
      r.Ok? && r.value != hd[0].0 ==>
        exists i :: 0 <= i < |Reached(hd).value| && Reached(hd).value[i].0 == r.value &&
                    Lists(Reached(hd).value[i].1, model)
  {
    if Reached(hd).Ok? {
      ModelIndexFirstWins(Reached(hd).value, model);
    }
  }

  /** `true` and `1` are one dictionary key: when a first host lists a model
      with id `true` and a second one with id `1`, a request for model `1`
      goes to the first host. */
  lemma RouteTrueIsOne(a: string, b: string)
    requires a != ""
    ensures RouteForModel([(a, JArr([JObj([("id", JBool(true))])])), (b, JArr([JObj([("id", JNum(1))])]))], JNum(1)) == Ok(a)
  {
    var hd := [(a, JArr([JObj([("id", JBool(true))])])), (b, JArr([JObj([("id", JNum(1))])]))];
    ReachedOk(hd);
    var hms := Reached(hd).value;
    assert ModelKey(hms[0].1[0]) == JBool(true);
    FirstHostAt(hms, JNum(1), 0);
    ModelIndexFirstWins(hms, JNum(1));
  }

  /** The upstream chosen for a chat or embeddings body: routed by its model
      when the body names one, else the first host. */
  function RequestTarget(hd: HostData, body: seq<(string, Json)>): (r: Attempt<string>)
    ensures !Truthy(Get(body, "model")) ==> r == if hd == [] then Raised(NoHost) else Ok(hd[0].0)
  {
    var model := Get(body, "model");
    if Truthy(model) then RouteForModel(hd, model)
    else if hd == [] then Raised(NoHost)
    else Ok(hd[0].0)
  }

  function ChatUrl(target: string): string
  {
    RStripChar(target, '/') + "/v1/chat/completions"
  }

  function EmbeddingsUrl(target: string): string
  {
    RStripChar(target, '/') + "/v1/embeddings"
  }

  /** `bool(body.get("stream", True))`: streaming unless the body says
      otherwise. */
  function ChatStream(body: seq<(string, Json)>): (stream: bool)
    ensures !HasKey(body, "stream") ==> stream
    ensures HasKey(body, "stream") ==> (stream <==> Truthy(Lookup(body, "stream").value))
  {
    Truthy(GetOr(body, "stream", JBool(true)))
  }

  // ---- /v1/models -----------------------------------------------------------

  /** What a host's `/v1/models` request got: no answer, or a status and the
      body parsed as JSON when it is JSON. */
  datatype ModelsReply = Unreachable | Answered(status: int, parsed: Option<Json>)

  function ModelsUrl(base: string): string
  {
    RStripChar(base, '/') + "/v1/models"
  }

  /** `list_models_from_host`: the `data` value of a successful reply that
      parsed to a JSON object, as it is (an empty list when absent); every
      failure, including `.get` on a body that is not an object, gives an
      empty list rather than an error. */
  function ModelsFromHost(base: string, reply: ModelsReply): (r: (string, Json))
    ensures r.0 == base
    ensures !(reply.Answered? && 200 <= reply.status < 300 && reply.parsed.Some? && reply.parsed.value.JObj?) ==>
              r.1 == JArr([])
    ensures reply.Answered? && 200 <= reply.status < 300 && reply.parsed.Some? && reply.parsed.value.JObj? ==>
              r.1 == GetOr(reply.parsed.value.fields, "data", JArr([]))
  {
    match reply
    case Unreachable => (base, JArr([]))
    case Answered(status, parsed) =>
      if !(200 <= status < 300) || parsed.None? || !parsed.value.JObj? then (base, JArr([]))
      else (base, GetOr(parsed.value.fields, "data", JArr([])))
  }

  /** Python's `k in m`: a key of a dict, an element of a list, a substring
      of a string; any other value raises TypeError. */
  function PyContains(m: Json, k: string): (r: Attempt<bool>)
    ensures r.Raised? <==> !(m.JObj? || m.JArr? || m.JStr?)
    ensures m.JObj? ==> r == Ok(HasKey(m.fields, k))
  {
    match m
    case JObj(fields) => Ok(HasKey(fields, k))
    case JArr(items) => Ok(JStr(k) in items)
    case JStr(s) => Ok(HasSubstring(s, k))
    case _ => Raised("argument of type '" + TypeName(m) + "' is not iterable")
  }

  /** `k in m` holds. */
  predicate Has(m: Json, k: string)
  {
    PyContains(m, k) == Ok(true)
  }

  /** The TypeError of `m["name"]` on a string or a list. */
  function NotAnIndex(m: Json): string
  {
    if m.JStr? then "string indices must be integers, not 'str'"
    else "list indices must be integers or slices, not str"
  }

  /** The fields of an object without any binding of `k`. */
  function Without(fields: seq<(string, Json)>, k: string): (r: seq<(string, Json)>)
    ensures !HasKey(r, k)
    ensures forall k' :: k' != k ==> Lookup(r, k') == Lookup(fields, k')
  {
    if fields == [] then []
    else if fields[0].0 == k then Without(fields[1..], k)
    else [fields[0]] + Without(fields[1..], k)
  }

  /** One listed model as the merged listing shows it. An entry that has
      `id` is kept as it is; a dict that has only `name` becomes a dict whose
      `id` is the name, first, without `name`; an entry with neither is left
      out. "Has" is Python's `in`, so a string containing "id" is kept, a
      value that is no container raises, and so does `m["name"]` on a string
      or a list that has "name". */
  function MergeEntry(m: Json): (r: Attempt<Option<Json>>)
    ensures r.Raised? <==> !(m.JObj? || m.JArr? || m.JStr?) || (!m.JObj? && !Has(m, "id") && Has(m, "name"))
    ensures r.Ok? ==> (r.value.Some? <==> Has(m, "id") || Has(m, "name"))
    ensures r.Ok? && Has(m, "id") ==> r.value == Some(m)
    ensures r.Ok? && r.value.Some? ==> Has(r.value.value, "id")
    ensures m.JObj? ==> r.Ok?
    ensures m.JObj? && r.value.Some? ==>
              r.value.value.JObj? && Lookup(r.value.value.fields, "id") == Some(ModelIdOf(m.fields))
    ensures m.JObj? && r.value.Some? && !HasKey(m.fields, "id") ==> !HasKey(r.value.value.fields, "name")
    ensures m.JObj? && r.value.Some? ==>
              forall k :: k != "id" && k != "name" ==> Lookup(r.value.value.fields, k) == Lookup(m.fields, k)
  {
    match PyContains(m, "id")
    case Raised(e) => Raised(e)
    case Ok(hasId) =>
      if hasId then Ok(Some(m))
      else if !Has(m, "name") then Ok(None)
      else if m.JObj? then
        var renamed := [("id", Get(m.fields, "name"))] + Without(m.fields, "name");
        assert renamed[0].0 == "id";
        Ok(Some(JObj(renamed)))
      else Raised(NotAnIndex(m))
  }

  /** The id a merged dict carries: its own, else its name. */
  function ModelIdOf(fields: seq<(string, Json)>): Json
  {
    if HasKey(fields, "id") then Get(fields, "id") else Get(fields, "name")
  }

  /** Two steps run in order: the first exception, else both results joined. */
  function Then(a: Attempt<seq<Json>>, b: Attempt<seq<Json>>): Attempt<seq<Json>>
  {
    match a
    case Raised(e) => Raised(e)
    case Ok(x) =>
      match b
      case Raised(e) => Raised(e)
      case Ok(y) => Ok(x + y)
  }

  /** The entries one merged model contributes. */
  function EntryList(e: Attempt<Option<Json>>): Attempt<seq<Json>>
  {
    match e
    case Raised(msg) => Raised(msg)
    case Ok(o) => Ok(if o.Some? then [o.value] else [])
  }

  /** One host's models merged in order, or the first exception. */
  function MergeModels(models: seq<Json>): Attempt<seq<Json>>
  {
    if models == [] then Ok([])
    else Then(MergeModels(models[..|models| - 1]), EntryList(MergeEntry(models[|models| - 1])))
  }

  /** One host's part of the union: its `data` iterated, then merged. */
  function HostEntries(data: Json): Attempt<seq<Json>>
  {
    match PyIter(data)
    case Raised(e) => Raised(e)
    case Ok(models) => MergeModels(models)
  }

  /** The merged listing: each host's entries, in host order, or the first
      exception. */
  function MergeAll(hd: HostData): Attempt<seq<Json>>
  {
    if hd == [] then Ok([])
    else Then(MergeAll(hd[..|hd| - 1]), HostEntries(hd[|hd| - 1].1))
  }

  /** An exception raised within a prefix ends the whole merge with it. */
  lemma {:induction false} MergeModelsPrefix(models: seq<Json>, n: nat)
    requires n <= |models| && MergeModels(models[..n]).Raised?
    ensures MergeModels(models) == MergeModels(models[..n])
    decreases |models| - n
  {
    if n < |models| {
      assert models[..n + 1][..n] == models[..n];
      MergeModelsPrefix(models, n + 1);
    } else {
      assert models[..n] == models;
    }
  }

  lemma {:induction false} MergeAllPrefix(hd: HostData, n: nat)
    requires n <= |hd| && MergeAll(hd[..n]).Raised?
    ensures MergeAll(hd) == MergeAll(hd[..n])
    decreases |hd| - n
  {
    if n < |hd| {
      assert hd[..n + 1][..n] == hd[..n];
      MergeAllPrefix(hd, n + 1);
    } else {
      assert hd[..n] == hd;
    }
  }

  function ListObject(union: seq<Json>): Json
  {
    JObj([("object", JStr("list")), ("data", JArr(union))])
  }

  /** The inner loop of `list_models`: one host's entries, in order, or the
      exception raised at the first model it cannot merge. */
  method MergeHost(models: seq<Json>) returns (r: Attempt<seq<Json>>)
    ensures r == MergeModels(models)
  {
    var entries: seq<Json> := [];
    var j := 0;
    while j < |models|
      invariant 0 <= j <= |models|
      invariant MergeModels(models[..j]) == Ok(entries)
    {
      var m := models[j];
      assert models[..j + 1][..j] == models[..j];
      var hasId := PyContains(m, "id");
      if hasId.Raised? {
        MergeModelsPrefix(models, j + 1);
        return Raised(hasId.message);
      }
      if hasId.value {
        entries := entries + [m];
      } else if Has(m, "name") {
        if !m.JObj? {
          MergeModelsPrefix(models, j + 1);
          return Raised(NotAnIndex(m));
        }
        entries := entries + [JObj([("id", Get(m.fields, "name"))] + Without(m.fields, "name"))];
      } else {
        assert entries + [] == entries;
      }
      j := j + 1;
    }
    assert models[..j] == models;
    r := Ok(entries);
  }

  /** `list_models`: the merged listing in OpenAI's list shape, or the
      exception that ends the request. */
  method ListModels(hd: HostData) returns (response: Attempt<Json>)
    ensures response == match MergeAll(hd) case Raised(e) => Raised(e) case Ok(u) => Ok(ListObject(u))
  {
    var union: seq<Json> := [];
    var i := 0;
    while i < |hd|
      invariant 0 <= i <= |hd|
      invariant MergeAll(hd[..i]) == Ok(union)
    {
      assert hd[..i + 1][..i] == hd[..i];
      var it := PyIter(hd[i].1);
      if it.Raised? {
        MergeAllPrefix(hd, i + 1);
        return Raised(it.message);
      }
      var r := MergeHost(it.value);
      if r.Raised? {
        MergeAllPrefix(hd, i + 1);
        return Raised(r.message);
      }
      union := union + r.value;
      i := i + 1;
    }
    assert hd[..i] == hd;
    response := Ok(ListObject(union));
  }

  /** Every merged entry has an id (in Python's sense of `in`), and there are
      never more entries than models. */
  lemma {:induction false} MergeModelsIds(models: seq<Json>)
    ensures MergeModels(models).Ok? ==> forall e :: e in MergeModels(models).value ==> Has(e, "id")
    ensures MergeModels(models).Ok? ==> |MergeModels(models).value| <= |models|
  {
    if models != [] {
      MergeModelsIds(models[..|models| - 1]);
    }
  }

  /** Every entry of the union has an id. */
  lemma {:induction false} MergeAllIds(hd: HostData)
    ensures MergeAll(hd).Ok? ==> forall e :: e in MergeAll(hd).value ==> Has(e, "id")
  {
    if hd != [] {
      MergeAllIds(hd[..|hd| - 1]);
      if PyIter(hd[|hd| - 1].1).Ok? {
        MergeModelsIds(PyIter(hd[|hd| - 1].1).value);
      }
    }
  }

  /** The listing is the concatenation of the hosts' listings: order is kept,
      nothing is merged across hosts, and the first exception wins. */
  lemma {:induction false} MergeAllAppend(a: HostData, b: HostData)
    ensures MergeAll(a + b) == Then(MergeAll(a), MergeAll(b))
    decreases |b|
  {
    if b == [] {
      assert a + b == a;
      if MergeAll(a).Ok? {
        assert MergeAll(a).value + [] == MergeAll(a).value;
      }
    } else {
      var b' := b[..|b| - 1];
      assert (a + b)[..|a + b| - 1] == a + b';
      assert (a + b)[|a + b| - 1] == b[|b| - 1];
      MergeAllAppend(a, b');
      ThenAssoc(MergeAll(a), MergeAll(b'), HostEntries(b[|b| - 1].1));
    }
  }

  lemma ThenAssoc(x: Attempt<seq<Json>>, y: Attempt<seq<Json>>, z: Attempt<seq<Json>>)
    ensures Then(Then(x, y), z) == Then(x, Then(y, z))
  {
    if x.Ok? && y.Ok? && z.Ok? {
      assert (x.value + y.value) + z.value == x.value + (y.value + z.value);
    }
  }

  /** A host that cannot be reached contributes nothing, and the others'
      listings are unaffected. */
  lemma FailingHostContributesNothing(a: HostData, base: string, b: HostData)
    ensures MergeAll(a + [ModelsFromHost(base, Unreachable)] + b) == MergeAll(a + b)
  {
    var h := [ModelsFromHost(base, Unreachable)];
    assert MergeAll(h) == Ok([]) by {
      assert h[..0] == [] && h[0].1 == JArr([]);
      assert PyIter(JArr([])) == Ok([]);
      assert HostEntries(JArr([])) == Ok([]);
      var none: seq<Json> := [];
      assert MergeAll(h[..0]) == Ok(none);
      assert MergeAll(h) == Then(Ok(none), Ok(none));
      assert none + none == none;
    }
    assert Then(MergeAll(a), MergeAll(h)) == MergeAll(a) by {
      if MergeAll(a).Ok? {
        assert MergeAll(a).value + [] == MergeAll(a).value;
      }
    }
    calc {
      MergeAll(a + h + b);
      { MergeAllAppend(a + h, b); }
      Then(MergeAll(a + h), MergeAll(b));
      { MergeAllAppend(a, h); }
      Then(Then(MergeAll(a), MergeAll(h)), MergeAll(b));
      Then(MergeAll(a), MergeAll(b));
      { MergeAllAppend(a, b); }
      MergeAll(a + b);
    }
  }

  /** No de-duplication: two hosts offering the same model give two entries. */
  lemma SameModelListedTwice(m: Json, b1: string, b2: string)
    requires m.JObj? && HasKey(m.fields, "id")
    ensures MergeAll([(b1, JArr([m])), (b2, JArr([m]))]) == Ok([m, m])
  {
    var hd := [(b1, JArr([m])), (b2, JArr([m]))];
    assert MergeModels([m]) == Ok([m]) by {
      assert [m][..0] == [];
      assert MergeEntry(m) == Ok(Some(m));
      assert [] + [m] == [m];
    }
    assert MergeAll(hd[..1]) == Ok([m]) by {
      assert hd[..1] == [(b1, JArr([m]))] && hd[..1][..0] == [];
    }
    assert MergeAll(hd) == Then(MergeAll(hd[..1]), HostEntries(JArr([m])));
    assert [m] + [m] == [m, m];
  }

  /** `in` on a string entry is a substring test: a string containing "id" is
      listed as it is, and one containing only "name" ends the request. */
  lemma StringEntries()
    ensures MergeEntry(JStr("idefics")) == Ok(Some(JStr("idefics")))
    ensures MergeEntry(JStr("name-x")).Raised?
  {
    assert OccursAt("idefics", "id", 0);
    assert OccursAt("name-x", "name", 0);
    assert !HasSubstring("name-x", "id") by {
      forall i | 0 <= i <= 4 ensures !OccursAt("name-x", "id", i) {
        assert "name-x"[i] != 'i';
      }
    }
  }

  // ---- embeddings -----------------------------------------------------------

  /** The text stored for one list element of `input`. */
  function InputText(x: Json): string
  {
    match x
    case JStr(s) => s
    case JNull => ""
    case _ => PyStr(x)
  }

  /** The embedding request's `input` as a list of texts: a string is one
      text, a list gives one text per element, anything else none. */
  function EmbeddingInputs(raw: Json): (inputs: seq<string>)
    ensures raw.JArr? ==> |inputs| == |raw.items|
  {
    match raw
    case JStr(s) => [s]
    case JArr(items) => seq(|items|, i requires 0 <= i < |items| => InputText(items[i]))
    case _ => []
  }

  /** String elements are kept as they are and `None` becomes the empty text;
      only other elements are rendered. */
  lemma EmbeddingInputsKeep(items: seq<Json>, i: nat)
    requires i < |items|
    ensures items[i].JStr? ==> EmbeddingInputs(JArr(items))[i] == items[i].s
    ensures items[i].JNull? ==> EmbeddingInputs(JArr(items))[i] == ""
    ensures !items[i].JStr? && !items[i].JNull? ==> EmbeddingInputs(JArr(items))[i] == PyStr(items[i])
  {
  }

  /** The documents stored beside `n` returned vectors: the inputs truncated,
      or padded with empty texts, to `n`. */
  function AlignDocuments(inputs: seq<string>, n: nat): (docs: seq<string>)
    ensures |docs| == n
    ensures forall i :: 0 <= i < n ==> docs[i] == if i < |inputs| then inputs[i] else ""
  {
    if n <= |inputs| then inputs[..n] else inputs + seq(n - |inputs|, _ => "")
  }

  /** The arguments the embeddings route hands to the vector store. */
  datatype Records = Records(ids: seq<string>, documents: seq<string>, metadatas: seq<Json>, embeddings: seq<Json>)

  /** The guarded upsert step of `embeddings`: None when upserts are disabled
      or when reading the reply raises (the reply is not an object, its
      `data` is truthy but not a list, or an item is not an object), which
      the route catches. `uuid(i)` is the fresh id drawn for the `i`-th
      vector. */
  function EmbeddingRecords(enabled: bool, body: seq<(string, Json)>, data: Json, uuid: nat -> string): (r: Option<Records>)
    ensures r.Some? ==> enabled && data.JObj?
    ensures r.Some? ==>
      var n := |r.value.embeddings|;
      |r.value.ids| == n && |r.value.metadatas| == n
      && r.value.documents == AlignDocuments(EmbeddingInputs(Get(body, "input")), n)
      && (forall i :: 0 <= i < n ==> r.value.ids[i] == uuid(i))
      && forall i :: 0 <= i < n ==> r.value.metadatas[i] == PyOr(Get(body, "metadata"), EmptyObj)
  {
    if !enabled || !data.JObj? then None
    else
      var items := PyOr(Get(data.fields, "data"), JArr([]));
      if !items.JArr? then None
      else if exists i :: 0 <= i < |items.items| && !items.items[i].JObj? then None
      else
        var xs := items.items;
        var vectors := seq(|xs|, i requires 0 <= i < |xs| => Get(xs[i].fields, "embedding"));
        var meta := PyOr(Get(body, "metadata"), EmptyObj);
        Some(Records(seq(|xs|, i requires 0 <= i < |xs| => uuid(i)),
                     AlignDocuments(EmbeddingInputs(Get(body, "input")), |xs|),
                     seq(|xs|, _ => meta),
                     vectors))
  }

  /** One vector per returned item, in order: item `i`'s embedding is record
      `i`'s vector. */
  lemma EmbeddingRecordsVectors(enabled: bool, body: seq<(string, Json)>, items: seq<Json>, uuid: nat -> string)
    requires enabled && forall i :: 0 <= i < |items| ==> items[i].JObj?
    ensures var r := EmbeddingRecords(enabled, body, JObj([("data", JArr(items))]), uuid);
      r.Some? && |r.value.embeddings| == |items|
      && forall i :: 0 <= i < |items| ==> r.value.embeddings[i] == Get(items[i].fields, "embedding")
  {
    var data := [("data", JArr(items))];
    assert Lookup(data, "data") == Some(JArr(items));
  }

  // ---- hot-applied options --------------------------------------------------

  /** `opts.update(new)`: each posted key takes its posted value. */
  function UpdateAll(opts: Dict<string, Json>, posted: Dict<string, Json>): Dict<string, Json>
  {
    if posted == [] then opts
    else
      var last := posted[|posted| - 1];
      Put(UpdateAll(opts, posted[..|posted| - 1]), last.0, last.1)
  }

  /** After the update, a posted key reads its posted value and every other
      key its old one; the result has no repeated key. */
  lemma {:induction false} UpdateAllLookup(opts: Dict<string, Json>, posted: Dict<string, Json>, k: string)
    requires DistinctKeys(posted)
    ensures Lookup(UpdateAll(opts, posted), k) == if HasKey(posted, k) then Lookup(posted, k) else Lookup(opts, k)
    decreases |posted|
  {
    if posted != [] {
      var init := posted[..|posted| - 1];
      var last := posted[|posted| - 1];
      assert posted == init + [last];
      assert DistinctKeys(init);
      UpdateAllLookup(opts, init, k);
      PutLookup(UpdateAll(opts, init), last.0, last.1, k);
      LookupSnoc(init, last.0, last.1, k);
      assert HasKey(posted, k) <==> HasKey(init, k) || k == last.0 by {
        if HasKey(posted, k) {
          var j :| 0 <= j < |posted| && posted[j].0 == k;
          if j < |init| {
            assert init[j] == posted[j];
          }
        }
        if HasKey(init, k) {
          var j :| 0 <= j < |init| && init[j].0 == k;
          assert posted[j] == init[j];
        }
      }
      if k == last.0 {
        assert !HasKey(init, k);
      }
    }
  }

  /** The first element of a list that cannot be put in a set, if any. */
  function FirstUnhashable(items: seq<Json>): (r: Option<Json>)
    ensures r.None? <==> forall x :: x in items ==> Hashable(x)
    ensures r.Some? ==> r.value in items && !Hashable(r.value)
  {
    if items == [] then None
    else if !Hashable(items[0]) then Some(items[0])
    else FirstUnhashable(items[1..])
  }

  /** `set(allowed_domains)` as domain names: a list gives its string
      elements, a string its one-character substrings, an object its keys.
      It raises TypeError for a value that is not iterable, and for a list
      holding a list or a dict. */
  function DomainSet(j: Json): (r: Attempt<set<string>>)
    ensures r.Raised? <==> !(j.JArr? || j.JStr? || j.JObj?) || (j.JArr? && exists x :: x in j.items && !Hashable(x))
    ensures j.JArr? && r.Ok? ==> r.value == set x | x in j.items && x.JStr? :: x.s
  {
    match j
    case JArr(items) =>
      var bad := FirstUnhashable(items);
      if bad.Some? then Raised("unhashable type: '" + TypeName(bad.value) + "'")
      else Ok(set x | x in items && x.JStr? :: x.s)
    case JStr(s) => Ok(set c | c in s :: [c])
    case JObj(fields) => Ok(set f | f in fields :: f.0)
    case _ => Raised("'" + TypeName(j) + "' object is not iterable")
  }

  /** The gateway's settings after load or hot apply. Temperature and top_p
      (floats) are not part of the model. */
  datatype Config = Config(
    opts: Dict<string, Json>,
    lmHosts: Dict<string, string>,
    chromaMode: Json,
    chromaUrl: Json,
    persistDir: Json,
    collectionName: Json,
    allowedDomains: Json,
    upsertsEnabled: bool,
    toolDomains: set<string>)

  /** `api_set_options`: the posted keys are merged into the options, then
      every setting is re-read from the merged options, keeping its previous
      value when the key is absent, and the tool bridge's allow-list is
      rebuilt from the allowed domains. The bridge keeps its old allow-list
      when `set()` raises (the request then fails). */
  function ApplyOptions(c: Config, posted: Dict<string, Json>): Config
  {
    var opts := UpdateAll(c.opts, posted);
    var allowed := GetOr(opts, "allowed_domains", c.allowedDomains);
    var ds := DomainSet(allowed);
    Config(opts,
           NormalizeLmHosts(GetOr(opts, "lm_hosts", HostsJson(c.lmHosts))),
           GetOr(opts, "chroma_mode", c.chromaMode),
           GetOr(opts, "chroma_url", c.chromaUrl),
           GetOr(opts, "chroma_persist_dir", c.persistDir),
           GetOr(opts, "collection_name", c.collectionName),
           allowed,
           Truthy(GetOr(opts, "upserts_enabled", JBool(c.upsertsEnabled))),
           if ds.Ok? then ds.value else c.toolDomains)
  }

  /** The hosts after applying options are the normalised merged `lm_hosts`
      option, the current hosts when it is absent. */
  lemma ApplyOptionsHosts(c: Config, posted: Dict<string, Json>)
    ensures ApplyOptions(c, posted).lmHosts ==
      NormalizeLmHosts(GetOr(UpdateAll(c.opts, posted), "lm_hosts", HostsJson(c.lmHosts)))
  {
  }

  /** A one-element host list becomes the single host `h0`. */
  lemma NormalizeSingle(host: Json)
    ensures NormalizeLmHosts(JArr([host])) == [(HostKey(0), PyStr(host))]
  {
  }

  /** A setting the request posts takes the posted value; one it does not
      post keeps the value the merged options give it, or its previous value
      when they do not hold the key. */
  lemma ApplyOptionsRederives(c: Config, posted: Dict<string, Json>)
    requires DistinctKeys(posted)
    ensures var n := ApplyOptions(c, posted);
      (HasKey(posted, "chroma_url") ==> Some(n.chromaUrl) == Lookup(posted, "chroma_url"))
      && (!HasKey(posted, "chroma_url") && !HasKey(c.opts, "chroma_url") ==> n.chromaUrl == c.chromaUrl)
      && (HasKey(posted, "collection_name") ==> Some(n.collectionName) == Lookup(posted, "collection_name"))
      && (!HasKey(posted, "collection_name") && !HasKey(c.opts, "collection_name") ==> n.collectionName == c.collectionName)
      && (!HasKey(posted, "lm_hosts") && !HasKey(c.opts, "lm_hosts") ==> n.lmHosts == c.lmHosts)
      && (!HasKey(posted, "upserts_enabled") && !HasKey(c.opts, "upserts_enabled") ==> n.upsertsEnabled == c.upsertsEnabled)
      && (HasKey(posted, "allowed_domains") && Lookup(posted, "allowed_domains").value.JArr?
          && (forall x :: x in Lookup(posted, "allowed_domains").value.items ==> Hashable(x)) ==>
            forall d :: d in n.toolDomains <==> JStr(d) in Lookup(posted, "allowed_domains").value.items)
      && (HasKey(posted, "allowed_domains") && Lookup(posted, "allowed_domains").value.JArr?
          && (exists x :: x in Lookup(posted, "allowed_domains").value.items && !Hashable(x)) ==>
            n.toolDomains == c.toolDomains)
  {
    var opts := UpdateAll(c.opts, posted);
    UpdateAllLookup(c.opts, posted, "chroma_url");
    UpdateAllLookup(c.opts, posted, "collection_name");
    UpdateAllLookup(c.opts, posted, "lm_hosts");
    UpdateAllLookup(c.opts, posted, "upserts_enabled");
    UpdateAllLookup(c.opts, posted, "allowed_domains");
    NormalizeHostsJson(c.lmHosts);
    if HasKey(posted, "allowed_domains") && Lookup(posted, "allowed_domains").value.JArr? {
      ApplyOptionsAllowList(c, posted);
    }
  }

  /** A posted list of allowed domains becomes the tool bridge's allow-list
      when every item can go in a set; one holding a list or a dict leaves
      the allow-list as it was. */
  lemma ApplyOptionsAllowList(c: Config, posted: Dict<string, Json>)
    requires DistinctKeys(posted)
    requires HasKey(posted, "allowed_domains") && Lookup(posted, "allowed_domains").value.JArr?
    ensures var n := ApplyOptions(c, posted); var items := Lookup(posted, "allowed_domains").value.items;
      ((forall x :: x in items ==> Hashable(x)) ==> forall d :: d in n.toolDomains <==> JStr(d) in items)
      && ((exists x :: x in items && !Hashable(x)) ==> n.toolDomains == c.toolDomains)
  {
    UpdateAllLookup(c.opts, posted, "allowed_domains");
    var items := Lookup(posted, "allowed_domains").value.items;
    var n := ApplyOptions(c, posted);
    assert GetOr(UpdateAll(c.opts, posted), "allowed_domains", c.allowedDomains) == JArr(items);
    if forall x :: x in items ==> Hashable(x) {
      forall d ensures d in n.toolDomains <==> JStr(d) in items {
        if JStr(d) in items {
          assert d == JStr(d).s;
        }
      }
    }
  }

  /** Posting the same options twice leaves the settings as posting them once. */
  lemma ApplyOptionsIdempotent(c: Config, posted: Dict<string, Json>)
    requires DistinctKeys(posted)
    ensures ApplyOptions(ApplyOptions(c, posted), posted) == ApplyOptions(c, posted)
  {
    var once := ApplyOptions(c, posted);
    forall i | 0 <= i < |posted| ensures Lookup(once.opts, posted[i].0) == Some(posted[i].1) {
      UpdateAllLookup(c.opts, posted, posted[i].0);
      LookupDistinct(posted, i);
    }
    UpdateAllNoop(once.opts, posted);
    NormalizeHostsJson(once.lmHosts);
  }

  /** Binding a key to the value it already has changes nothing. */
  lemma {:induction false} PutSame<K, V>(d: Dict<K, V>, k: K, v: V)
    requires Lookup(d, k) == Some(v)
    ensures Put(d, k, v) == d
  {
    if d[0].0 != k {
      PutSame(d[1..], k, v);
    }
  }

  /** Updating with bindings the options already hold changes nothing. */
  lemma {:induction false} UpdateAllNoop(opts: Dict<string, Json>, posted: Dict<string, Json>)
    requires forall i :: 0 <= i < |posted| ==> Lookup(opts, posted[i].0) == Some(posted[i].1)
    ensures UpdateAll(opts, posted) == opts
    decreases |posted|
  {
    if posted != [] {
      var init := posted[..|posted| - 1];
      assert forall i :: 0 <= i < |init| ==> init[i] == posted[i];
      UpdateAllNoop(opts, init);
      PutSame(opts, posted[|posted| - 1].0, posted[|posted| - 1].1);
    }
  }

  /** The TypeError of `ChromaConfig(mode=..., url=..., collection_name=...,
      persist_dir=...)`: the dataclass declares only `url` and
      `collection_name`. */
  const ChromaConfigRejects := "ChromaConfig.__init__() got an unexpected keyword argument 'mode'"

  /** `api_set_options` as written: every setting is reassigned, then the
      request raises: at `set()` when the allowed domains cannot be made a
      set (the bridge keeps its allow-list), and otherwise when it rebuilds
      the Chroma client. No reply is ever sent and the running client is
      never replaced. */
  function SetOptionsAsWritten(c: Config, posted: Dict<string, Json>): (r: (Config, Attempt<Json>))
    ensures r.0 == ApplyOptions(c, posted)
    ensures r.1.Raised?
    ensures DomainSet(r.0.allowedDomains).Ok? ==> r.1 == Raised(ChromaConfigRejects)
    ensures DomainSet(r.0.allowedDomains).Raised? ==>
              r.1 == Raised(DomainSet(r.0.allowedDomains).message) && r.0.toolDomains == c.toolDomains
  {
    var n := ApplyOptions(c, posted);
    match DomainSet(n.allowedDomains)
    case Raised(e) => (n, Raised(e))
    case Ok(_) => (n, Raised(ChromaConfigRejects))
  }

  /** The gateway's option-holding module state. */
  class Settings {
    var opts: Dict<string, Json>
    var lmHosts: Dict<string, string>
    var chromaMode: Json
    var chromaUrl: Json
    var persistDir: Json
    var collectionName: Json
    var allowedDomains: Json
    var upsertsEnabled: bool
    var toolDomains: set<string>

    function Snapshot(): Config
      reads this
    {
      Config(opts, lmHosts, chromaMode, chromaUrl, persistDir, collectionName, allowedDomains, upsertsEnabled, toolDomains)
    }

    /** The settings read from the loaded options file, with their defaults. */
    constructor (loaded: Dict<string, Json>)
      ensures opts == loaded
      ensures lmHosts == NormalizeLmHosts(GetOr(loaded, "lm_hosts", EmptyObj))
      ensures chromaMode == GetOr(loaded, "chroma_mode", JStr("http"))
      ensures chromaUrl == GetOr(loaded, "chroma_url", JStr("http://127.0.0.1:8000"))
      ensures persistDir == GetOr(loaded, "chroma_persist_dir", JStr("/data/chroma"))
      ensures collectionName == GetOr(loaded, "collection_name", JStr("cathedral"))
      ensures allowedDomains == GetOr(loaded, "allowed_domains", JArr([JStr("light"), JStr("switch"), JStr("scene")]))
      ensures upsertsEnabled == Truthy(GetOr(loaded, "upserts_enabled", JBool(true)))
      ensures var ds := DomainSet(PyOr(allowedDomains, JArr([]))); toolDomains == if ds.Ok? then ds.value else {}
    {
      opts := loaded;
      lmHosts := NormalizeLmHosts(GetOr(loaded, "lm_hosts", EmptyObj));
      chromaMode := GetOr(loaded, "chroma_mode", JStr("http"));
      chromaUrl := GetOr(loaded, "chroma_url", JStr("http://127.0.0.1:8000"));
      persistDir := GetOr(loaded, "chroma_persist_dir", JStr("/data/chroma"));
      collectionName := GetOr(loaded, "collection_name", JStr("cathedral"));
      var allowed := GetOr(loaded, "allowed_domains", JArr([JStr("light"), JStr("switch"), JStr("scene")]));
      allowedDomains := allowed;
      upsertsEnabled := Truthy(GetOr(loaded, "upserts_enabled", JBool(true)));
      var ds := DomainSet(PyOr(allowed, JArr([])));
      toolDomains := if ds.Ok? then ds.value else {};
    }

    /** `api_set_options` as intended: the settings are applied and the reply
        echoes the posted options, or is None when rebuilding the allow-list
        raises. (As written the request always raises: see
        `SetOptionsAsWritten`.) */
    method SetOptions(posted: Dict<string, Json>) returns (reply: Option<Json>)
      modifies this
      ensures Snapshot() == ApplyOptions(old(Snapshot()), posted)
      ensures reply.Some? <==> DomainSet(allowedDomains).Ok?
      ensures reply.Some? ==> reply.value == JObj([("ok", JBool(true)), ("applied", JObj(posted))])
    {
      var next := ApplyOptions(Snapshot(), posted);
      var applied := DomainSet(next.allowedDomains).Ok?;
      reply := if applied
               then Some(JObj([("ok", JBool(true)), ("applied", JObj(posted))]))
               else None;
      Overwrite(next);
    }

    /** Replaces every setting by the one `c` holds. */
    method Overwrite(c: Config)
      modifies this
      ensures Snapshot() == c
    {
      opts := c.opts;
      lmHosts := c.lmHosts;
      chromaMode := c.chromaMode;
      chromaUrl := c.chromaUrl;
      persistDir := c.persistDir;
      collectionName := c.collectionName;
      allowedDomains := c.allowedDomains;
      upsertsEnabled := c.upsertsEnabled;
      toolDomains := c.toolDomains;
    }
  }
}
