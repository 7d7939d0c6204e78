/** The AnythingLLM bridge's `.env` handling: a line-based `KEY=value`
    reader, the matching quoting writer, the `config.write` merge of the
    four synchronised keys, and the `config.read.result` message built
    from the file. The environment is a JavaScript object, modelled as an
    insertion-ordered dictionary. */
module EnvFile {
  import opened Values
  import opened Text

  type Env = Dict<string, string>

  // ---- reading ----------------------------------------------------------------

  /** Remove one pair of matching surrounding quotes, as `v.slice(1, -1)` does
      (a lone quote character becomes the empty string). */
  function Unquote(v: string): (r: string)
    ensures |v| >= 2 && ((v[0] == '"' && v[|v| - 1] == '"') || (v[0] == '\'' && v[|v| - 1] == '\''))
            ==> r == v[1..|v| - 1]
    ensures !(StartsWith(v, "\"") && EndsWith(v, "\"")) && !(StartsWith(v, "'") && EndsWith(v, "'"))
            ==> r == v
  {
    if (StartsWith(v, "\"") && EndsWith(v, "\"")) || (StartsWith(v, "'") && EndsWith(v, "'")) then
      (if |v| >= 2 then v[1..|v| - 1] else "")
    else v
  }

  /** One line of the file: None when it is skipped (blank, a comment, no `=`,
      or `=` first), else the trimmed key and the trimmed, unquoted value. */
  function ParseLine(line: string): (r: Option<(string, string)>)
    ensures r.None? <==>
      var t := Trim(Js, line);
      t == "" || t[0] == '#' || IndexOf(t, '=') <= 0
    ensures r.Some? ==> var k := r.value.0;
      k != "" && !Contains(k, '=') && !JsSpace(k[0]) && !JsSpace(k[|k| - 1])
  {
    var t := Trim(Js, line);
    if t == "" || t[0] == '#' then None
    else
      var i := IndexOf(t, '=');
      if i <= 0 then None
      else
        KeyPart(t, i);
        Some((Trim(Js, t[..i]), Unquote(Trim(Js, t[i + 1..]))))
  }

  /** The text before the first `=` of a trimmed line trims to a non-empty key. */
  lemma KeyPart(t: string, i: int)
    requires 0 < i < |t| && !JsSpace(t[0]) && i == IndexOf(t, '=')
    ensures var k := Trim(Js, t[..i]);
      k != "" && !Contains(k, '=') && !JsSpace(k[0]) && !JsSpace(k[|k| - 1])
  {
    var p := t[..i];
    assert p[0] == t[0];
    assert !IsSpace(Js, p[0]);
    assert TrimStart(Js, p) == p;
    var k := TrimEnd(Js, p);
    assert k != [];
    assert k[0] == t[0];
    assert !Contains(k, '=') by {
      assert forall j :: 0 <= j < |k| ==> k[j] == t[j];
    }
  }

  /** `out[k] = v` for one line. */
  function Step(out: Env, line: string): Env
  {
    match ParseLine(line)
    case None => out
    case Some((k, v)) => Put(out, k, v)
  }

  /** The object built from the lines, processed in order. */
  function ParseLines(lines: seq<string>): Env
  {
    if lines == [] then [] else Step(ParseLines(lines[..|lines| - 1]), lines[|lines| - 1])
  }

  function ParseEnv(txt: string): Env
  {
    ParseLines(SplitLines(txt))
  }

  /** `readEnvFile`: an unreadable file (None) gives the empty object. */
  method ReadEnvFile(file: Option<string>) returns (out: Env)
    ensures file.None? ==> out == []
    ensures file.Some? ==> out == ParseEnv(file.value)
  {
    out := [];
    if file.None? {
      return;
    }
    var lines := SplitLines(file.value);
    var i := 0;
    while i < |lines|
      invariant 0 <= i <= |lines|
      invariant out == ParseLines(lines[..i])
    {
      ghost var prev := out;
      match ParseLine(lines[i]) {
        case Some((k, v)) => out := Put(out, k, v);
        case None =>
      }
      assert out == Step(prev, lines[i]);
      assert lines[..i + 1][..i] == lines[..i];
      assert ParseLines(lines[..i + 1]) == Step(ParseLines(lines[..i]), lines[i]);
      i := i + 1;
    }
    assert lines[..|lines|] == lines;
  }

  /** The object never holds a key twice. */
  lemma {:induction false} ParseLinesDistinct(lines: seq<string>)
    ensures DistinctKeys(ParseLines(lines))
  {
    if lines != [] {
      var prev := lines[..|lines| - 1];
      ParseLinesDistinct(prev);
      match ParseLine(lines[|lines| - 1])
      case None =>
      case Some((k, v)) => PutDistinct(ParseLines(prev), k, v);
    }
  }

  /** A later line for a key overrides an earlier one; other keys are kept. */
  lemma LaterLineWins(lines: seq<string>, line: string, key: string)
    ensures Lookup(ParseLines(lines + [line]), key) ==
      match ParseLine(line)
      case Some((k, v)) => if k == key then Some(v) else Lookup(ParseLines(lines), key)
      case None => Lookup(ParseLines(lines), key)
  {
    assert (lines + [line])[..|lines|] == lines;
    match ParseLine(line)
    case None =>
    case Some((k, v)) => PutLookup(ParseLines(lines), k, v, key);
  }

  // ---- writing ----------------------------------------------------------------

  predicate NeedsQuote(v: string)
  {
    exists i :: 0 <= i < |v| && (JsSpace(v[i]) || v[i] == '"' || v[i] == '\'' || v[i] == '#')
  }

  /** `quoteIfNeeded`: a value holding whitespace, a quote or `#` is wrapped in
      double quotes with every `"` escaped as `\"`; any other is kept as is. */
  function QuoteIfNeeded(v: string): (r: string)
    ensures !NeedsQuote(v) ==> r == v
    ensures NeedsQuote(v) ==> |r| >= 2 && r[0] == '"' && r[|r| - 1] == '"'
    ensures NeedsQuote(v) && !Contains(v, '"') ==> r == "\"" + v + "\""
  {
    if NeedsQuote(v) then "\"" + ReplaceAll(v, '"', "\\\"") + "\"" else v
  }

  /** One `k=quoteIfNeeded(v)` line per entry, in insertion order. */
  function EnvLines(env: Env): (lines: seq<string>)
    ensures |lines| == |env|
  {
    seq(|env|, i requires 0 <= i < |env| => env[i].0 + "=" + QuoteIfNeeded(env[i].1))
  }

  /** The text `writeEnvAtomically` puts in the file, `eol` being `os.EOL`. */
  function SerializeEnv(env: Env, eol: string): string
  {
    Join(EnvLines(env), eol)
  }

  // ---- the round trip ---------------------------------------------------------

  /** A key the reader gives back unchanged. */
  predicate SafeKey(k: string)
  {
    k != "" && !JsSpace(k[0]) && !JsSpace(k[|k| - 1]) && k[0] != '#'
    && !Contains(k, '=') && !Contains(k, '\n')
  }

  /** A value the reader gives back unchanged: the reader never undoes `\"`. */
  predicate SafeValue(v: string)
  {
    !Contains(v, '"') && !Contains(v, '\n')
  }

  predicate SafeEnv(env: Env)
  {
    DistinctKeys(env) && forall i :: 0 <= i < |env| ==> SafeKey(env[i].0) && SafeValue(env[i].1)
  }

  /** Each written line reads back as its entry. */
  lemma ParseWrittenLine(k: string, v: string)
    requires SafeKey(k) && SafeValue(v)
    ensures var line := k + "=" + QuoteIfNeeded(v);
      ParseLine(line) == Some((k, v))
      && !Contains(line, '\n') && line[|line| - 1] != '\r'
  {
    var q := QuoteIfNeeded(v);
    assert k + "=" + q == k + ("=" + q);
    QuotedShape(v);
    LineShape(k, q);
    ParseKeyValueLine(k, q);
    QuotedReadsBack(v);
  }

  /** A line made of a key, `=` and a rest, with no surrounding whitespace,
      parses to the key and the unquoted rest. */
  lemma ParseKeyValueLine(k: string, rest: string)
    requires SafeKey(k)
    requires var line := k + ("=" + rest); !JsSpace(line[0]) && !JsSpace(line[|line| - 1])
    ensures ParseLine(k + ("=" + rest)) == Some((k, Unquote(Trim(Js, rest))))
  {
    var line := k + ("=" + rest);
    KeyValueLineFacts(k, rest);
    TrimNoop(Js, k);
    assert ParseLine(line) == Some((Trim(Js, line[..|k|]), Unquote(Trim(Js, line[|k| + 1..]))));
  }

  lemma KeyValueLineFacts(k: string, rest: string)
    requires SafeKey(k)
    requires var line := k + ("=" + rest); !JsSpace(line[0]) && !JsSpace(line[|line| - 1])
    ensures var line := k + ("=" + rest);
      Trim(Js, line) == line && line[0] != '#' && IndexOf(line, '=') == |k|
      && line[..|k|] == k && line[|k| + 1..] == rest
  {
    var line := k + ("=" + rest);
    TrimNoop(Js, line);
    assert ("=" + rest)[0] == '=';
    IndexOfAppend(k, "=" + rest, '=');
    assert line[..|k|] == k;
    assert line[|k| + 1..] == rest;
  }

  /** What the quoting writer produces: no line feed, and no surrounding
      whitespace or trailing carriage return. */
  lemma QuotedShape(v: string)
    requires SafeValue(v)
    ensures var q := QuoteIfNeeded(v);
      !Contains(q, '\n') && (q == [] || (!JsSpace(q[0]) && !JsSpace(q[|q| - 1]) && q[|q| - 1] != '\r'))
  {
    var q := QuoteIfNeeded(v);
    if NeedsQuote(v) {
      assert q == "\"" + v + "\"";
      assert forall j :: 0 <= j < |q| ==> q[j] == '"' || q[j] == v[j - 1];
    } else {
      assert q == v;
      assert forall j :: 0 <= j < |v| ==> !JsSpace(v[j]);
    }
  }

  lemma LineShape(k: string, q: string)
    requires SafeKey(k)
    requires !Contains(q, '\n') && (q == [] || (!JsSpace(q[|q| - 1]) && q[|q| - 1] != '\r'))
    ensures var line := k + ("=" + q);
      !Contains(line, '\n') && !JsSpace(line[0]) && !JsSpace(line[|line| - 1]) && line[|line| - 1] != '\r'
  {
    var line := k + ("=" + q);
    assert line[0] == k[0];
    assert line[|line| - 1] == if q == [] then '=' else q[|q| - 1];
    assert forall j :: 0 <= j < |line| ==>
      line[j] == if j < |k| then k[j] else if j == |k| then '=' else q[j - |k| - 1];
  }

  /** The value part of a written line trims and unquotes back to the value. */
  lemma QuotedReadsBack(v: string)
    requires SafeValue(v)
    ensures Unquote(Trim(Js, QuoteIfNeeded(v))) == v
  {
    var q := QuoteIfNeeded(v);
    QuotedShape(v);
    TrimNoop(Js, q);
    if NeedsQuote(v) {
      assert q == "\"" + v + "\"";
      assert q[1..|q| - 1] == v;
    } else {
      assert q == v;
      assert forall j :: 0 <= j < |v| ==> v[j] != '"' && v[j] != '\'';
    }
  }

  /** Reading back the written lines rebuilds the entries, in order. */
  lemma {:induction false} ParseEnvLines(env: Env)
    requires SafeEnv(env)
    ensures ParseLines(EnvLines(env)) == env
  {
    if env != [] {
      var n := |env| - 1;
      var prev, k, v := env[..n], env[n].0, env[n].1;
      var line := k + "=" + QuoteIfNeeded(v);
      SafeEnvSnoc(env);
      EnvLinesSnoc(env);
      ParseEnvLines(prev);
      ParseWrittenLine(k, v);
      ParseLinesSnoc(EnvLines(prev), line);
      assert ParseLines(EnvLines(env)) == Step(prev, line);
      assert Step(prev, line) == Put(prev, k, v);
      assert Put(prev, k, v) == prev + [(k, v)];
      assert (k, v) == env[n];
      LastSplit(env);
    }
  }

  lemma LastSplit<T>(s: seq<T>)
    requires s != []
    ensures s == s[..|s| - 1] + [s[|s| - 1]]
  {
  }

  lemma ParseLinesSnoc(lines: seq<string>, line: string)
    ensures ParseLines(lines + [line]) == Step(ParseLines(lines), line)
  {
    assert (lines + [line])[..|lines|] == lines;
  }

  lemma EnvLinesSnoc(env: Env)
    requires env != []
    ensures var n := |env| - 1;
      EnvLines(env) == EnvLines(env[..n]) + [env[n].0 + "=" + QuoteIfNeeded(env[n].1)]
  {
  }

  /** The last entry's key is new to the entries before it, which stay safe. */
  lemma SafeEnvSnoc(env: Env)
    requires SafeEnv(env) && env != []
    ensures var n := |env| - 1;
      SafeEnv(env[..n]) && !HasKey(env[..n], env[n].0) && SafeKey(env[n].0) && SafeValue(env[n].1)
  {
    var n := |env| - 1;
    assert forall j :: 0 <= j < n ==> env[..n][j].0 != env[n].0;
  }

  /** Round trip: reading what `writeEnvAtomically` wrote returns the same
      object, when keys and values are ones the reader can give back. */
  lemma SerializeRoundTrip(env: Env, eol: string)
    requires SafeEnv(env)
    requires eol == "\n" || eol == "\r\n"
    ensures ParseEnv(SerializeEnv(env, eol)) == env
  {
    var lines := EnvLines(env);
    if env == [] {
      assert SerializeEnv(env, eol) == "";
      assert SplitLines("") == [""];
      assert ParseLines([""]) == Step(ParseLines([]), "");
    } else {
      forall i | 0 <= i < |lines|
        ensures !Contains(lines[i], '\n')
        ensures lines[i] == [] || lines[i][|lines[i]| - 1] != '\r'
      {
        ParseWrittenLine(env[i].0, env[i].1);
      }
      SplitLinesJoin(lines, eol);
      ParseEnvLines(env);
    }
  }

  /** A value with a double quote does not survive: the reader keeps the
      backslash of the `\"` escape. */
  lemma EscapedQuoteNotUndone()
    ensures ParseEnv(SerializeEnv([("K", "a\"b")], "\n")) == [("K", "a\\\"b")]
  {
    var line := "K=\"a\\\"b\"";
    EscapedQuoteWritten();
    EscapedQuoteRead(line);
  }

  lemma EscapedQuoteWritten()
    ensures SerializeEnv([("K", "a\"b")], "\n") == "K=\"a\\\"b\""
  {
    var v := "a\"b";
    var line := "K=\"a\\\"b\"";
    assert NeedsQuote(v) by { assert v[1] == '"'; }
    assert ReplaceAll(v, '"', "\\\"") == "a\\\"b";
    assert QuoteIfNeeded(v) == "\"a\\\"b\"";
    assert "K" + "=" + QuoteIfNeeded(v) == line;
    assert EnvLines([("K", v)])[0] == line;
    assert EnvLines([("K", v)]) == [line];
  }

  lemma EscapedQuoteRead(line: string)
    requires line == "K=\"a\\\"b\""
    ensures ParseEnv(line) == [("K", "a\\\"b")]
  {
    assert IndexOf(line, '\n') == -1;
    assert SplitLines(line) == [line];
    EscapedLineParsed(line);
    ParseLinesSnoc([], line);
    assert [] + [line] == [line];
  }

  lemma EscapedLineParsed(line: string)
    requires line == "K=\"a\\\"b\""
    ensures ParseLine(line) == Some(("K", "a\\\"b"))
  {
    var rest := "\"a\\\"b\"";
    assert line == "K" + ("=" + rest);
    ParseKeyValueLine("K", rest);
    TrimNoop(Js, rest);
    UnquoteEscaped();
  }

  lemma UnquoteEscaped()
    ensures Unquote("\"a\\\"b\"") == "a\\\"b"
  {
    var rest := "\"a\\\"b\"";
    assert |rest| == 6 && rest[0] == '"' && rest[5] == '"';
    assert rest[1..5] == "a\\\"b";
  }

  // ---- config.write -----------------------------------------------------------

  /** The keys `config.write` may change, in the order it visits them. */
  const SyncedKeys: seq<string> := ["LMSTUDIO_BASE_PATH", "EMBEDDING_BASE_PATH", "CHROMA_URL", "VECTOR_DB"]

  /** `(msg.body && msg.body.updates) || {}`. */
  function UpdatesOf(body: Json): Json
  {
    match body
    case JObj(f) => var u := Get(f, "updates"); if JsTruthy(u) then u else EmptyObj
    case _ => EmptyObj
  }

  /** The new value for `k`: present as an own property and not null, as a
      string (`String(updates[k])`). */
  function UpdateFor(updates: Json, k: string): Option<string>
  {
    match updates
    case JObj(f) =>
      (match Lookup(f, k)
       case Some(v) => if v.JNull? then None else Some(JsString(v))
       case None => None)
    case _ => None
  }

  /** The object after the keys `ks` have been visited in order. */
  function MergeKeys(env: Env, updates: Json, ks: seq<string>): Env
  {
    if ks == [] then env
    else
      var e := MergeKeys(env, updates, ks[..|ks| - 1]);
      match UpdateFor(updates, ks[|ks| - 1])
      case Some(v) => Put(e, ks[|ks| - 1], v)
      case None => e
  }

  /** The merge loop of `config.write`. */
  method ApplyConfigWrite(env: Env, updates: Json) returns (r: Env)
    ensures r == MergeKeys(env, updates, SyncedKeys)
  {
    r := env;
    for i := 0 to |SyncedKeys|
      invariant r == MergeKeys(env, updates, SyncedKeys[..i])
    {
      var k := SyncedKeys[i];
      assert SyncedKeys[..i + 1][..i] == SyncedKeys[..i];
      var u := UpdateFor(updates, k);
      if u.Some? {
        r := Put(r, k, u.value);
      }
    }
    assert SyncedKeys[..|SyncedKeys|] == SyncedKeys;
  }

  /** Only the four synchronised keys change, and only when the update carries
      them; every other entry of the file keeps its value. */
  lemma {:induction false} MergeKeysLookup(env: Env, updates: Json, ks: seq<string>, k: string)
    ensures Lookup(MergeKeys(env, updates, ks), k) ==
      if k in ks && UpdateFor(updates, k).Some? then UpdateFor(updates, k) else Lookup(env, k)
  {
    if ks != [] {
      var done := ks[..|ks| - 1];
      MergeKeysLookup(env, updates, done, k);
      var e := MergeKeys(env, updates, done);
      var key := ks[|ks| - 1];
      assert ks == done + [key];
      MergeStepLookup(env, e, updates, done, key, k);
    }
  }

  /** Visiting `key` after the keys `done` extends the lookup fact by one key. */
  lemma MergeStepLookup(env: Env, e: Env, updates: Json, done: seq<string>, key: string, k: string)
    requires Lookup(e, k) ==
      if k in done && UpdateFor(updates, k).Some? then UpdateFor(updates, k) else Lookup(env, k)
    ensures var u := UpdateFor(updates, key);
      Lookup(if u.Some? then Put(e, key, u.value) else e, k) ==
      if k in done + [key] && UpdateFor(updates, k).Some? then UpdateFor(updates, k) else Lookup(env, k)
  {
    var u := UpdateFor(updates, key);
    assert k in done + [key] <==> k in done || k == key;
    if u.Some? { PutLookup(e, key, u.value, k); }
  }

  /** The merge keeps every existing entry in its place and never duplicates a key. */
  lemma {:induction false} MergeKeysShape(env: Env, updates: Json, ks: seq<string>)
    ensures var r := MergeKeys(env, updates, ks);
      |env| <= |r| && Keys(r)[..|env|] == Keys(env)
      && (DistinctKeys(env) ==> DistinctKeys(r))
  {
    if ks != [] {
      MergeKeysShape(env, updates, ks[..|ks| - 1]);
      var e := MergeKeys(env, updates, ks[..|ks| - 1]);
      MergeStepShape(env, e, ks[|ks| - 1], UpdateFor(updates, ks[|ks| - 1]));
    }
  }

  /** One visited key extends the shape facts from `e` to the next object. */
  lemma MergeStepShape(env: Env, e: Env, k: string, u: Option<string>)
    requires |env| <= |e| && Keys(e)[..|env|] == Keys(env)
    requires DistinctKeys(env) ==> DistinctKeys(e)
    ensures var r := if u.Some? then Put(e, k, u.value) else e;
      |env| <= |r| && Keys(r)[..|env|] == Keys(env)
      && (DistinctKeys(env) ==> DistinctKeys(r))
  {
    if u.Some? {
      var r := Put(e, k, u.value);
      PutKeys(e, k, u.value);
      assert Keys(r)[..|env|] == Keys(e)[..|env|];
      if DistinctKeys(env) { PutDistinct(e, k, u.value); }
    }
  }

  function ParseEnvOr(file: Option<string>): Env
  {
    if file.None? then [] else ParseEnv(file.value)
  }

  /** The object `config.write` writes back, as a function of the file and the body. */
  function MergedEnv(file: Option<string>, body: Json): Env
  {
    MergeKeys(ParseEnvOr(file), UpdatesOf(body), SyncedKeys)
  }

  /** The whole `config.write` handler: read the file, merge, and return the
      text written back. */
  method ConfigWrite(file: Option<string>, body: Json, eol: string) returns (written: string)
    ensures written == SerializeEnv(MergedEnv(file, body), eol)
  {
    var env := ReadEnvFile(file);
    var merged := ApplyConfigWrite(env, UpdatesOf(body));
    written := SerializeEnv(merged, eol);
  }

  // ---- config.read.result -----------------------------------------------------

  /** The body of a `config.read.result` message. */
  datatype EnvSnapshot = EnvSnapshot(
    lmstudioBasePath: string,
    embeddingBasePath: string,
    chromaUrl: string,
    vectorDb: string,
    storageDir: string,
    orchestratorUpsertsOnly: bool)

  function OrEmpty(v: Option<string>): string
  {
    if v.Some? then v.value else ""
  }

  /** `readAnythingLLMEnv`: each of the four keys, or "" when missing. */
  function ReadAnythingLLMEnv(file: Option<string>, storageDir: string): (s: EnvSnapshot)
    ensures s.storageDir == storageDir && s.orchestratorUpsertsOnly
    ensures s.lmstudioBasePath == OrEmpty(Lookup(ParseEnvOr(file), "LMSTUDIO_BASE_PATH"))
    ensures s.embeddingBasePath == OrEmpty(Lookup(ParseEnvOr(file), "EMBEDDING_BASE_PATH"))
    ensures s.chromaUrl == OrEmpty(Lookup(ParseEnvOr(file), "CHROMA_URL"))
    ensures s.vectorDb == OrEmpty(Lookup(ParseEnvOr(file), "VECTOR_DB"))
    ensures !HasKey(ParseEnvOr(file), "CHROMA_URL") ==> s.chromaUrl == ""
    ensures file.None? ==> s.lmstudioBasePath == "" && s.embeddingBasePath == "" && s.chromaUrl == "" && s.vectorDb == ""
  {
    var env := ParseEnvOr(file);
    EnvSnapshot(OrEmpty(Lookup(env, "LMSTUDIO_BASE_PATH")), OrEmpty(Lookup(env, "EMBEDDING_BASE_PATH")),
                OrEmpty(Lookup(env, "CHROMA_URL")), OrEmpty(Lookup(env, "VECTOR_DB")), storageDir, true)
  }

  /** After `config.write`, the `config.read.result` it sends reports the new
      `CHROMA_URL`, provided the written file reads back as written. */
  lemma WriteThenReadReportsUpdate(file: Option<string>, body: Json, eol: string, storageDir: string, u: string)
    requires UpdateFor(UpdatesOf(body), "CHROMA_URL") == Some(u)
    requires SafeEnv(MergedEnv(file, body))
    requires eol == "\n" || eol == "\r\n"
    ensures ReadAnythingLLMEnv(Some(SerializeEnv(MergedEnv(file, body), eol)), storageDir).chromaUrl == u
  {
    var merged := MergedEnv(file, body);
    SerializeRoundTrip(merged, eol);
    MergeKeysLookup(ParseEnvOr(file), UpdatesOf(body), SyncedKeys, "CHROMA_URL");
    assert "CHROMA_URL" == SyncedKeys[2];
  }

  datatype ConfigMessage = ConfigMessage(id: Json, typ: string, scope: string, ok: bool, body: EnvSnapshot)

  /** `sendConfigReadResult`: a reply to a request when a correlation id is
      given, else an unsolicited event with a fresh `cfgsync_` id. */
  function SendConfigReadResult(correlationId: Json, isError: bool, body: EnvSnapshot, randomHex: string): (m: ConfigMessage)
    ensures m.scope == "config.read.result" && m.ok == !isError && m.body == body
    ensures JsTruthy(correlationId) ==> m.id == correlationId && m.typ == "mcp.response"
    ensures !JsTruthy(correlationId) ==> m.id == JStr("cfgsync_" + randomHex) && m.typ == "mcp.event"
  {
    ConfigMessage(if JsTruthy(correlationId) then correlationId else JStr("cfgsync_" + randomHex),
                  if JsTruthy(correlationId) then "mcp.response" else "mcp.event",
                  "config.read.result", !isError, body)
  }
}
