/** Values shared by every component of the gateway: an optional value, JSON
    documents as the Python and JavaScript code sees them after parsing, the
    truthiness rules both languages apply to them, and insertion-ordered
    dictionaries (Python `dict`, JavaScript plain objects). */
module Values {

  datatype Option<T> = None | Some(value: T)

  /** A parsed JSON document. Objects keep their keys in insertion order, as
      both `json.loads` and `JSON.parse` do; numbers are modelled as integers. */
  datatype Json =
    | JNull
    | JBool(b: bool)
    | JNum(n: int)
    | JStr(s: string)
    | JArr(items: seq<Json>)
    | JObj(fields: seq<(string, Json)>)

  /** An insertion-ordered dictionary. */
  type Dict<K, V> = seq<(K, V)>

  /** Python truthiness: None, False, 0, "", [] and {} are false. */
  predicate Truthy(j: Json)
  {
    match j
    case JNull => false
    case JBool(b) => b
    case JNum(n) => n != 0
    case JStr(s) => s != ""
    case JArr(items) => items != []
    case JObj(fields) => fields != []
  }

  /** JavaScript truthiness: like Python's, except that every array and every
      object is true. */
  predicate JsTruthy(j: Json)
  {
    match j
    case JNull => false
    case JBool(b) => b
    case JNum(n) => n != 0
    case JStr(s) => s != ""
    case JArr(_) => true
    case JObj(_) => true
  }

  /** Python's `a or b`. */
  function PyOr(a: Json, b: Json): (r: Json)
    ensures Truthy(a) ==> r == a
    ensures !Truthy(a) ==> r == b
  {
    if Truthy(a) then a else b
  }

  const EmptyObj: Json := JObj([])

  /** The outcome of Python code that may raise: a value, or the exception's
      message. */
  datatype Attempt<T> = Ok(value: T) | Raised(message: string)

  /** Python's name for the type of a JSON value. */
  function TypeName(j: Json): string
  {
    match j
    case JNull => "NoneType"
    case JBool(_) => "bool"
    case JNum(_) => "int"
    case JStr(_) => "str"
    case JArr(_) => "list"
    case JObj(_) => "dict"
  }

  /** Python's `for x in j` over a JSON value: a list yields its items, a dict
      its keys, a string its characters; anything else raises TypeError. */
  function PyIter(j: Json): (r: Attempt<seq<Json>>)
    ensures r.Raised? <==> !(j.JArr? || j.JObj? || j.JStr?)
    ensures j.JArr? ==> r == Ok(j.items)
    ensures j.JObj? ==> r.Ok? && |r.value| == |j.fields| && forall i :: 0 <= i < |j.fields| ==> r.value[i] == JStr(j.fields[i].0)
    ensures j.JStr? ==> r.Ok? && |r.value| == |j.s| && forall i :: 0 <= i < |j.s| ==> r.value[i] == JStr([j.s[i]])
  {
    match j
    case JArr(items) => Ok(items)
    case JObj(fields) => Ok(seq(|fields|, i requires 0 <= i < |fields| => JStr(fields[i].0)))
    case JStr(s) => Ok(seq(|s|, i requires 0 <= i < |s| => JStr([s[i]])))
    case _ => Raised("'" + TypeName(j) + "' object is not iterable")
  }

  /** Python's hashability: lists and dicts cannot be dictionary keys. */
  predicate Hashable(j: Json)
  {
    !(j.JArr? || j.JObj?)
  }

  /** The TypeError message of using an unhashable value as a key. */
  function Unhashable(k: Json): string
  {
    "unhashable type: '" + TypeName(k) + "'"
  }

  /** The dictionary key a hashable value is: Python's `True == 1` and
      `False == 0` compare and hash equal, so each pair is one key. */
  function DictKey(j: Json): (r: Json)
    ensures Truthy(r) == Truthy(j) && !r.JBool?
    ensures !j.JBool? ==> r == j
  {
    match j
    case JBool(b) => JNum(if b then 1 else 0)
    case _ => j
  }

  // ---- insertion-ordered dictionaries ---------------------------------------

  function Keys<K, V>(d: Dict<K, V>): (ks: seq<K>)
    ensures |ks| == |d|
    ensures forall i :: 0 <= i < |d| ==> ks[i] == d[i].0
  {
    if d == [] then [] else [d[0].0] + Keys(d[1..])
  }

  function Values<K, V>(d: Dict<K, V>): (vs: seq<V>)
    ensures |vs| == |d|
    ensures forall i :: 0 <= i < |d| ==> vs[i] == d[i].1
  {
    if d == [] then [] else [d[0].1] + Values(d[1..])
  }

  predicate HasKey<K(==), V>(d: Dict<K, V>, k: K)
  {
    exists i :: 0 <= i < |d| && d[i].0 == k
  }

  /** No key occurs twice: what every Python dict and JavaScript object satisfies. */
  predicate DistinctKeys<K(==), V>(d: Dict<K, V>)
  {
    forall i, j :: 0 <= i < j < |d| ==> d[i].0 != d[j].0
  }

  /** `d.get(k)`: the value bound to the first (in a well-formed dictionary, the
      only) occurrence of `k`. */
  function Lookup<K(==), V>(d: Dict<K, V>, k: K): (r: Option<V>)
    ensures r.None? <==> !HasKey(d, k)
    ensures r.Some? ==> exists i :: 0 <= i < |d| && d[i] == (k, r.value)
  {
    if d == [] then None
    else if d[0].0 == k then Some(d[0].1)
    else
      var r := Lookup(d[1..], k);
      assert r.Some? ==> exists i :: 0 <= i < |d[1..]| && d[1..][i] == (k, r.value);
      assert HasKey(d[1..], k) ==> HasKey(d, k) by {
        if HasKey(d[1..], k) {
          var i :| 0 <= i < |d[1..]| && d[1..][i].0 == k;
          assert d[i + 1].0 == k;
        }
      }
      assert HasKey(d, k) ==> HasKey(d[1..], k) by {
        if HasKey(d, k) {
          var i :| 0 <= i < |d| && d[i].0 == k;
          assert i != 0 && d[1..][i - 1].0 == k;
        }
      }
      r
  }

  /** `d[k] = v`: an existing key keeps its position and takes the new value; a
      new key is appended at the end. */
  function Put<K(==), V>(d: Dict<K, V>, k: K, v: V): (r: Dict<K, V>)
    ensures HasKey(d, k) ==> |r| == |d|
    ensures !HasKey(d, k) ==> r == d + [(k, v)]
  {
    if d == [] then [(k, v)]
    else if d[0].0 == k then [(k, v)] + d[1..]
    else
      HasKeyTail(d, k);
      [d[0]] + Put(d[1..], k, v)
  }

  lemma {:induction false} PutLookup<K, V>(d: Dict<K, V>, k: K, v: V, k': K)
    ensures Lookup(Put(d, k, v), k') == if k' == k then Some(v) else Lookup(d, k')
  {
    if d != [] && d[0].0 != k {
      PutLookup(d[1..], k, v, k');
      assert Put(d, k, v)[1..] == Put(d[1..], k, v);
    }
  }

  lemma {:induction false} PutKeys<K, V>(d: Dict<K, V>, k: K, v: V)
    ensures Keys(Put(d, k, v)) == if HasKey(d, k) then Keys(d) else Keys(d) + [k]
  {
    if d != [] && d[0].0 != k {
      PutKeys(d[1..], k, v);
      HasKeyTail(d, k);
      var r := Put(d, k, v);
      assert r[1..] == Put(d[1..], k, v);
      assert Keys(r) == [d[0].0] + Keys(r[1..]);
      assert Keys(d) == [d[0].0] + Keys(d[1..]);
    }
  }

  /** A key other than the first entry's is present iff it is in the rest. */
  lemma HasKeyTail<K, V>(d: Dict<K, V>, k: K)
    requires d != [] && d[0].0 != k
    ensures HasKey(d, k) <==> HasKey(d[1..], k)
  {
    if HasKey(d, k) {
      var i :| 0 <= i < |d| && d[i].0 == k;
      assert d[1..][i - 1].0 == k;
    }
    if HasKey(d[1..], k) {
      var i :| 0 <= i < |d[1..]| && d[1..][i].0 == k;
      assert d[i + 1].0 == k;
    }
  }

  lemma PutDistinct<K, V>(d: Dict<K, V>, k: K, v: V)
    requires DistinctKeys(d)
    ensures DistinctKeys(Put(d, k, v))
  {
    var r := Put(d, k, v);
    PutKeys(d, k, v);
    forall i, j | 0 <= i < j < |r| ensures r[i].0 != r[j].0 {
      assert Keys(r)[i] == r[i].0 && Keys(r)[j] == r[j].0;
    }
  }

  /** In a dictionary without repeated keys, each entry is what its key looks up. */
  lemma {:induction false} LookupDistinct<K, V>(d: Dict<K, V>, i: nat)
    requires DistinctKeys(d) && i < |d|
    ensures Lookup(d, d[i].0) == Some(d[i].1)
  {
    if i > 0 {
      assert d[0].0 != d[i].0;
      assert DistinctKeys(d[1..]) by {
        forall a, b | 0 <= a < b < |d[1..]| ensures d[1..][a].0 != d[1..][b].0 {
          assert d[1..][a] == d[a + 1] && d[1..][b] == d[b + 1];
        }
      }
      assert d[1..][i - 1] == d[i];
      LookupDistinct(d[1..], i - 1);
    }
  }

  /** Looking up in an extended dictionary. */
  lemma {:induction false} LookupSnoc<K, V>(d: Dict<K, V>, k: K, v: V, k': K)
    ensures Lookup(d + [(k, v)], k') == if HasKey(d, k') then Lookup(d, k') else if k' == k then Some(v) else None
  {
    if d != [] {
      assert (d + [(k, v)])[1..] == d[1..] + [(k, v)];
      LookupSnoc(d[1..], k, v, k');
    }
  }

  lemma DistinctSnoc<K, V>(d: Dict<K, V>, k: K, v: V)
    requires DistinctKeys(d) && !HasKey(d, k)
    ensures DistinctKeys(d + [(k, v)])
  {
  }

  /** Python's `d.get(k)` on a JSON object: `None` (here JNull) when absent. */
  function Get(fields: seq<(string, Json)>, k: string): (r: Json)
    ensures !HasKey(fields, k) ==> r == JNull
    ensures HasKey(fields, k) ==> Some(r) == Lookup(fields, k)
  {
    match Lookup(fields, k)
    case Some(v) => v
    case None => JNull
  }

  /** Python's `d.get(k, default)`: the default only when the key is absent. */
  function GetOr(fields: seq<(string, Json)>, k: string, default: Json): (r: Json)
    ensures !HasKey(fields, k) ==> r == default
    ensures HasKey(fields, k) ==> Some(r) == Lookup(fields, k)
  {
    match Lookup(fields, k)
    case Some(v) => v
    case None => default
  }

  /** The fields of a JSON value that Python would treat as a dict, or None when
      calling `.get` on it would raise AttributeError. */
  function AsObject(j: Json): Option<seq<(string, Json)>>
  {
    match j
    case JObj(f) => Some(f)
    case _ => None
  }

  // ---- rendering integers ---------------------------------------------------

  function DigitChar(d: nat): (c: char)
    requires d < 16
  {
    "0123456789abcdef"[d]
  }

  function NatToBase(n: nat, base: nat): (s: string)
    requires 2 <= base <= 16
    ensures |s| >= 1
    decreases n
  {
    if n < base then [DigitChar(n)]
    else NatToBase(n / base, base) + [DigitChar(n % base)]
  }

  /** Python `str(n)` / JavaScript `String(n)` for an integer. */
  function Decimal(n: int): (s: string)
    ensures |s| >= 1
  {
    if n < 0 then "-" + NatToBase(-n, 10) else NatToBase(n, 10)
  }

  /** Python `f"{n:x}"`: lower-case hexadecimal without prefix. */
  function Hex(n: nat): (s: string)
    ensures |s| >= 1
    ensures forall i :: 0 <= i < |s| ==> s[i] in "0123456789abcdef"
  {
    HexDigits(n);
    NatToBase(n, 16)
  }

  lemma {:induction false} HexDigits(n: nat)
    ensures forall i :: 0 <= i < |NatToBase(n, 16)| ==> NatToBase(n, 16)[i] in "0123456789abcdef"
    decreases n
  {
    if n >= 16 {
      HexDigits(n / 16);
    }
  }

  /** Python `str(x)` for a JSON scalar. A list or an object is rendered by a
      fixed placeholder rather than by Python's `repr` text, so where such a
      value reaches a string (a host URL, a session or persona id) the model's
      text differs from the source's. */
  function PyStr(j: Json): string
  {
    match j
    case JNull => "None"
    case JBool(b) => if b then "True" else "False"
    case JNum(n) => Decimal(n)
    case JStr(s) => s
    case JArr(_) => "[...]"
    case JObj(_) => "{...}"
  }

  /** Python `str(x)` is never empty for a truthy value. */
  lemma PyStrTruthy(j: Json)
    requires Truthy(j)
    ensures PyStr(j) != ""
  {
  }

  /** JavaScript `String(x)`: arrays are joined with "," (null elements become
      ""), plain objects print as "[object Object]". */
  function JsString(j: Json): string
  {
    match j
    case JNull => "null"
    case JBool(b) => if b then "true" else "false"
    case JNum(n) => Decimal(n)
    case JStr(s) => s
    case JArr(items) => JsJoinItems(items)
    case JObj(_) => "[object Object]"
  }

  function JsJoinItems(items: seq<Json>): string
    decreases items, 0
  {
    if items == [] then ""
    else
      var first := if items[0].JNull? then "" else JsString(items[0]);
      if |items| == 1 then first else first + "," + JsJoinItems(items[1..])
  }
}
