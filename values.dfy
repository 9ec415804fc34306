/** Python values as the client sees them: decoded JSON payloads, keyword-argument
    dictionaries, and the exceptions the client raises or lets through.

    A dictionary is an ordered list of entries, as a Python dict keeps insertion
    order.  Dictionaries built by Python never repeat a key; when an entry list
    does, lookup takes the LAST entry, which is what `json.loads` and repeated
    `d[k] = v` assignments do. */
module Values {

  datatype Option<+T> = None | Some(value: T)

  /** A decoded payload or keyword value.  `Time` is the opaque result of parsing a
      timestamp; `Handle` is the shared back-reference to the request mechanism. */
  datatype Value =
    | Null
    | Bool(b: bool)
    | Int(i: int)
    | Str(s: string)
    | List(items: seq<Value>)
    | Object(entries: seq<(string, Value)>)
    | Time(source: Value)
    | Handle(ref: nat)

  type Entries = seq<(string, Value)>

  /** The exceptions of the library and of the Python runtime that the core can raise. */
  datatype Exception =
    | ApiError(message: string)                          // VxCubeApiException
    | HttpError(reason: Value, code: int, body: Value)   // VxCubeApiHttpException
    | AttributeError(name: string)
    | KeyError(key: string)
    | TypeError(what: string)
    | ValueError(what: string)
    | ZeroDivisionError
    | UsageError(message: string)                        // click.UsageError
    | ConnectionClosed                                   // WebSocketConnectionClosedException
    | KeyboardInterrupt
    | OtherError(what: string)

  datatype Result<+T> = Ok(value: T) | Err(error: Exception)

  /** Python truthiness (`bool(v)`). */
  predicate Truthy(v: Value) {
    match v
    case Null => false
    case Bool(b) => b
    case Int(i) => i != 0
    case Str(s) => s != ""
    case List(xs) => xs != []
    case Object(es) => es != []
    case Time(_) => true
    case Handle(_) => true
  }

  function BoolToInt(b: bool): int {
    if b then 1 else 0
  }

  /** Python `==` on values: booleans compare equal to 0 and 1, lists compare
      element by element; other values compare structurally. */
  predicate PyEq(a: Value, b: Value) {
    match (a, b)
    case (Bool(x), Bool(y)) => x == y
    case (Bool(x), Int(j)) => BoolToInt(x) == j
    case (Int(i), Bool(y)) => i == BoolToInt(y)
    case (Int(i), Int(j)) => i == j
    case (List(xs), List(ys)) =>
      |xs| == |ys| && forall k :: 0 <= k < |xs| ==> PyEq(xs[k], ys[k])
    case _ => a == b
  }

  /** The keys an entry list mentions. */
  function KeysOf(d: Entries): set<string> {
    set i | 0 <= i < |d| :: d[i].0
  }

  lemma {:induction false} KeysOfSnoc(d: Entries)
    requires d != []
    ensures KeysOf(d) == KeysOf(d[..|d| - 1]) + {d[|d| - 1].0}
  {
    var init := d[..|d| - 1];
    forall k | k in KeysOf(d) ensures k in KeysOf(init) + {d[|d| - 1].0} {
      var i :| 0 <= i < |d| && d[i].0 == k;
      if i < |d| - 1 { assert init[i].0 == k; }
    }
    forall k | k in KeysOf(init) ensures k in KeysOf(d) {
      var i :| 0 <= i < |init| && init[i].0 == k;
      assert d[i].0 == k;
    }
  }

  /** No key is repeated, as in every dictionary Python builds. */
  predicate DistinctKeys(d: Entries) {
    forall i, j :: 0 <= i < j < |d| ==> d[i].0 != d[j].0
  }

  /** `d.get(key)`, distinguishing a missing key from a key bound to None. */
  function Lookup(d: Entries, key: string): (r: Option<Value>)
    ensures r.Some? <==> key in KeysOf(d)
    ensures r.Some? ==> exists i :: 0 <= i < |d| && d[i] == (key, r.value)
    decreases |d|
  {
    if d == [] then None
    else
      KeysOfSnoc(d);
      if d[|d| - 1].0 == key then Some(d[|d| - 1].1) else Lookup(d[..|d| - 1], key)
  }

  /** `d.get(key, default)`. */
  function Get(d: Entries, key: string, default: Value): Value {
    match Lookup(d, key)
    case Some(v) => v
    case None => default
  }

  /** `d.pop(key, ...)` seen from the dictionary: every entry for `key` is gone. */
  function RemoveKey(d: Entries, key: string): (r: Entries)
    ensures KeysOf(r) == KeysOf(d) - {key}
    ensures |r| <= |d|
    ensures forall k :: k != key ==> Lookup(r, k) == Lookup(d, k)
    decreases |d|
  {
    if d == [] then []
    else
      var init := RemoveKey(d[..|d| - 1], key);
      KeysOfSnoc(d);
      if d[|d| - 1].0 == key then init
      else
        var r := init + [d[|d| - 1]];
        assert r[..|r| - 1] == init;
        KeysOfSnoc(r);
        r
  }

  /** Popping a key the dictionary does not hold leaves it as it is. */
  lemma {:induction false} RemoveKeyAbsent(d: Entries, key: string)
    requires key !in KeysOf(d)
    ensures RemoveKey(d, key) == d
    decreases |d|
  {
    if d != [] {
      KeysOfSnoc(d);
      RemoveKeyAbsent(d[..|d| - 1], key);
    }
  }

  /** `d.setdefault(key, value)`. */
  function SetDefault(d: Entries, key: string, v: Value): Entries {
    if key in KeysOf(d) then d else d + [(key, v)]
  }

  lemma {:induction false} SetDefaultLookup(d: Entries, key: string, v: Value)
    ensures Lookup(SetDefault(d, key, v), key) == if key in KeysOf(d) then Lookup(d, key) else Some(v)
    ensures forall k :: k != key ==> Lookup(SetDefault(d, key, v), k) == Lookup(d, k)
    ensures KeysOf(SetDefault(d, key, v)) == KeysOf(d) + {key}
  {
    if key !in KeysOf(d) {
      var r := d + [(key, v)];
      assert r[..|r| - 1] == d;
      KeysOfSnoc(r);
    }
  }

  /** `d[key] = v`: an existing entry keeps its place, a new key goes last. */
  function SetKey(d: Entries, key: string, v: Value): (r: Entries)
    ensures Lookup(r, key) == Some(v)
    ensures KeysOf(r) == KeysOf(d) + {key}
    ensures forall k :: k != key ==> Lookup(r, k) == Lookup(d, k)
  {
    if key in KeysOf(d) then Replace(d, key, v)
    else
      var r := d + [(key, v)];
      assert r[..|r| - 1] == d;
      KeysOfSnoc(r);
      r
  }

  function Replace(d: Entries, key: string, v: Value): (r: Entries)
    requires key in KeysOf(d)
    ensures Lookup(r, key) == Some(v)
    ensures KeysOf(r) == KeysOf(d)
    ensures |r| == |d| && forall i :: 0 <= i < |d| ==> r[i].0 == d[i].0
    ensures forall k :: k != key ==> Lookup(r, k) == Lookup(d, k)
    decreases |d|
  {
    var last := d[|d| - 1];
    KeysOfSnoc(d);
    if last.0 == key then
      var r := d[..|d| - 1] + [(key, v)];
      assert r[..|r| - 1] == d[..|d| - 1];
      KeysOfSnoc(r);
      r
    else
      var init := Replace(d[..|d| - 1], key, v);
      var r := init + [last];
      assert r[..|r| - 1] == init;
      KeysOfSnoc(r);
      r
  }

  /** What `for x in v` visits: a list's items, a dictionary's keys, a string's
      characters.  Anything else is not iterable. */
  function Iterate(v: Value): (r: Result<seq<Value>>)
    ensures v.List? ==> r == Ok(v.items)
    ensures r.Ok? <==> v.List? || v.Object? || v.Str?
  {
    match v
    case List(xs) => Ok(xs)
    case Object(es) => Ok(seq(|es|, i requires 0 <= i < |es| => Str(es[i].0)))
    case Str(s) => Ok(seq(|s|, i requires 0 <= i < |s| => Str([s[i]])))
    case _ => Err(TypeError("object is not iterable"))
  }

  /** A true collection visits at least one element. */
  lemma {:induction false} TruthyIterate(v: Value)
    requires Truthy(v) && Iterate(v).Ok?
    ensures |Iterate(v).value| > 0
  {
    match v
    case List(xs) =>
    case Object(es) => assert |Iterate(v).value| == |es|;
    case Str(s) => assert |Iterate(v).value| == |s|;
  }

  /** `_convert_time`: an empty or missing timestamp becomes None; anything else is
      parsed, and the parse itself is opaque here. */
  function ConvertTime(v: Value): (r: Value)
    ensures !Truthy(v) ==> r == Null
    ensures Truthy(v) ==> r == Time(v)
  {
    if Truthy(v) then Time(v) else Null
  }

  function Join(sep: string, parts: seq<string>): (r: string)
    ensures parts == [] ==> r == ""
    ensures |parts| == 1 ==> r == parts[0]
    decreases |parts|
  {
    if parts == [] then ""
    else if |parts| == 1 then parts[0]
    else Join(sep, parts[..|parts| - 1]) + sep + parts[|parts| - 1]
  }

  function Digit(d: nat): char
    requires d < 10
  {
    "0123456789"[d]
  }

  function NatToDecimal(n: nat): (r: string)
    ensures |r| > 0
    decreases n
  {
    if n < 10 then [Digit(n)] else NatToDecimal(n / 10) + [Digit(n % 10)]
  }

  function IntToDecimal(i: int): string {
    if i < 0 then "-" + NatToDecimal(-i) else NatToDecimal(i)
  }

  /** Python `str(v)` (when `quoted` is false) and `repr(v)` (when it is true). */
  function Render(v: Value, quoted: bool): string {
    match v
    case Null => "None"
    case Bool(b) => if b then "True" else "False"
    case Int(i) => IntToDecimal(i)
    case Str(s) => if quoted then "'" + s + "'" else s
    case List(xs) =>
      "[" + Join(", ", seq(|xs|, k requires 0 <= k < |xs| => Render(xs[k], true))) + "]"
    case Object(es) =>
      "{" + Join(", ", seq(|es|, k requires 0 <= k < |es| =>
        "'" + es[k].0 + "': " + Render(es[k].1, true))) + "}"
    case Time(src) => Render(src, quoted)
    case Handle(_) => "<VxCubeRawApi object>"
  }

  /** Python `str(v)`. */
  function PyStr(v: Value): string {
    Render(v, false)
  }
}
