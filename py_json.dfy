/** Python values as the collectors see them after `response.json()`, and
    the dictionary, truthiness and conversion rules of Python that the
    record-processing code depends on. An operation that raises in Python
    returns `Err` here. */
module PyJson {

  import opened Wrappers
  import PyText

  /** The Python exceptions the modelled code raises or catches. */
  datatype PyError = KeyError | TypeError | ValueError | AttributeError | ImportError

  datatype Result<T> = Ok(value: T) | Err(error: PyError)

  /** A decoded JSON value. `JInt` and `JReal` are Python's `int` and `float`. */
  datatype Json =
    | JNull
    | JBool(b: bool)
    | JInt(i: int)
    | JReal(r: real)
    | JStr(s: string)
    | JArr(items: seq<Json>)
    | JObj(fields: map<string, Json>)

  /** Python's truth value of an object. */
  predicate Truthy(j: Json) {
    match j
    case JNull => false
    case JBool(b) => b
    case JInt(i) => i != 0
    case JReal(r) => r != 0.0
    case JStr(s) => s != []
    case JArr(a) => a != []
    case JObj(m) => m != map[]
  }

  /** `isinstance(j, (int, float))`; a `bool` is an `int` in Python. */
  predicate IsNumber(j: Json) {
    j.JBool? || j.JInt? || j.JReal?
  }

  function NumValue(j: Json): real
    requires IsNumber(j)
  {
    match j
    case JBool(b) => if b then 1.0 else 0.0
    case JInt(i) => i as real
    case JReal(r) => r
  }

  /** Lists and dicts cannot be dictionary keys. */
  predicate Hashable(j: Json) {
    !j.JArr? && !j.JObj?
  }

  /** `o.get(k, default)`: only dicts have `get`. */
  function Get(o: Json, k: string, default: Json): (r: Result<Json>)
    ensures r.Ok? <==> o.JObj?
    ensures r == Err(AttributeError) || r.Ok?
    ensures o.JObj? && k in o.fields ==> r.value == o.fields[k]
    ensures o.JObj? && k !in o.fields ==> r.value == default
  {
    if o.JObj? then Ok(if k in o.fields then o.fields[k] else default)
    else Err(AttributeError)
  }

  /** `o[k]` with a string key. */
  function Index(o: Json, k: string): (r: Result<Json>)
    ensures r.Ok? <==> o.JObj? && k in o.fields
    ensures r.Ok? ==> r.value == o.fields[k]
  {
    if o.JObj? then (if k in o.fields then Ok(o.fields[k]) else Err(KeyError))
    else Err(TypeError)
  }

  /** `k in o` with a string `k`: key membership for a dict, element
      membership for a list, substring for a string. */
  function Has(o: Json, k: string): (r: Result<bool>)
    ensures r.Ok? <==> o.JObj? || o.JArr? || o.JStr?
    ensures o.JObj? ==> r == Ok(k in o.fields)
  {
    match o
    case JObj(m) => Ok(k in m)
    case JArr(a) => Ok(JStr(k) in a)
    case JStr(s) => Ok(PyText.Contains(s, k))
    case _ => Err(TypeError)
  }

  /** `float(j)`. */
  function Float(j: Json): (r: Result<real>)
    ensures IsNumber(j) ==> r == Ok(NumValue(j))
    ensures r.Ok? ==> IsNumber(j) || j.JStr?
  {
    match j
    case JStr(s) =>
      (match PyText.ParseFloatText(s)
       case Some(v) => Ok(v)
       case None => Err(ValueError))
    case JNull => Err(TypeError)
    case JArr(_) => Err(TypeError)
    case JObj(_) => Err(TypeError)
    case _ => Ok(NumValue(j))
  }

  /** `o.get(k, {}).get(inner, default)`, the nested lookup the collectors
      use for price fields such as `price_hourly.net`. */
  function GetNested(o: Json, k: string, inner: string, default: Json): (r: Result<Json>)
    ensures o.JObj? && k !in o.fields ==> r == Ok(default)
    ensures o.JObj? && k in o.fields && o.fields[k].JObj? ==> r == Get(o.fields[k], inner, default)
    ensures !o.JObj? ==> r == Err(AttributeError)
  {
    match Get(o, k, JObj(map[]))
    case Err(e) => Err(e)
    case Ok(v) => Get(v, inner, default)
  }

  /** The scales `10^places` of the two precisions the collectors round to. */
  const SixPlaces: real := 1000000.0
  const TwoPlaces: real := 100.0

  /** The integer nearest to `v`, ties going to the even one. */
  function RoundHalfEven(v: real): (n: int)
    ensures -0.5 <= n as real - v <= 0.5
    ensures v.Floor as real == v ==> n == v.Floor
  {
    var f := v.Floor;
    var frac := v - f as real;
    if frac > 0.5 || (frac == 0.5 && f % 2 == 1) then f + 1 else f
  }

  /** Python's `round(x, places)` on an exact decimal value, with `scale`
      standing for `10^places`: to the nearest multiple of `1/scale`, ties
      going to the even neighbour. */
  function RoundTo(x: real, scale: real): real
    requires scale >= 1.0
  {
    RoundHalfEven(x * scale) as real / scale
  }

  /** The rounded value is a whole number of steps, the one nearest to
      `x`: within half a step of it. */
  lemma RoundToIsNearestStep(x: real, scale: real)
    requires scale >= 1.0
    ensures RoundTo(x, scale) * scale == RoundHalfEven(x * scale) as real
    ensures -0.5 <= RoundTo(x, scale) * scale - x * scale <= 0.5
  {
    var r := RoundTo(x, scale);
    ScaledBack(RoundHalfEven(x * scale), scale);
    assert r * scale == RoundHalfEven(x * scale) as real;
  }

  lemma ScaledBack(n: int, p: real)
    requires p > 0.0
    ensures n as real / p * p == n as real
  {
  }

  /** A whole number of steps rounds to itself. */
  lemma RoundExactStep(n: int, scale: real)
    requires scale >= 1.0
    ensures RoundTo(n as real / scale, scale) == n as real / scale
  {
    ScaledBack(n, scale);
    var y := n as real / scale;
    assert y * scale == n as real;
    assert (n as real).Floor == n;
    assert RoundHalfEven(n as real) == n;
    assert RoundHalfEven(y * scale) == n;
    RoundToUnfold(y, scale);
  }

  lemma RoundToUnfold(y: real, scale: real)
    requires scale >= 1.0
    ensures RoundTo(y, scale) == RoundHalfEven(y * scale) as real / scale
  {
  }

  /** Rounding a value that is already rounded changes nothing. */
  lemma RoundToIdempotent(x: real, scale: real)
    requires scale >= 1.0
    ensures RoundTo(RoundTo(x, scale), scale) == RoundTo(x, scale)
  {
    RoundExactStep(RoundHalfEven(x * scale), scale);
  }

  /** `n * 720` for the values Python can multiply by an int: numbers are
      scaled, strings and lists are repeated, anything else raises. */
  function TimesInt(j: Json, n: nat): (r: Result<Json>)
    ensures IsNumber(j) ==> r.Ok? && IsNumber(r.value) && NumValue(r.value) == NumValue(j) * n as real
    ensures r.Err? <==> j.JNull? || j.JObj?
  {
    if IsNumber(j) then Ok(ScaleNumber(j, n))
    else
      match j
      case JStr(s) => Ok(JStr(Repeat(s, n)))
      case JArr(a) => Ok(JArr(Repeat(a, n)))
      case _ => Err(TypeError)
  }

  /** A number times a count: an `int` stays an `int` (`True` counts as
      1), a `float` stays a `float`. */
  function ScaleNumber(j: Json, n: nat): (r: Json)
    requires IsNumber(j)
    ensures IsNumber(r) && NumValue(r) == NumValue(j) * n as real
  {
    match j
    case JBool(b) => JInt(if b then n else 0)
    case JInt(i) => IntProductAsReal(i, n); JInt(i * n)
    case JReal(x) => JReal(x * n as real)
  }

  lemma IntProductAsReal(i: int, n: nat)
    ensures (i * n) as real == i as real * n as real
  {
  }

  function Repeat<T>(s: seq<T>, n: nat): (r: seq<T>)
    ensures |r| == |s| * n
  {
    if n == 0 then [] else Repeat(s, n - 1) + s
  }

  /** `d.get(k, default)` on a value known to be a dict. */
  function Lookup(m: map<string, Json>, k: string, default: Json): (r: Json)
    ensures k in m ==> r == m[k]
    ensures k !in m ==> r == default
  {
    if k in m then m[k] else default
  }

  /** A rounded non-negative value is non-negative. */
  lemma RoundToNonNegative(x: real, scale: real)
    requires scale >= 1.0
    ensures x >= 0.0 ==> RoundTo(x, scale) >= 0.0
  {
    RoundToUnfold(x, scale);
    if x >= 0.0 {
      var n := RoundHalfEven(x * scale);
      assert n as real >= -0.5;
      assert n >= 0;
    }
  }
}
