/**
 * The Python operations the server applies to JSON values, each with the exceptions
 * CPython raises for it.  An operation that raises yields `Failure(exc)`; the request
 * handler turns any of them into an HTTP 500 reply.  Messages follow CPython 3.11.
 */
module PyOps {
  import opened Wrappers
  import opened JsonValues

  /** A raised Python exception.  `KeyError` carries the missing key itself. */
  datatype PyExc =
    | KeyError(key: Json)
    | IndexError(msg: string)
    | TypeError(msg: string)
    | ValueError(msg: string)
    | AttributeError(msg: string)
      /** Python goes on here, but what it builds cannot be written as a Json value. */
    | OutsideModel(msg: string)

  /** The string-to-number conversions behind `float(s)` and `int(s)`; `None` is a ValueError. */
  datatype Parsers = Parsers(parseFloat: string -> Option<real>, parseInt: string -> Option<int>)

  function TypeName(j: Json): string {
    match j
    case JNull => "NoneType"
    case JBool(_) => "bool"
    case JInt(_) => "int"
    case JFloat(_) => "float"
    case JStr(_) => "str"
    case JArray(_) => "list"
    case JObject(_) => "dict"
  }

  /** Lists and dicts cannot be dictionary keys. */
  predicate Hashable(j: Json) {
    !j.JArray? && !j.JObject?
  }

  /** The numeric value of a bool, int or float (`True == 1 == 1.0` in Python). */
  function NumberValue(j: Json): Option<real> {
    match j
    case JBool(b) => Some(if b then 1.0 else 0.0)
    case JInt(i) => Some(i as real)
    case JFloat(f) => Some(f)
    case _ => None
  }

  /** Python's `==` on JSON values: numbers by value, lists pointwise, dicts key by key. */
  predicate PyEq(a: Json, b: Json)
    decreases a
  {
    match a
    case JNull => b.JNull?
    case JStr(s) => b.JStr? && b.s == s
    case JArray(xs) =>
      b.JArray? && |xs| == |b.items| &&
      forall i | 0 <= i < |xs| :: PyEq(xs[i], b.items[i])
    case JObject(fs) =>
      b.JObject? && |fs| == |b.fields| &&
      forall i | 0 <= i < |fs| ::
        Lookup(b.fields, fs[i].0).Some? && PyEq(fs[i].1, Lookup(b.fields, fs[i].0).value)
    case _ => NumberValue(b).Some? && NumberValue(a) == NumberValue(b)
  }

  predicate IsSubstring(needle: string, hay: string) {
    exists i :: 0 <= i <= |hay| - |needle| && needle <= hay[i..]
  }

  /** `needle in haystack`. */
  function Contains(haystack: Json, needle: Json): (r: Result<bool, PyExc>)
    ensures r.Failure? ==> r.error.TypeError?
    ensures haystack.JObject? && needle.JStr? ==> r == Success(needle.s in Keys(haystack.fields))
  {
    match haystack
    case JObject(fields) =>
      if !Hashable(needle) then Failure(TypeError("unhashable type: '" + TypeName(needle) + "'"))
      else Success(needle.JStr? && needle.s in Keys(fields))
    case JArray(items) => Success(exists i :: 0 <= i < |items| && PyEq(items[i], needle))
    case JStr(t) =>
      if needle.JStr? then Success(IsSubstring(needle.s, t))
      else Failure(TypeError("'in <string>' requires string as left operand, not " + TypeName(needle)))
    case _ => Failure(TypeError("argument of type '" + TypeName(haystack) + "' is not iterable"))
  }

  /** The integer a bool or int stands for when used as a list index. */
  function IndexValue(j: Json): Option<int> {
    match j
    case JBool(b) => Some(if b then 1 else 0)
    case JInt(i) => Some(i)
    case _ => None
  }

  /** Python's index normalisation: `-len <= i < len` addresses `i mod len`. */
  function Normalise(i: int, len: nat): Option<nat> {
    if 0 <= i < len then Some(i) else if -(len as int) <= i < 0 then Some(len + i) else None
  }

  /** `container[key]`. */
  function GetItem(container: Json, key: Json): (r: Result<Json, PyExc>)
    ensures container.JObject? && key.JStr? ==>
      (r.Success? <==> key.s in Keys(container.fields)) &&
      (r.Success? ==> Lookup(container.fields, key.s) == Some(r.value))
    ensures r.Success? && key.JStr? ==> container.JObject?
  {
    match container
    case JObject(fields) =>
      if !Hashable(key) then Failure(TypeError("unhashable type: '" + TypeName(key) + "'"))
      else if key.JStr? && key.s in Keys(fields) then Success(Lookup(fields, key.s).value)
      else Failure(KeyError(key))
    case JArray(items) =>
      if IndexValue(key).None? then
        Failure(TypeError("list indices must be integers or slices, not " + TypeName(key)))
      else
        (match Normalise(IndexValue(key).value, |items|)
         case Some(n) => Success(items[n])
         case None => Failure(IndexError("list index out of range")))
    case JStr(t) =>
      if IndexValue(key).None? then
        Failure(TypeError("string indices must be integers, not '" + TypeName(key) + "'"))
      else
        (match Normalise(IndexValue(key).value, |t|)
         case Some(n) => Success(JStr([t[n]]))
         case None => Failure(IndexError("string index out of range")))
    case _ => Failure(TypeError("'" + TypeName(container) + "' object is not subscriptable"))
  }

  /** `container[key] = value` with a string key. */
  function SetItem(container: Json, key: string, value: Json): (r: Result<Json, PyExc>)
    ensures r.Success? <==> container.JObject?
    ensures r.Success? ==> r.value == JObject(Put(container.fields, key, value))
  {
    match container
    case JObject(fields) => Success(JObject(Put(fields, key, value)))
    case JArray(_) => Failure(TypeError("list indices must be integers or slices, not str"))
    case _ => Failure(TypeError("'" + TypeName(container) + "' object does not support item assignment"))
  }

  /**
   * Writes `value` back at the place `GetItem(container, key)` read from: the model's
   * counterpart of mutating a nested dict or list through a reference.
   */
  function Replace(container: Json, key: Json, value: Json): Json {
    match container
    case JObject(fields) => if key.JStr? then JObject(Put(fields, key.s, value)) else container
    case JArray(items) =>
      if IndexValue(key).None? then container
      else
        (match Normalise(IndexValue(key).value, |items|)
         case Some(n) => JArray(items[n := value])
         case None => container)
    case _ => container
  }

  /** `container[k1][k2]`. */
  function GetNested(container: Json, k1: string, k2: string): Result<Json, PyExc> {
    var inner :- GetItem(container, JStr(k1));
    GetItem(inner, JStr(k2))
  }

  /** `container[k1][k2] = value`, the inner dict being updated in place. */
  function SetNested(container: Json, k1: string, k2: string, value: Json): (r: Result<Json, PyExc>)
    ensures r.Success? <==>
      container.JObject? && k1 in Keys(container.fields) && Lookup(container.fields, k1).value.JObject?
    ensures r.Success? ==>
      container.JObject? && k1 in Keys(container.fields) &&
      Lookup(container.fields, k1).value.JObject? &&
      r.value == JObject(Put(container.fields, k1,
                             JObject(Put(Lookup(container.fields, k1).value.fields, k2, value))))
  {
    var inner :- GetItem(container, JStr(k1));
    var updated :- SetItem(inner, k2, value);
    SetItem(container, k1, updated)
  }

  /** `lst.append(v)`. */
  function Append(lst: Json, v: Json): (r: Result<Json, PyExc>)
    ensures r.Success? <==> lst.JArray?
    ensures r.Success? ==> r.value == JArray(lst.items + [v])
  {
    if lst.JArray? then Success(JArray(lst.items + [v]))
    else Failure(AttributeError("'" + TypeName(lst) + "' object has no attribute 'append'"))
  }

  /** Decimal text of a natural number, for the positions Python names in its messages. */
  function NatText(n: nat): string
    decreases n
  {
    var d := ['0', '1', '2', '3', '4', '5', '6', '7', '8', '9'][n % 10];
    if n < 10 then [d] else NatText(n / 10) + [d]
  }

  /** The elements of a value seen as a Python sequence, or None when it is not one. */
  function AsSequence(j: Json): Option<seq<Json>> {
    match j
    case JArray(xs) => Some(xs)
    case JStr(t) => Some(seq(|t|, k requires 0 <= k < |t| => JStr([t[k]])))
    case JObject(fs) => Some(seq(|fs|, k requires 0 <= k < |fs| => JStr(fs[k].0)))
    case _ => None
  }

  /** The entries of `source` (a dict) stored into `target`, one after the other. */
  function UpdateFromDict(target: Fields, source: Fields): (r: Fields)
    decreases |source|
  {
    if |source| == 0 then target
    else UpdateFromDict(Put(target, source[0].0, source[0].1), source[1..])
  }

  /**
   * After `target.update(source)` with a dict, every key looks up the source's value if
   * the source has that key, and the target's value otherwise.
   */
  lemma {:induction false} UpdateFromDictMerges(target: Fields, source: Fields)
    requires UniqueKeys(source)
    ensures forall k :: Lookup(UpdateFromDict(target, source), k) ==
                       if k in Keys(source) then Lookup(source, k) else Lookup(target, k)
    decreases |source|
  {
    if |source| > 0 {
      var k0, rest := source[0].0, source[1..];
      assert Keys(rest) == Keys(source)[1..];
      assert UniqueKeys(rest);
      assert k0 !in Keys(rest) by {
        forall j | 0 <= j < |rest| ensures Keys(rest)[j] != k0 {
          assert Keys(source)[j + 1] == Keys(rest)[j];
        }
      }
      assert Keys(source) == [k0] + Keys(rest);
      UpdateFromDictMerges(Put(target, k0, source[0].1), rest);
    }
  }

  /** The pairs `pairs[at..]` of a sequence argument stored into `target`. */
  function UpdateFromPairs(target: Fields, pairs: seq<Json>, at: nat): Result<Fields, PyExc>
    decreases |pairs| - at
  {
    if at >= |pairs| then Success(target)
    else
      var element := pairs[at];
      match AsSequence(element)
      case None =>
        Failure(TypeError("cannot convert dictionary update sequence element #" + NatText(at) + " to a sequence"))
      case Some(kv) =>
        if |kv| != 2 then
          Failure(ValueError("dictionary update sequence element #" + NatText(at) + " has length "
                             + NatText(|kv|) + "; 2 is required"))
        else if !Hashable(kv[0]) then
          Failure(TypeError("unhashable type: '" + TypeName(kv[0]) + "'"))
        else if !kv[0].JStr? then
          Failure(OutsideModel("dictionary key of type " + TypeName(kv[0])))
        else UpdateFromPairs(Put(target, kv[0].s, kv[1]), pairs, at + 1)
  }

  /**
   * `target.update(source)`: a dict argument is merged key by key, its keys winning;
   * any other argument must be a sequence of key/value pairs.
   */
  function Update(target: Json, source: Json): (r: Result<Json, PyExc>)
    ensures target.JObject? && source.JObject? ==>
      r == Success(JObject(UpdateFromDict(target.fields, source.fields)))
    ensures r.Success? ==> target.JObject? && r.value.JObject?
  {
    if !target.JObject? then
      Failure(AttributeError("'" + TypeName(target) + "' object has no attribute 'update'"))
    else
      match source
      case JObject(fs) => Success(JObject(UpdateFromDict(target.fields, fs)))
      case JArray(xs) =>
        var merged :- UpdateFromPairs(target.fields, xs, 0);
        Success(JObject(merged))
      case JStr(t) =>
        if |t| == 0 then Success(target)
        else Failure(ValueError("dictionary update sequence element #0 has length 1; 2 is required"))
      case _ => Failure(TypeError("'" + TypeName(source) + "' object is not iterable"))
  }

  /** `int(x)` of a float truncates toward zero. */
  function Truncate(f: real): (r: int)
    ensures f >= 0.0 ==> 0 <= r && r as real <= f < r as real + 1.0
    ensures f < 0.0 ==> r <= 0 && r as real - 1.0 < f <= r as real
  {
    if f >= 0.0 then f.Floor else -((-f).Floor)
  }

  /** `float(x)`. */
  function Float(j: Json, parsers: Parsers): (r: Result<real, PyExc>)
    ensures j.JInt? ==> r == Success(j.i as real)
    ensures j.JFloat? ==> r == Success(j.f)
    ensures j.JBool? ==> r == Success(if j.b then 1.0 else 0.0)
    ensures j.JStr? ==> (r.Success? <==> parsers.parseFloat(j.s).Some?)
    ensures j.JStr? && r.Success? ==> r.value == parsers.parseFloat(j.s).value
    ensures j.JStr? && r.Failure? ==> r.error.ValueError?
    ensures j.JNull? || j.JArray? || j.JObject? ==> r.Failure? && r.error.TypeError?
  {
    match j
    case JInt(i) => Success(i as real)
    case JFloat(f) => Success(f)
    case JBool(b) => Success(if b then 1.0 else 0.0)
    case JStr(s) =>
      if parsers.parseFloat(s).Some? then Success(parsers.parseFloat(s).value)
      else Failure(ValueError("could not convert string to float: '" + s + "'"))
    case _ => Failure(TypeError("float() argument must be a string or a real number, not '" + TypeName(j) + "'"))
  }

  /** `int(x)`. */
  function Int(j: Json, parsers: Parsers): (r: Result<int, PyExc>)
    ensures j.JInt? ==> r == Success(j.i)
    ensures j.JFloat? ==> r == Success(Truncate(j.f))
    ensures j.JBool? ==> r == Success(if j.b then 1 else 0)
    ensures j.JStr? ==> (r.Success? <==> parsers.parseInt(j.s).Some?)
    ensures j.JStr? && r.Success? ==> r.value == parsers.parseInt(j.s).value
    ensures j.JStr? && r.Failure? ==> r.error.ValueError?
    ensures j.JNull? || j.JArray? || j.JObject? ==> r.Failure? && r.error.TypeError?
  {
    match j
    case JInt(i) => Success(i)
    case JFloat(f) => Success(Truncate(f))
    case JBool(b) => Success(if b then 1 else 0)
    case JStr(s) =>
      if parsers.parseInt(s).Some? then Success(parsers.parseInt(s).value)
      else Failure(ValueError("invalid literal for int() with base 10: '" + s + "'"))
    case _ =>
      Failure(TypeError("int() argument must be a string, a bytes-like object or a real number, not '"
                        + TypeName(j) + "'"))
  }
}
