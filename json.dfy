/**
 * JSON values as Python's `json` module hands them to the server: `None`, `bool`,
 * `int`, `float`, `str`, `list` and `dict`.  A dictionary is kept as the ordered list
 * of its entries, because Python iterates a dict in insertion order and that order
 * decides which room or field an error message names.
 */
module JsonValues {
  import opened Wrappers

  datatype Json =
    | JNull
    | JBool(b: bool)
    | JInt(i: int)
    | JFloat(f: real)
    | JStr(s: string)
    | JArray(items: seq<Json>)
    | JObject(fields: seq<(string, Json)>)

  type Fields = seq<(string, Json)>

  /** The keys of a dictionary, in iteration order. */
  function Keys(fields: Fields): (ks: seq<string>)
    ensures |ks| == |fields|
    ensures forall i :: 0 <= i < |fields| ==> ks[i] == fields[i].0
  {
    if |fields| == 0 then [] else [fields[0].0] + Keys(fields[1..])
  }

  predicate Distinct(s: seq<string>) {
    forall i, j :: 0 <= i < j < |s| ==> s[i] != s[j]
  }

  /** A Python dict never holds the same key twice. */
  predicate UniqueKeys(fields: Fields) {
    Distinct(Keys(fields))
  }

  /** Unique keys in every dictionary of the tree, as `json.loads` always produces. */
  predicate WellFormed(j: Json)
    decreases j
  {
    match j
    case JArray(items) => forall x | x in items :: WellFormed(x)
    case JObject(fields) => UniqueKeys(fields) && forall p | p in fields :: WellFormed(p.1)
    case _ => true
  }

  /** `d.get(k)`: the value stored under `k`, if any. */
  function Lookup(fields: Fields, k: string): (r: Option<Json>)
    ensures r.Some? <==> k in Keys(fields)
    ensures r.Some? ==> (k, r.value) in fields
  {
    if |fields| == 0 then None
    else if fields[0].0 == k then Some(fields[0].1)
    else Lookup(fields[1..], k)
  }

  /**
   * `d[k] = v`: an existing key keeps its position and gets the new value; a new key
   * is appended at the end.
   */
  function Put(fields: Fields, k: string, v: Json): (r: Fields)
    ensures Keys(r) == if k in Keys(fields) then Keys(fields) else Keys(fields) + [k]
    ensures Lookup(r, k) == Some(v)
    ensures forall k' {:trigger Lookup(r, k')} :: k' != k ==> Lookup(r, k') == Lookup(fields, k')
  {
    if |fields| == 0 then [(k, v)]
    else if fields[0].0 == k then [(k, v)] + fields[1..]
    else [fields[0]] + Put(fields[1..], k, v)
  }

  lemma {:induction false} PutKeepsKeysUnique(fields: Fields, k: string, v: Json)
    requires UniqueKeys(fields)
    ensures UniqueKeys(Put(fields, k, v))
  {
    var ks, rs := Keys(fields), Keys(Put(fields, k, v));
    if k !in ks {
      forall i, j | 0 <= i < j < |rs| ensures rs[i] != rs[j] {
        if j == |ks| {
          assert rs[j] == k && rs[i] == ks[i];
        }
      }
    }
  }

  lemma {:induction false} PutKeepsWellFormed(fields: Fields, k: string, v: Json)
    requires WellFormed(JObject(fields)) && WellFormed(v)
    ensures WellFormed(JObject(Put(fields, k, v)))
  {
    PutKeepsKeysUnique(fields, k, v);
    var r := Put(fields, k, v);
    forall p | p in r ensures WellFormed(p.1) {
      var i :| 0 <= i < |r| && r[i] == p;
      assert Keys(r)[i] == p.0;
      LookupOfUnique(r, i);
      if p.0 != k {
        assert Lookup(fields, p.0) == Some(p.1);
        assert (p.0, p.1) in fields;
      }
    }
  }

  /** Storing under the same key twice keeps only the second value. */
  lemma {:induction false} PutTwice(fields: Fields, k: string, a: Json, b: Json)
    ensures Put(Put(fields, k, a), k, b) == Put(fields, k, b)
  {
    if |fields| > 0 && fields[0].0 != k {
      PutTwice(fields[1..], k, a, b);
    }
  }

  /** Entry `i` is what its key looks up when no earlier entry has that key. */
  lemma {:induction false} LookupFirst(fields: Fields, i: nat)
    requires i < |fields| && forall j :: 0 <= j < i ==> fields[j].0 != fields[i].0
    ensures Lookup(fields, fields[i].0) == Some(fields[i].1)
  {
    if i > 0 {
      var rest := fields[1..];
      assert forall j :: 0 <= j < i - 1 ==> rest[j] == fields[j + 1];
      LookupFirst(rest, i - 1);
    }
  }

  /** In a dictionary with unique keys, entry `i` is what its key looks up. */
  lemma {:induction false} LookupOfUnique(fields: Fields, i: nat)
    requires UniqueKeys(fields) && i < |fields|
    ensures Lookup(fields, fields[i].0) == Some(fields[i].1)
  {
    if i > 0 {
      assert Keys(fields)[0] != Keys(fields)[i];
      var rest := fields[1..];
      assert Keys(rest) == Keys(fields)[1..];
      assert rest[i - 1] == fields[i];
      LookupOfUnique(rest, i - 1);
    }
  }
}
