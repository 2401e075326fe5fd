/** JSON values as the source sees them after `JSON.parse`: objects keep their keys in order. */
module Json {
  import opened Wrappers

  datatype Json =
    | Null
    | Bool(b: bool)
    | Number(n: real)
    | Str(s: string)
    | Array(items: seq<Json>)
    | Object(fields: seq<(string, Json)>)

  /** The key/value pairs of a JSON object, in insertion order. */
  type Fields = seq<(string, Json)>

  /** Property access `obj[key]`: the value of the first entry with that key. */
  function Lookup(fields: Fields, key: string): (r: Option<Json>)
    ensures r.Some? ==> exists i :: 0 <= i < |fields| && fields[i] == (key, r.value)
    ensures r.None? <==> forall i :: 0 <= i < |fields| ==> fields[i].0 != key
  {
    if fields == [] then None
    else if fields[0].0 == key then Some(fields[0].1)
    else
      var r := Lookup(fields[1..], key);
      assert forall i :: 1 <= i < |fields| ==> fields[i] == fields[1..][i - 1];
      r
  }

  /** Looking a key up in a concatenation looks in the first part, then in the second. */
  lemma {:induction false} LookupAppend(a: Fields, b: Fields, key: string)
    ensures Lookup(a + b, key) == if Lookup(a, key).Some? then Lookup(a, key) else Lookup(b, key)
  {
    if a == [] {
      assert a + b == b;
    } else {
      assert (a + b)[0] == a[0];
      assert (a + b)[1..] == a[1..] + b;
      LookupAppend(a[1..], b, key);
    }
  }

  /** The entries whose key is not in `keys`, in order: what a passthrough object keeps beside its known keys. */
  function Without(fields: Fields, keys: set<string>): (r: Fields)
    ensures |r| <= |fields|
    ensures forall i :: 0 <= i < |r| ==> r[i].0 !in keys && r[i] in fields
    ensures (forall i :: 0 <= i < |fields| ==> fields[i].0 !in keys) ==> r == fields
    ensures (forall i :: 0 <= i < |fields| ==> fields[i].0 in keys) ==> r == []
  {
    if fields == [] then []
    else
      var rest := Without(fields[1..], keys);
      assert forall i :: 1 <= i < |fields| ==> fields[i] == fields[1..][i - 1];
      if fields[0].0 in keys then rest else [fields[0]] + rest
  }

  lemma {:induction false} WithoutAppend(a: Fields, b: Fields, keys: set<string>)
    ensures Without(a + b, keys) == Without(a, keys) + Without(b, keys)
  {
    if a == [] {
      assert a + b == b;
    } else {
      assert (a + b)[0] == a[0];
      assert (a + b)[1..] == a[1..] + b;
      WithoutAppend(a[1..], b, keys);
    }
  }

  /** No entry of `fields` uses one of `keys`. */
  predicate KeysAvoid(fields: Fields, keys: set<string>) {
    forall i :: 0 <= i < |fields| ==> fields[i].0 !in keys
  }

  lemma LookupCons(k: string, v: Json, rest: Fields, key: string)
    ensures Lookup([(k, v)] + rest, key) == if k == key then Some(v) else Lookup(rest, key)
  {
    assert ([(k, v)] + rest)[0] == (k, v);
    assert ([(k, v)] + rest)[1..] == rest;
  }

  lemma WithoutCons(k: string, v: Json, rest: Fields, keys: set<string>)
    ensures Without([(k, v)] + rest, keys) == if k in keys then Without(rest, keys) else [(k, v)] + Without(rest, keys)
  {
    assert ([(k, v)] + rest)[0] == (k, v);
    assert ([(k, v)] + rest)[1..] == rest;
  }
}
