/** The `params` dict the handlers build and the gateway extends: an ordered
    mapping from parameter name to a string or number value, with Python's
    dict semantics (assigning an existing key keeps its position). */
module QueryParams {

  datatype Param = Str(s: string) | Number(n: int)

  /** A dict as its insertion-ordered keys and its key-to-value map. */
  datatype Query = Query(keys: seq<string>, vals: map<string, Param>) {

    ghost predicate Valid() {
      && (forall i, j :: 0 <= i < j < |keys| ==> keys[i] != keys[j])
      && (forall k :: k in vals <==> k in keys)
    }

    /** d[k] = v: a new key goes last, an existing one keeps its place. */
    function Put(k: string, v: Param): Query
    {
      if k in vals then Query(keys, vals[k := v]) else Query(keys + [k], vals[k := v])
    }
  }

  /** Assignment keeps the keys distinct and in step with the entries, and
      changes the entry of k and nothing else. */
  lemma PutKeepsValid(d: Query, k: string, v: Param)
    requires d.Valid()
    ensures var r := d.Put(k, v);
      && r.Valid()
      && k in r.vals && r.vals[k] == v
      && (forall k' :: k' != k ==> (k' in r.vals <==> k' in d.vals))
      && (forall k' :: k' != k && k' in d.vals ==> r.vals[k'] == d.vals[k'])
      && (k in d.vals ==> r.keys == d.keys)
      && (k !in d.vals ==> r.keys == d.keys + [k] && |r.keys| == |d.keys| + 1)
  {
  }

  const Empty := Query([], map[])

  /** The mutable dict itself, as the gateway sees it. */
  class Params {
    var keys: seq<string>
    var vals: map<string, Param>

    function Value(): Query
      reads this
    {
      Query(keys, vals)
    }

    ghost predicate Valid()
      reads this
    {
      Value().Valid()
    }

    constructor ()
      ensures Valid() && Value() == Empty
    {
      keys := [];
      vals := map[];
    }

    /** params[k] = v, in place. */
    method Set(k: string, v: Param)
      requires Valid()
      modifies this
      ensures Valid()
      ensures Value() == old(Value()).Put(k, v)
    {
      PutKeepsValid(Value(), k, v);
      if k !in vals {
        keys := keys + [k];
      }
      vals := vals[k := v];
    }
  }
}
