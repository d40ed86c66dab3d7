/** A Python `dict` whose iteration order matters: the dictionaries the stream
    handlers build and `_log_to_influx` walks with `data.items()`.  It is a list
    of entries in insertion order; `Insert` is `d[k] = v` (an existing key keeps
    its position and takes the new value, a new key goes to the end). */
module OrderedDict {
  import opened PyTypes

  type Dict = seq<(string, Value)>

  /** The keys in iteration order. */
  function Keys(d: Dict): (ks: seq<string>)
    ensures |ks| == |d|
    ensures forall i :: 0 <= i < |d| ==> ks[i] == d[i].0
  {
    if |d| == 0 then [] else [d[0].0] + Keys(d[1..])
  }

  /** No key occurs twice, as in every Python dict. */
  predicate DistinctKeys(d: Dict)
  {
    forall i, j :: 0 <= i < j < |d| ==> d[i].0 != d[j].0
  }

  /** `d.get(k)`: the value of the first entry for `k`. */
  function Lookup(d: Dict, k: string): (found: Option<Value>)
  {
    if |d| == 0 then None
    else if d[0].0 == k then Some(d[0].1)
    else Lookup(d[1..], k)
  }

  /** `d[k] = v`. */
  function Insert(d: Dict, k: string, v: Value): (r: Dict)
    ensures |r| <= |d| + 1
    ensures forall e :: e in r ==> e == (k, v) || e in d
  {
    if |d| == 0 then [(k, v)]
    else if d[0].0 == k then [(k, v)] + d[1..]
    else [d[0]] + Insert(d[1..], k, v)
  }

  lemma {:induction false} LookupPresent(d: Dict, k: string)
    ensures Lookup(d, k).Some? <==> k in Keys(d)
    ensures Lookup(d, k).Some? ==> exists i :: 0 <= i < |d| && d[i] == (k, Lookup(d, k).value)
  {
    if |d| > 0 {
      LookupPresent(d[1..], k);
      assert Keys(d) == [d[0].0] + Keys(d[1..]);
      if d[0].0 != k && Lookup(d, k).Some? {
        var i :| 0 <= i < |d[1..]| && d[1..][i] == (k, Lookup(d, k).value);
        assert d[i + 1] == (k, Lookup(d, k).value);
      }
    }
  }

  /** After `d[k] = v`, reading `k` gives `v` and every other key reads as before. */
  lemma {:induction false} InsertLookup(d: Dict, k: string, v: Value, j: string)
    ensures Lookup(Insert(d, k, v), j) == if j == k then Some(v) else Lookup(d, j)
  {
    if |d| > 0 && d[0].0 != k {
      InsertLookup(d[1..], k, v, j);
    }
  }

  /** After `d[k] = v`, the key order is unchanged when `k` was present and
      otherwise gains `k` at the end. */
  lemma {:induction false} InsertKeys(d: Dict, k: string, v: Value)
    ensures Keys(Insert(d, k, v)) == if k in Keys(d) then Keys(d) else Keys(d) + [k]
  {
    if |d| > 0 {
      assert Keys(d) == [d[0].0] + Keys(d[1..]);
      if d[0].0 == k {
        assert Keys(Insert(d, k, v)) == [k] + Keys(d[1..]);
      } else {
        InsertKeys(d[1..], k, v);
        assert Keys(Insert(d, k, v)) == [d[0].0] + Keys(Insert(d[1..], k, v));
      }
    }
  }

  /** `d[k] = v` keeps the keys of a dict distinct. */
  lemma InsertDistinct(d: Dict, k: string, v: Value)
    requires DistinctKeys(d)
    ensures DistinctKeys(Insert(d, k, v))
  {
    var r := Insert(d, k, v);
    InsertKeys(d, k, v);
    var kd, kr := Keys(d), Keys(r);
    forall i, j | 0 <= i < j < |r| ensures r[i].0 != r[j].0 {
      assert kr[i] == r[i].0 && kr[j] == r[j].0;
      if k !in kd && j == |kd| {
        assert kr[i] == kd[i];
      } else {
        assert kr[i] == kd[i] && kr[j] == kd[j];
      }
    }
  }
}
