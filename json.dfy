/**
 * JSON values as the handlers see them after `json.loads`: numbers are exact
 * (the handlers parse with `parse_float=Decimal`), and an object is a Python
 * dict, i.e. its entries in insertion order.
 */
module Json {
  import opened Wrappers

  datatype Value =
    | Null
    | Bool(b: bool)
    | Num(n: real)
    | Str(s: string)
    | List(elems: seq<Value>)
    | Obj(fields: Dict)

  datatype Field = Field(key: string, value: Value)

  /** A Python dict: its entries in insertion order. */
  type Dict = seq<Field>

  /** Python truthiness: None, False, 0, "", [] and {} are false. */
  predicate Truthy(v: Value) {
    match v
    case Null => false
    case Bool(b) => b
    case Num(n) => n != 0.0
    case Str(s) => s != ""
    case List(e) => e != []
    case Obj(f) => f != []
  }

  /** The keys of a dict, in insertion order (`list(d.keys())`). */
  function Keys(d: Dict): seq<string> {
    seq(|d|, i requires 0 <= i < |d| => d[i].key)
  }

  /** Every key occurs once, as in every dict Python builds. */
  predicate Distinct(d: Dict) {
    forall i, j | 0 <= i < j < |d| :: d[i].key != d[j].key
  }

  /** `d.get(k)`: the value stored under `k`, if any. */
  function Get(d: Dict, k: string): (r: Option<Value>)
    ensures r.Some? <==> k in Keys(d)
  {
    if d == [] then None
    else
      assert Keys(d) == [d[0].key] + Keys(d[1..]);
      if d[0].key == k then Some(d[0].value) else Get(d[1..], k)
  }

  /** In a dict with distinct keys, each entry is what `get` finds under its key. */
  lemma {:induction false} GetEntry(d: Dict, i: nat)
    requires Distinct(d) && i < |d|
    ensures Get(d, d[i].key) == Some(d[i].value)
  {
    if i > 0 {
      assert d[0].key != d[i].key;
      assert d[1..][i - 1] == d[i];
      GetEntry(d[1..], i - 1);
    }
  }

  /**
   * `d[k] = v`: an existing key keeps its position and takes the new value,
   * a new key is appended at the end.
   */
  function Set(d: Dict, k: string, v: Value): (r: Dict)
    ensures Get(r, k) == Some(v)
    ensures forall j | j != k :: Get(r, j) == Get(d, j)
  {
    if d == [] then [Field(k, v)]
    else if d[0].key == k then [Field(k, v)] + d[1..]
    else
      var r := [d[0]] + Set(d[1..], k, v);
      assert r[1..] == Set(d[1..], k, v);
      r
  }

  /** `d[k] = v` leaves the key order alone, or appends `k`. */
  lemma {:induction false} SetKeys(d: Dict, k: string, v: Value)
    ensures Keys(Set(d, k, v)) == if k in Keys(d) then Keys(d) else Keys(d) + [k]
  {
    if d != [] {
      var r := Set(d, k, v);
      assert Keys(d) == [d[0].key] + Keys(d[1..]);
      assert Keys(r) == [r[0].key] + Keys(r[1..]);
      if d[0].key != k {
        SetKeys(d[1..], k, v);
      }
    }
  }

  /** `d[k] = v` keeps the keys of a dict distinct. */
  lemma SetDistinct(d: Dict, k: string, v: Value)
    requires Distinct(d)
    ensures Distinct(Set(d, k, v))
  {
    SetKeys(d, k, v);
    var r := Set(d, k, v);
    if k in Keys(d) {
      DistinctByKeys(d, r);
    } else {
      assert Keys(r) == Keys(d) + [k];
      assert |r| == |d| + 1 && r[|d|].key == Keys(r)[|d|];
      DistinctByKeys(d, r);
    }
  }

  /** Two dicts with the same keys, or one more key not among them, are distinct together. */
  lemma DistinctByKeys(d: Dict, r: Dict)
    requires Keys(r) == Keys(d) || (|r| == |d| + 1 && Keys(r) == Keys(d) + [r[|d|].key] && r[|d|].key !in Keys(d))
    ensures Distinct(d) ==> Distinct(r)
  {
    if Distinct(d) {
      forall i, j | 0 <= i < j < |r| ensures r[i].key != r[j].key {
        assert Keys(r)[i] == r[i].key && Keys(r)[j] == r[j].key;
        if j < |d| {
          assert Keys(d)[i] == d[i].key && Keys(d)[j] == d[j].key;
        }
      }
    }
  }

  /** `d.update(o)`: the entries of `o` assigned into `d` one by one, in order. */
  function Merged(d: Dict, o: Dict): Dict
    decreases |o|
  {
    if o == [] then d
    else
      var n := |o| - 1;
      Set(Merged(d, o[..n]), o[n].key, o[n].value)
  }

  /** The key `k` of `o + [f]` is found in `o` if it is there, else in `f`. */
  lemma {:induction false} GetAppend(o: Dict, f: Field, k: string)
    ensures Get(o + [f], k) ==
      if k in Keys(o) then Get(o, k) else if f.key == k then Some(f.value) else None
  {
    if o == [] {
      assert o + [f] == [f];
    } else {
      assert (o + [f])[1..] == o[1..] + [f];
      assert Keys(o) == [o[0].key] + Keys(o[1..]);
      GetAppend(o[1..], f, k);
    }
  }

  /**
   * After `d.update(o)` every key of `o` carries `o`'s value and every other
   * key carries `d`'s value.
   */
  lemma {:induction false} MergedGet(d: Dict, o: Dict, k: string)
    requires Distinct(o)
    ensures Get(Merged(d, o), k) == if k in Keys(o) then Get(o, k) else Get(d, k)
    decreases |o|
  {
    if o != [] {
      var n := |o| - 1;
      var p := o[..n];
      assert o == p + [o[n]];
      assert Keys(o) == Keys(p) + [o[n].key];
      assert Distinct(p);
      MergedGet(d, p, k);
      GetAppend(p, o[n], k);
      if k == o[n].key {
        assert k !in Keys(p);
      }
    }
  }

  /** The keys of `d.update(o)`: those of `d`, then the new keys of `o` in `o`'s order. */
  function NewKeys(ks: seq<string>, o: Dict): seq<string>
    decreases |o|
  {
    if o == [] then []
    else
      var n := |o| - 1;
      var before := NewKeys(ks, o[..n]);
      if o[n].key in ks || o[n].key in before then before else before + [o[n].key]
  }

  /** `d.update(o)` keeps `d`'s key order and appends the keys it did not have. */
  lemma {:induction false} MergedKeys(d: Dict, o: Dict)
    ensures Keys(Merged(d, o)) == Keys(d) + NewKeys(Keys(d), o)
    decreases |o|
  {
    if o != [] {
      var n := |o| - 1;
      MergedKeys(d, o[..n]);
      SetKeys(Merged(d, o[..n]), o[n].key, o[n].value);
    }
  }
}
