/**
  The dataset flattening of `load_data` in main.py: the nested dict
  material -> gas -> field -> value read from JSON becomes
  material -> (gas, field) -> value, the column keying of the dataset
  table. A Python dict is modelled with its entries in insertion order; a
  dict comprehension assigns `d[k] = v` for each generated pair in turn.
 */
module Loader {
  import opened Wrappers

  /** A Python dict: its (key, value) entries in insertion order. */
  type Dict<K, V> = seq<(K, V)>

  function Keys<K, V>(d: Dict<K, V>): (ks: seq<K>)
    ensures |ks| == |d|
    ensures forall i :: 0 <= i < |d| ==> ks[i] == d[i].0
  {
    if d == [] then [] else [d[0].0] + Keys(d[1..])
  }

  /** No key occurs twice, as in every dict json.load builds. */
  ghost predicate UniqueKeys<K, V>(d: Dict<K, V>) {
    forall i, j :: 0 <= i < j < |d| ==> d[i].0 != d[j].0
  }

  /** Every level of the nested input is a dict with unique keys. */
  ghost predicate WellFormed<A, G, F, V>(data: Dict<A, Dict<G, Dict<F, V>>>) {
    && UniqueKeys(data)
    && (forall i :: 0 <= i < |data| ==> UniqueKeys(data[i].1))
    && (forall i, j :: 0 <= i < |data| && 0 <= j < |data[i].1| ==> UniqueKeys(data[i].1[j].1))
  }

  /** The lookup `d[k]`, or nothing where k is not a key. */
  function Get<K(==), V>(d: Dict<K, V>, k: K): (r: Option<V>)
    ensures r.None? <==> k !in Keys(d)
    ensures r.Some? ==> (k, r.value) in d
  {
    if d == [] then None
    else if d[0].0 == k then Some(d[0].1)
    else Get(d[1..], k)
  }

  /** `d[k] = v`: a present key keeps its place and takes the new value; a new key is appended. */
  function Put<K(==), V>(d: Dict<K, V>, k: K, v: V): (r: Dict<K, V>)
    ensures k !in Keys(d) ==> r == d + [(k, v)]
    ensures k in Keys(d) ==> Keys(r) == Keys(d)
  {
    if d == [] then [(k, v)]
    else if d[0].0 == k then [(k, v)] + d[1..]
    else [d[0]] + Put(d[1..], k, v)
  }

  /** A dict comprehension over the generated pairs kvs, continuing from d. */
  function BuildOnto<K(==), V>(d: Dict<K, V>, kvs: seq<(K, V)>): Dict<K, V>
    decreases |kvs|
  {
    if kvs == [] then d else BuildOnto(Put(d, kvs[0].0, kvs[0].1), kvs[1..])
  }

  /**
    A dict comprehension from scratch: its keys are the generated keys, and
    when no generated key repeats it holds the generated pairs in order.
   */
  function Build<K(==,!new), V>(kvs: seq<(K, V)>): (r: Dict<K, V>)
    ensures forall k :: k in Keys(r) <==> k in Keys(kvs)
    ensures UniqueKeys(kvs) ==> r == kvs
  {
    BuildOntoKeys([], kvs);
    BuildFresh(kvs);
    BuildOnto([], kvs)
  }

  /** The pairs ((g, f), v) generated from one gas's field dict. */
  function Tag<G, F, V>(g: G, fields: Dict<F, V>): seq<((G, F), V)> {
    seq(|fields|, i requires 0 <= i < |fields| => ((g, fields[i].0), fields[i].1))
  }

  /** The generator `((ok, ik), val) for (ok, idct) in b.items() for ik, val in idct.items()`. */
  function Pairs<G, F, V>(b: Dict<G, Dict<F, V>>): seq<((G, F), V)> {
    if b == [] then [] else Tag(b[0].0, b[0].1) + Pairs(b[1..])
  }

  /** A gas -> field dict whose every level has unique keys. */
  ghost predicate Nested<G, F, V>(b: Dict<G, Dict<F, V>>) {
    UniqueKeys(b) && forall j :: 0 <= j < |b| ==> UniqueKeys(b[j].1)
  }

  /** `b.get(g)` and then `.get(f)` on what it finds. */
  function NestedGet<G(==), F(==), V>(b: Dict<G, Dict<F, V>>, g: G, f: F): Option<V> {
    match Get(b, g)
    case None => None
    case Some(fields) => Get(fields, f)
  }

  /**
    The inner comprehension: one material's gas -> field dict flattened to
    (gas, field) keys. On a nested dict it is exactly the generated pairs,
    in order, with no key overwritten; it has one entry per (gas, field)
    pair, and looking up (g, f) finds what the nested dict holds under g and
    then f, and nothing where the nested dict has nothing.
   */
  function FlattenMaterial<G(==,!new), F(==,!new), V>(b: Dict<G, Dict<F, V>>): (r: Dict<(G, F), V>)
    ensures Nested(b) ==> r == Pairs(b) && UniqueKeys(r) && |r| == FieldCount(b)
    ensures Nested(b) ==> forall g, f :: Get(r, (g, f)) == NestedGet(b, g, f)
  {
    PairsFacts(b);
    Build(Pairs(b))
  }

  /** The generator of the outer comprehension: `a: {...} for (a, b) in data.items()`. */
  function Materials<A, G(==,!new), F(==,!new), V>(data: Dict<A, Dict<G, Dict<F, V>>>): seq<(A, Dict<(G, F), V>)> {
    seq(|data|, i requires 0 <= i < |data| => (data[i].0, FlattenMaterial(data[i].1)))
  }

  /**
    `data_new`: its keys, which become the row index of the DataFrame, are
    the material keys of the input; when those are unique (as in every dict
    json.load builds) they come in their order, each once, and each holds
    its material's flattened dict.
   */
  function Flatten<A(==,!new), G(==,!new), F(==,!new), V>(data: Dict<A, Dict<G, Dict<F, V>>>): (r: Dict<A, Dict<(G, F), V>>)
    ensures forall a :: a in Keys(r) <==> a in Keys(data)
    ensures UniqueKeys(data) ==> Keys(r) == Keys(data) && UniqueKeys(r)
    ensures UniqueKeys(data) ==> forall i :: 0 <= i < |data| ==> r[i] == (data[i].0, FlattenMaterial(data[i].1))
  {
    var ms := Materials(data);
    assert Keys(ms) == Keys(data);
    Build(ms)
  }

  /** The number of fields summed over the gases of one material. */
  function FieldCount<G, F, V>(b: Dict<G, Dict<F, V>>): nat {
    if b == [] then 0 else |b[0].1| + FieldCount(b[1..])
  }

  // ---------------------------------------------------------------------
  // Dict facts

  lemma {:induction false} UniqueKeysGet<K, V>(d: Dict<K, V>, i: nat)
    requires UniqueKeys(d) && i < |d|
    ensures Get(d, d[i].0) == Some(d[i].1)
  {
    if i > 0 {
      assert d[1..][i - 1] == d[i];
      UniqueKeysGet(d[1..], i - 1);
    }
  }

  lemma {:induction false} KeysTail<K, V>(d: Dict<K, V>, k: K)
    requires d != [] && d[0].0 != k
    ensures k in Keys(d) <==> k in Keys(d[1..])
    ensures Get(d, k) == Get(d[1..], k)
  {
    assert Keys(d) == [d[0].0] + Keys(d[1..]);
  }

  lemma {:induction false} GetAppend<K, V>(d: Dict<K, V>, e: Dict<K, V>, k: K)
    ensures Get(d + e, k) == if k in Keys(d) then Get(d, k) else Get(e, k)
  {
    if d == [] {
      assert d + e == e;
    } else if d[0].0 == k {
      assert Keys(d)[0] == k;
    } else {
      assert (d + e)[1..] == d[1..] + e;
      KeysTail(d + e, k);
      KeysTail(d, k);
      GetAppend(d[1..], e, k);
    }
  }

  /** After `d[k] = v`, k maps to v and every other key keeps its value. */
  lemma {:induction false} PutGet<K, V>(d: Dict<K, V>, k: K, v: V, k': K)
    ensures Get(Put(d, k, v), k') == if k' == k then Some(v) else Get(d, k')
  {
    if d != [] {
      if d[0].0 == k {
        assert Put(d, k, v)[1..] == d[1..];
      } else {
        PutGet(d[1..], k, v, k');
      }
    }
  }

  lemma UniqueKeysAppend<K, V>(d: Dict<K, V>, e: Dict<K, V>)
    requires UniqueKeys(d) && UniqueKeys(e)
    requires forall i, j :: 0 <= i < |d| && 0 <= j < |e| ==> d[i].0 != e[j].0
    ensures UniqueKeys(d + e)
  {
  }

  /** The first key still to be assigned is not yet in the dict. */
  lemma FreshHead<K, V>(d: Dict<K, V>, kvs: seq<(K, V)>)
    requires UniqueKeys(d + kvs) && kvs != []
    ensures kvs[0].0 !in Keys(d)
  {
    forall i | 0 <= i < |d| ensures Keys(d)[i] != kvs[0].0 {
      assert (d + kvs)[i] == d[i] && (d + kvs)[|d|] == kvs[0];
    }
  }

  /** With keys that never repeat, every assignment of a comprehension appends. */
  lemma {:induction false} BuildOntoFresh<K, V>(d: Dict<K, V>, kvs: seq<(K, V)>)
    requires UniqueKeys(d + kvs)
    ensures BuildOnto(d, kvs) == d + kvs
    decreases |kvs|
  {
    if kvs == [] {
      assert d + kvs == d;
    } else {
      FreshHead(d, kvs);
      var d' := Put(d, kvs[0].0, kvs[0].1);
      assert d' == d + [kvs[0]];
      assert d' + kvs[1..] == d + kvs;
      BuildOntoFresh(d', kvs[1..]);
    }
  }

  /** A comprehension's keys are the keys it started from and the keys it generated. */
  lemma {:induction false} BuildOntoKeys<K, V>(d: Dict<K, V>, kvs: seq<(K, V)>)
    ensures forall k :: k in Keys(BuildOnto(d, kvs)) <==> k in Keys(d) || k in Keys(kvs)
    decreases |kvs|
  {
    if kvs != [] {
      var d' := Put(d, kvs[0].0, kvs[0].1);
      BuildOntoKeys(d', kvs[1..]);
      assert Keys(kvs) == [kvs[0].0] + Keys(kvs[1..]);
      if kvs[0].0 !in Keys(d) {
        assert Keys(d') == Keys(d) + [kvs[0].0];
      }
    }
  }

  lemma BuildFresh<K, V>(kvs: seq<(K, V)>)
    ensures UniqueKeys(kvs) ==> BuildOnto([], kvs) == kvs
  {
    if UniqueKeys(kvs) {
      assert [] + kvs == kvs;
      BuildOntoFresh([], kvs);
    }
  }

  // ---------------------------------------------------------------------
  // The generated pairs of one material

  /** Every generated key's gas is a key of the material's dict. */
  lemma {:induction false} PairsGasIsKey<G, F, V>(b: Dict<G, Dict<F, V>>, q: nat)
    requires q < |Pairs(b)|
    ensures Pairs(b)[q].0.0 in Keys(b)
  {
    var t := Tag(b[0].0, b[0].1);
    assert Keys(b) == [b[0].0] + Keys(b[1..]);
    if q >= |t| {
      PairsGasIsKey(b[1..], q - |t|);
    }
  }

  lemma {:induction false} PairsUnique<G, F, V>(b: Dict<G, Dict<F, V>>)
    requires UniqueKeys(b)
    requires forall j :: 0 <= j < |b| ==> UniqueKeys(b[j].1)
    ensures UniqueKeys(Pairs(b))
  {
    if b != [] {
      var t, rest := Tag(b[0].0, b[0].1), Pairs(b[1..]);
      assert forall j :: 0 <= j < |b[1..]| ==> b[1..][j] == b[j + 1];
      PairsUnique(b[1..]);
      forall i, j | 0 <= i < |t| && 0 <= j < |rest| ensures t[i].0 != rest[j].0 {
        PairsGasIsKey(b[1..], j);
        var m :| 0 <= m < |b[1..]| && Keys(b[1..])[m] == rest[j].0.0;
        assert b[m + 1].0 == rest[j].0.0;
      }
      UniqueKeysAppend(t, rest);
    }
  }

  lemma {:induction false} PairsCount<G, F, V>(b: Dict<G, Dict<F, V>>)
    ensures |Pairs(b)| == FieldCount(b)
  {
    if b != [] {
      PairsCount(b[1..]);
    }
  }

  lemma TagGet<G, F, V>(g0: G, fields: Dict<F, V>, g: G, f: F)
    ensures Get(Tag(g0, fields), (g, f)) == if g == g0 then Get(fields, f) else None
    decreases |fields|
  {
    if fields != [] {
      assert Tag(g0, fields)[1..] == Tag(g0, fields[1..]);
      TagGet(g0, fields[1..], g, f);
    }
  }

  /** A key (g, f) is generated from b's first gas only when g is that gas. */
  lemma TagKeys<G, F, V>(g0: G, fields: Dict<F, V>, g: G, f: F)
    requires g != g0
    ensures (g, f) !in Keys(Tag(g0, fields))
  {
  }

  /** The first key of a dict with unique keys does not occur again, and its tail has unique keys. */
  lemma UniqueTail<K, V>(d: Dict<K, V>)
    requires UniqueKeys(d) && d != []
    ensures d[0].0 !in Keys(d[1..]) && UniqueKeys(d[1..])
  {
    forall i | 0 <= i < |d[1..]| ensures Keys(d[1..])[i] != d[0].0 {
      assert d[1..][i] == d[i + 1];
    }
  }

  lemma {:induction false} PairsGet<G, F, V>(b: Dict<G, Dict<F, V>>, g: G, f: F)
    requires UniqueKeys(b)
    ensures Get(Pairs(b), (g, f)) == NestedGet(b, g, f)
  {
    if b != [] {
      var t, rest := Tag(b[0].0, b[0].1), Pairs(b[1..]);
      assert Pairs(b) == t + rest;
      GetAppend(t, rest, (g, f));
      TagGet(b[0].0, b[0].1, g, f);
      UniqueTail(b);
      if b[0].0 != g {
        TagKeys(b[0].0, b[0].1, g, f);
        KeysTail(b, g);
        PairsGet(b[1..], g, f);
      } else if (g, f) !in Keys(t) {
        PairsGet(b[1..], g, f);
        assert Get(b[1..], g) == None;
      }
    }
  }

  // ---------------------------------------------------------------------
  // What the flattening promises

  lemma PairsFacts<G, F, V>(b: Dict<G, Dict<F, V>>)
    ensures Nested(b) ==> UniqueKeys(Pairs(b)) && |Pairs(b)| == FieldCount(b)
    ensures Nested(b) ==> forall g, f :: Get(Pairs(b), (g, f)) == NestedGet(b, g, f)
  {
    if Nested(b) {
      PairsUnique(b);
      PairsCount(b);
      forall g, f ensures Get(Pairs(b), (g, f)) == NestedGet(b, g, f) {
        PairsGet(b, g, f);
      }
    }
  }

  /**
    Flattening preserves values: for every material a, gas g and field f of
    the input, `data_new[a][(g, f)] == data[a][g][f]`.
   */
  lemma FlattenPreservesValues<A(!new), G(!new), F(!new), V>(data: Dict<A, Dict<G, Dict<F, V>>>, i: nat, j: nat, k: nat)
    requires WellFormed(data)
    requires i < |data| && j < |data[i].1| && k < |data[i].1[j].1|
    ensures var (a, b) := data[i];
            var (g, fields) := b[j];
            var (f, v) := fields[k];
            Get(Flatten(data), a) == Some(FlattenMaterial(b))
            && Get(FlattenMaterial(b), (g, f)) == Some(v)
  {
    var b: Dict<G, Dict<F, V>> := data[i].1;
    var fields: Dict<F, V> := b[j].1;
    assert Nested(b);
    UniqueKeysGet(Flatten(data), i);
    UniqueKeysGet(b, j);
    UniqueKeysGet(fields, k);
  }

  /**
    Nothing is added or dropped: (g, f) is a key of material a's flattened
    dict exactly when g is a gas of a and f a field of that gas.
   */
  lemma FlattenInnerKeys<A, G(!new), F(!new), V>(data: Dict<A, Dict<G, Dict<F, V>>>, i: nat, g: G, f: F)
    requires WellFormed(data) && i < |data|
    ensures (g, f) in Keys(FlattenMaterial(data[i].1)) <==>
              g in Keys(data[i].1) && f in Keys(Get(data[i].1, g).value)
  {
    assert Nested(data[i].1);
  }
}
