/** Python's insertion-ordered dictionary with string keys (`OrderedDict`, and `dict` since 3.7). */
module OrdMaps {
  import opened Base

  /** `keys` is the iteration order, `vals` the contents. */
  datatype OrdMap<V> = OrdMap(keys: seq<string>, vals: map<string, V>) {

    ghost predicate Valid() {
      && (forall i, j :: 0 <= i < j < |keys| ==> keys[i] != keys[j])
      && (forall k :: k in vals <==> k in keys)
    }

    predicate Has(k: string) { k in vals }

    function Get(k: string): V
      requires k in vals
    {
      vals[k]
    }

    /** `d[k] = v`: an existing key keeps its place, a new key goes last. */
    function Put(k: string, v: V): (r: OrdMap<V>)
      ensures r.vals == vals[k := v]
    {
      if k in vals then OrdMap(keys, vals[k := v]) else OrdMap(keys + [k], vals[k := v])
    }

    /** A second assignment to the same key overrides the first. */
    lemma PutPut(k: string, a: V, b: V)
      ensures Put(k, a).Put(k, b) == Put(k, b)
    {
      assert vals[k := a][k := b] == vals[k := b];
    }

    /** Every value replaced by its image under `f`, keys and their order kept. */
    function MapValues<W>(f: V -> W): (r: OrdMap<W>)
      ensures r.keys == keys && r.vals.Keys == vals.Keys
      ensures forall k :: k in vals ==> r.vals[k] == f(vals[k])
      ensures Valid() ==> r.Valid()
    {
      OrdMap(keys, map k | k in vals :: f(vals[k]))
    }

    /** `del d[k]` for a present key. */
    function Delete(k: string): (r: OrdMap<V>)
      ensures r.vals == vals - {k}
      ensures Valid() ==> r.Valid()
      ensures forall x :: x in r.keys <==> x in keys && x != k
    {
      OrdMap(Without(keys, k), vals - {k})
    }
  }

  function Empty<V>(): (r: OrdMap<V>)
    ensures r.Valid() && r.keys == [] && r.vals == map[]
  {
    OrdMap([], map[])
  }

  /** `keys` with every occurrence of `k` dropped, order kept. */
  function Without(keys: seq<string>, k: string): (r: seq<string>)
    ensures forall x :: x in r <==> x in keys && x != k
    ensures (forall i, j :: 0 <= i < j < |keys| ==> keys[i] != keys[j]) ==>
              (forall i, j :: 0 <= i < j < |r| ==> r[i] != r[j])
  {
    if keys == [] then []
    else if keys[0] == k then Without(keys[1..], k)
    else
      var rest := Without(keys[1..], k);
      assert (forall i, j :: 0 <= i < j < |keys| ==> keys[i] != keys[j]) ==> keys[0] !in keys[1..];
      [keys[0]] + rest
  }

  // ------------------------------------------------------------ traversal

  /** `f` on the `j`-th entry; a key listed without a value, which a well-formed
      dictionary never holds, would be a KeyError. */
  function At<U, V>(d: OrdMap<U>, f: (string, U) -> Result<V>, j: nat): Result<V>
    requires j < |d.keys|
  {
    var k := d.keys[j];
    if k in d.vals then f(k, d.vals[k]) else Err(KeyError(Some(k)))
  }

  /** A loop over the first `n` entries of `d` in order, storing `f` of each entry under its
      key in a new dictionary; the first failure aborts. */
  function Traverse<U, V>(d: OrdMap<U>, f: (string, U) -> Result<V>, n: nat): Result<OrdMap<V>>
    requires n <= |d.keys|
  {
    if n == 0 then Ok(Empty())
    else
      var acc :- Traverse(d, f, n - 1);
      var v :- At(d, f, n - 1);
      Ok(acc.Put(d.keys[n - 1], v))
  }

  lemma {:induction false} TraverseErrPersists<U, V>(d: OrdMap<U>, f: (string, U) -> Result<V>, n: nat, m: nat)
    requires n <= m <= |d.keys|
    requires Traverse(d, f, n).Err?
    ensures Traverse(d, f, m) == Traverse(d, f, n)
    decreases m
  {
    if m > n {
      TraverseErrPersists(d, f, n, m - 1);
    }
  }

  /** A successful traversal lists the first `n` keys in order, maps each to `f` of its
      entry, and needed every one of those entries to succeed. */
  lemma {:induction false} TraverseOk<U, V>(d: OrdMap<U>, f: (string, U) -> Result<V>, n: nat)
    requires n <= |d.keys|
    requires forall i, j :: 0 <= i < j < |d.keys| ==> d.keys[i] != d.keys[j]
    requires Traverse(d, f, n).Ok?
    ensures Traverse(d, f, n).value.keys == d.keys[..n]
    ensures forall k :: k in Traverse(d, f, n).value.vals <==> k in d.keys[..n]
    ensures forall j :: 0 <= j < n ==>
      && At(d, f, j).Ok?
      && Traverse(d, f, n).value.vals[d.keys[j]] == At(d, f, j).value
  {
    var ks := d.keys;
    if n > 0 {
      TraverseOk(d, f, n - 1);
      assert ks[n - 1] !in ks[..n - 1];
      assert ks[..n] == ks[..n - 1] + [ks[n - 1]];
    }
  }

  /** A traversal succeeds when every entry does, and otherwise fails with the error of the
      first entry that fails. */
  lemma {:induction false} TraverseOutcome<U, V>(d: OrdMap<U>, f: (string, U) -> Result<V>, n: nat)
    requires n <= |d.keys|
    ensures (forall j :: 0 <= j < n ==> At(d, f, j).Ok?) ==> Traverse(d, f, n).Ok?
    ensures Traverse(d, f, n).Err? ==>
      exists j :: 0 <= j < n && At(d, f, j).Err? && Traverse(d, f, n).error == At(d, f, j).error &&
                  forall i :: 0 <= i < j ==> At(d, f, i).Ok?
  {
    if n > 0 {
      TraverseOutcome(d, f, n - 1);
      if Traverse(d, f, n - 1).Ok? {
        TraverseAllOk(d, f, n - 1);
      }
    }
  }

  lemma {:induction false} TraverseAllOk<U, V>(d: OrdMap<U>, f: (string, U) -> Result<V>, n: nat)
    requires n <= |d.keys|
    requires Traverse(d, f, n).Ok?
    ensures forall j :: 0 <= j < n ==> At(d, f, j).Ok?
  {
    if n > 0 {
      TraverseAllOk(d, f, n - 1);
    }
  }
}
