/** JavaScript plain objects used as dictionaries, as the YAML documents are
    after parsing: string keys in insertion order (`Object.keys`,
    `Object.entries`) and a value per key. Assigning a new key appends it,
    assigning an existing key keeps its position, `delete` removes it. */
module Objects {
  import opened Wrappers

  ghost predicate Distinct(keys: seq<string>) {
    forall i, j :: 0 <= i < j < |keys| ==> keys[i] != keys[j]
  }

  datatype RawObj<V> = RawObj(keys: seq<string>, vals: map<string, V>)

  ghost predicate WellFormed<V>(o: RawObj<V>) {
    Distinct(o.keys) && forall k :: k in o.vals <==> k in o.keys
  }

  /** A well-formed object: each key listed once, in order, with a value. */
  type Obj<V> = o: RawObj<V> | WellFormed(o) witness RawObj([], map[])

  function Empty<V>(): (o: Obj<V>)
    ensures o.keys == [] && o.vals == map[]
  {
    RawObj([], map[])
  }

  /** `o[k]`, `undefined` being `None`. */
  function Get<V>(o: Obj<V>, k: string): (r: Option<V>)
    ensures r.Some? <==> k in o.keys
  {
    if k in o.vals then Some(o.vals[k]) else None
  }

  /** `o[k] = v`. */
  function Put<V>(o: Obj<V>, k: string, v: V): (r: Obj<V>)
    ensures Get(r, k) == Some(v)
    ensures forall k' :: k' != k ==> Get(r, k') == Get(o, k')
    ensures r.keys == if k in o.keys then o.keys else o.keys + [k]
  {
    var r := RawObj(if k in o.vals then o.keys else o.keys + [k], o.vals[k := v]);
    assert WellFormed(r);
    r
  }

  /** `delete o[k]`; a missing key leaves the object as it was. */
  function Delete<V>(o: Obj<V>, k: string): (r: Obj<V>)
    ensures Get(r, k) == None
    ensures forall k' :: k' != k ==> Get(r, k') == Get(o, k')
    ensures r.keys == Without(o.keys, k)
    ensures k !in o.keys ==> r == o
  {
    if k !in o.vals then o
    else
      var r := RawObj(Without(o.keys, k), o.vals - {k});
      assert WellFormed(r);
      r
  }

  /** `keys` with `k` taken out, the order of the others kept. */
  function Without(keys: seq<string>, k: string): (r: seq<string>)
    ensures forall x :: x in r <==> x in keys && x != k
    ensures Distinct(keys) ==> Distinct(r)
    ensures k !in keys ==> r == keys
    ensures |r| <= |keys|
  {
    if keys == [] then []
    else if keys[0] == k then Without(keys[1..], k)
    else
      var r := [keys[0]] + Without(keys[1..], k);
      assert Distinct(keys) ==> Distinct(r) by {
        if Distinct(keys) {
          assert Distinct(keys[1..]);
          forall i, j | 0 <= i < j < |r| ensures r[i] != r[j] {
            if i == 0 { assert r[j] in keys[1..]; }
          }
        }
      }
      r
  }

  /** Dropping the last of distinct keys leaves distinct keys, none of
      them the dropped one. */
  lemma DistinctInit(keys: seq<string>)
    requires Distinct(keys) && keys != []
    ensures Distinct(keys[..|keys| - 1]) && keys[|keys| - 1] !in keys[..|keys| - 1]
  {
    var init := keys[..|keys| - 1];
    assert forall i :: 0 <= i < |init| ==> init[i] == keys[i];
  }

  /** Removing a key that was just appended restores the key order. */
  lemma {:induction false} WithoutAppended(keys: seq<string>, k: string)
    requires k !in keys
    ensures Without(keys + [k], k) == keys
  {
    if keys != [] {
      assert (keys + [k])[1..] == keys[1..] + [k];
      WithoutAppended(keys[1..], k);
    }
  }

  /** The second of two assignments to the same key wins. */
  lemma PutPut<V>(o: Obj<V>, k: string, v: V, w: V)
    ensures Put(Put(o, k, v), k, w) == Put(o, k, w)
  {
    assert Put(o, k, v).vals[k := w] == o.vals[k := w];
  }

  /** Assigning a key its current value changes nothing. */
  lemma PutCurrent<V>(o: Obj<V>, k: string)
    requires k in o.keys
    ensures Put(o, k, o.vals[k]) == o
  {
    assert o.vals[k := o.vals[k]] == o.vals;
  }

  /** Deleting a key undoes an assignment to it, even one that added it. */
  lemma DeletePut<V>(o: Obj<V>, k: string, v: V)
    ensures Delete(Put(o, k, v), k) == Delete(o, k)
  {
    if k in o.keys {
      DeletePutPresent(o, k, v);
    } else {
      DeletePutAbsent(o, k, v);
    }
  }

  lemma DeletePutPresent<V>(o: Obj<V>, k: string, v: V)
    requires k in o.keys
    ensures Delete(Put(o, k, v), k) == Delete(o, k)
  {
    assert o.vals[k := v] - {k} == o.vals - {k};
  }

  lemma DeletePutAbsent<V>(o: Obj<V>, k: string, v: V)
    requires k !in o.keys
    ensures Delete(Put(o, k, v), k) == o
  {
    WithoutAppended(o.keys, k);
    assert o.vals[k := v] - {k} == o.vals;
  }
}
