/** A plain JavaScript object used as a dictionary (`{ [id: string]: V }`),
    as far as the services use one: its own properties, enumerated by
    `for ... in` in insertion order, assignment `d[k] = v` and `delete d[k]`. */
module Dict {
  import opened Common

  type Dict<K, V> = seq<(K, V)>

  function Keys<K, V>(d: Dict<K, V>): seq<K> {
    seq(|d|, i requires 0 <= i < |d| => d[i].0)
  }

  function Values<K, V>(d: Dict<K, V>): seq<V> {
    seq(|d|, i requires 0 <= i < |d| => d[i].1)
  }

  /** Every key is held once. */
  predicate Wf<K(==), V>(d: Dict<K, V>) {
    NoDup(Keys(d))
  }

  /** `Object.hasOwnProperty.call(d, k)`. */
  predicate HasKey<K(==), V>(d: Dict<K, V>, k: K) {
    k in Keys(d)
  }

  /** `d[k]` for a key the object holds. */
  function Get<K(==), V>(d: Dict<K, V>, k: K): V
    requires HasKey(d, k)
  {
    d[IndexOf(Keys(d), k)].1
  }

  /** `d[k] = v`: an existing property is overwritten where it stands, a new
      one is appended after all the others. */
  function Put<K(==), V>(d: Dict<K, V>, k: K, v: V): Dict<K, V> {
    var i := IndexOf(Keys(d), k);
    if i >= 0 then d[i := (k, v)] else d + [(k, v)]
  }

  /** `delete d[k]`. */
  function Remove<K(==), V>(d: Dict<K, V>, k: K): Dict<K, V> {
    var i := IndexOf(Keys(d), k);
    if i < 0 then d else d[..i] + d[i + 1..]
  }

  /** In a well-formed dictionary the entry at position `j` is what its key maps to. */
  lemma GetAt<K, V>(d: Dict<K, V>, j: nat)
    requires Wf(d) && j < |d|
    ensures HasKey(d, d[j].0) && Get(d, d[j].0) == d[j].1
  {
    assert Keys(d)[j] == d[j].0;
    IndexOfUnique(Keys(d), j);
  }

  /** Assignment maps `k` to `v`, leaves every other key and its value alone,
      keeps the enumeration order, and adds `k` at the end if it was new. */
  lemma PutSpec<K, V>(d: Dict<K, V>, k: K, v: V)
    requires Wf(d)
    ensures var r := Put(d, k, v);
      && Wf(r) && HasKey(r, k) && Get(r, k) == v
      && Keys(r) == (if HasKey(d, k) then Keys(d) else Keys(d) + [k])
      && (forall k' :: k' != k ==> (HasKey(r, k') <==> HasKey(d, k')))
      && (forall k' :: k' != k && HasKey(d, k') ==> Get(r, k') == Get(d, k'))
  {
    var r := Put(d, k, v);
    var i := IndexOf(Keys(d), k);
    if i >= 0 {
      assert Keys(r) == Keys(d);
    } else {
      assert Keys(r) == Keys(d) + [k];
    }
    assert Wf(r);
    GetAt(r, if i >= 0 then i else |d|);
    forall k' | k' != k && HasKey(d, k')
      ensures Get(r, k') == Get(d, k')
    {
      var j := IndexOf(Keys(d), k');
      GetAt(d, j);
      GetAt(r, j);
    }
  }

  /** Deletion takes `k` out, leaves every other key and its value alone, and
      changes nothing when `k` is absent. */
  lemma RemoveSpec<K, V>(d: Dict<K, V>, k: K)
    requires Wf(d)
    ensures var r := Remove(d, k);
      && Wf(r) && !HasKey(r, k)
      && (!HasKey(d, k) ==> r == d)
      && (forall k' :: k' != k ==> (HasKey(r, k') <==> HasKey(d, k')))
      && (forall k' :: k' != k && HasKey(d, k') ==> Get(r, k') == Get(d, k'))
  {
    var r := Remove(d, k);
    var i := IndexOf(Keys(d), k);
    if i >= 0 {
      assert Keys(r) == RemoveAt(Keys(d), i);
      RemoveFirstOccurrence(Keys(d), k);
      forall k' | k' != k && HasKey(d, k')
        ensures Get(r, k') == Get(d, k')
      {
        var j := IndexOf(Keys(d), k');
        assert j != i;
        GetAt(d, j);
        GetAt(r, if j < i then j else j - 1);
      }
    }
  }
}
