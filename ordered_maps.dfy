/** Python dictionaries keep insertion order, and the job runner walks its
    file map in that order.  A dictionary with string keys is modelled as
    a sequence of entries with distinct keys. */
module OrderedMaps {
  import opened Wrappers

  type Entries<V> = seq<(string, V)>

  function Keys<V>(d: Entries<V>): (ks: seq<string>)
    ensures |ks| == |d|
    ensures forall i :: 0 <= i < |d| ==> ks[i] == d[i].0
  {
    if d == [] then [] else [d[0].0] + Keys(d[1..])
  }

  ghost predicate UniqueKeys<V>(d: Entries<V>)
  {
    forall i, j :: 0 <= i < j < |d| ==> d[i].0 != d[j].0
  }

  /** `d.get(k)` */
  function Get<V>(d: Entries<V>, k: string): (r: Option<V>)
    ensures r.None? <==> k !in Keys(d)
  {
    if d == [] then None
    else if d[0].0 == k then Some(d[0].1)
    else
      assert Keys(d) == [d[0].0] + Keys(d[1..]);
      Get(d[1..], k)
  }

  /** `d[k] = v`: an existing key keeps its position and gets the new
      value, a new key is appended at the end. */
  function Put<V>(d: Entries<V>, k: string, v: V): (r: Entries<V>)
    ensures k in Keys(d) ==> Keys(r) == Keys(d)
    ensures k !in Keys(d) ==> Keys(r) == Keys(d) + [k]
    ensures Get(r, k) == Some(v)
    ensures forall k' :: k' != k ==> Get(r, k') == Get(d, k')
  {
    if d == [] then [(k, v)]
    else if d[0].0 == k then
      var r := [(k, v)] + d[1..];
      assert r[1..] == d[1..];
      assert Keys(r) == [k] + Keys(d[1..]);
      r
    else
      var tail := Put(d[1..], k, v);
      var r := [d[0]] + tail;
      assert r[1..] == tail;
      assert Keys(d) == [d[0].0] + Keys(d[1..]);
      assert Keys(r) == [d[0].0] + Keys(tail);
      r
  }

  /** `d[k] = v` keeps the keys distinct. */
  lemma PutKeepsUniqueKeys<V>(d: Entries<V>, k: string, v: V)
    requires UniqueKeys(d)
    ensures UniqueKeys(Put(d, k, v))
  {
    var r := Put(d, k, v);
    var ks := Keys(r);
    forall i, j | 0 <= i < j < |r| ensures r[i].0 != r[j].0 {
      if k in Keys(d) {
        assert ks == Keys(d);
        assert ks[i] == d[i].0 && ks[j] == d[j].0;
      } else {
        assert ks == Keys(d) + [k];
        if j < |d| {
          assert ks[i] == d[i].0 && ks[j] == d[j].0;
        } else {
          assert ks[i] == Keys(d)[i];
        }
      }
    }
  }

  /** The entry for `k` is the first one with that key. */
  lemma {:induction false} GetFindsKey<V>(d: Entries<V>, i: nat)
    requires UniqueKeys(d) && i < |d|
    ensures Get(d, d[i].0) == Some(d[i].1)
  {
    if i > 0 {
      assert d[0].0 != d[i].0;
      assert d[1..][i - 1] == d[i];
      GetFindsKey(d[1..], i - 1);
    }
  }
}
