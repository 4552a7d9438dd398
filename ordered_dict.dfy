/**
 * A Python dict keyed by strings, as far as the profilometer report uses it:
 * entries in insertion order, `d[k] = v` replacing the value of an existing
 * key where it stands and appending a new key at the end.
 */
module OrderedDict {
  import opened Wrappers

  datatype Entry<V> = Entry(key: string, value: V)

  /** The keys in iteration order. */
  function Keys<V>(d: seq<Entry<V>>): (ks: seq<string>)
    ensures |ks| == |d|
    ensures forall i :: 0 <= i < |d| ==> ks[i] == d[i].key
  {
    if d == [] then [] else [d[0].key] + Keys(d[1..])
  }

  /** No key occurs twice, as in every Python dict. */
  ghost predicate KeysUnique<V>(d: seq<Entry<V>>)
  {
    var ks := Keys(d);
    forall i, j :: 0 <= i < j < |ks| ==> ks[i] != ks[j]
  }

  /** Position of the first occurrence of `k` in `ks`, or `|ks|` when `k` does not occur. */
  function IndexOf(ks: seq<string>, k: string): (i: nat)
    ensures i <= |ks|
    ensures i < |ks| ==> ks[i] == k
    ensures forall j :: 0 <= j < i ==> ks[j] != k
  {
    if ks == [] then 0
    else if ks[0] == k then 0
    else 1 + IndexOf(ks[1..], k)
  }

  /** `d.get(k)`: the value stored under `k`, if any. */
  function Get<V>(d: seq<Entry<V>>, k: string): (r: Option<V>)
    ensures r.None? <==> k !in Keys(d)
    ensures r.Some? ==> exists i :: 0 <= i < |d| && d[i] == Entry(k, r.value)
  {
    var i := IndexOf(Keys(d), k);
    if i < |d| then Some(d[i].value) else None
  }

  /**
   * `d[k] = v`: a present key keeps its position and gets the new value, a
   * new key goes last.
   */
  function Put<V>(d: seq<Entry<V>>, k: string, v: V): (r: seq<Entry<V>>)
    ensures Keys(r) == if k in Keys(d) then Keys(d) else Keys(d) + [k]
    ensures k !in Keys(d) ==> r == d + [Entry(k, v)]
  {
    var i := IndexOf(Keys(d), k);
    if i < |d| then
      var r := d[i := Entry(k, v)];
      assert Keys(r) == Keys(d);
      r
    else
      var r := d + [Entry(k, v)];
      assert Keys(r) == Keys(d) + [k];
      r
  }

  /** Looking a key up after appending `k` to the keys. */
  lemma {:induction false} IndexOfAppend(ks: seq<string>, k: string, k': string)
    ensures IndexOf(ks + [k], k') == if k' in ks then IndexOf(ks, k') else if k' == k then |ks| else |ks| + 1
  {
    if ks != [] {
      assert (ks + [k])[1..] == ks[1..] + [k];
      IndexOfAppend(ks[1..], k, k');
    }
  }

  /** After `d[k] = v`, `k` maps to `v` and every other key keeps its value. */
  lemma PutThenGet<V>(d: seq<Entry<V>>, k: string, v: V, k': string)
    ensures Get(Put(d, k, v), k') == if k' == k then Some(v) else Get(d, k')
  {
    var ks, r := Keys(d), Put(d, k, v);
    var i, j := IndexOf(ks, k), IndexOf(ks, k');
    if i < |d| {
      assert Keys(r) == ks;
      if k' != k && j < |d| {
        assert j != i;
      }
    } else {
      assert Keys(r) == ks + [k];
      IndexOfAppend(ks, k, k');
    }
  }

  /** In a dict with distinct keys, the key of entry i does not occur before it. */
  lemma KeyNotBefore<V>(d: seq<Entry<V>>, i: int)
    requires KeysUnique(d)
    requires 0 <= i < |d|
    ensures d[i].key !in Keys(d[..i])
  {
    var ks, before := Keys(d), Keys(d[..i]);
    assert forall j :: 0 <= j < i ==> before[j] == ks[j] && ks[j] != ks[i];
  }

  /** Assignment keeps the keys of a dict distinct. */
  lemma PutKeepsKeysUnique<V>(d: seq<Entry<V>>, k: string, v: V)
    requires KeysUnique(d)
    ensures KeysUnique(Put(d, k, v))
  {
    var ks := Keys(d);
    if k !in ks {
      assert Keys(Put(d, k, v)) == ks + [k];
    }
  }
}
