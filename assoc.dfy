/** JavaScript objects used as dictionaries with string keys that are not array indices, which
    covers every key the application uses (provider names, dimension ids, tags, event and tab
    names). `Object.entries`, `Object.keys` and `for ... in` visit such keys in the order they
    were first inserted, and assigning to an existing key keeps its place, so the model keeps the
    entries as an ordered list. */
module Assoc {
  import opened Wrappers

  type Assoc<V> = seq<(string, V)>

  /** `Object.keys`, in insertion order. */
  function Keys<V>(a: Assoc<V>): (ks: seq<string>)
    ensures |ks| == |a| && forall i :: 0 <= i < |a| ==> ks[i] == a[i].0
    decreases |a|
  {
    if |a| == 0 then [] else [a[0].0] + Keys(a[1..])
  }

  /** No key occurs twice, as in any object. */
  predicate UniqueKeys<V>(a: Assoc<V>) {
    forall i, j :: 0 <= i < j < |a| ==> a[i].0 != a[j].0
  }

  /** `obj[k]`: the value stored under `k`, `None` for `undefined`. */
  function Get<V>(a: Assoc<V>, k: string): (r: Option<V>)
    ensures r.Some? <==> k in Keys(a)
    decreases |a|
  {
    if |a| == 0 then None
    else if a[0].0 == k then Some(a[0].1)
    else Get(a[1..], k)
  }

  /** What `Get` returns is the value of an entry of the list under that key. */
  lemma {:induction false} GetEntry<V>(a: Assoc<V>, k: string) returns (i: nat)
    requires k in Keys(a)
    ensures i < |a| && a[i] == (k, Get(a, k).value)
    decreases |a|
  {
    if a[0].0 == k {
      i := 0;
    } else {
      var j := GetEntry(a[1..], k);
      i := j + 1;
    }
  }

  /** Whatever `Get` finds is an entry of the list. */
  lemma {:induction false} GetMember<V>(a: Assoc<V>, k: string)
    ensures Get(a, k).Some? ==> (k, Get(a, k).value) in a
  {
    if k in Keys(a) {
      var i := GetEntry(a, k);
    }
  }

  /** `obj[k] = v`: an existing key keeps its position and takes the new value; a new key is
      appended. */
  function Put<V>(a: Assoc<V>, k: string, v: V): Assoc<V>
    decreases |a|
  {
    if |a| == 0 then [(k, v)]
    else if a[0].0 == k then [(k, v)] + a[1..]
    else [a[0]] + Put(a[1..], k, v)
  }

  lemma {:induction false} PutKeys<V>(a: Assoc<V>, k: string, v: V)
    ensures Keys(Put(a, k, v)) == if k in Keys(a) then Keys(a) else Keys(a) + [k]
    decreases |a|
  {
    if |a| > 0 && a[0].0 != k {
      PutKeys(a[1..], k, v);
      assert Put(a, k, v)[1..] == Put(a[1..], k, v);
    } else if |a| > 0 {
      assert Put(a, k, v)[1..] == a[1..];
    }
  }

  lemma {:induction false} PutGet<V>(a: Assoc<V>, k: string, v: V, k': string)
    ensures Get(Put(a, k, v), k') == if k' == k then Some(v) else Get(a, k')
    decreases |a|
  {
    if |a| > 0 && a[0].0 != k {
      PutGet(a[1..], k, v, k');
      assert Put(a, k, v)[1..] == Put(a[1..], k, v);
    } else if |a| > 0 {
      assert Put(a, k, v)[1..] == a[1..];
    }
  }

  lemma {:induction false} PutUnique<V>(a: Assoc<V>, k: string, v: V)
    requires UniqueKeys(a)
    ensures UniqueKeys(Put(a, k, v))
  {
    var r := Put(a, k, v);
    PutKeys(a, k, v);
    assert forall i, j :: 0 <= i < j < |r| ==> Keys(r)[i] != Keys(r)[j] by {
      if k in Keys(a) {
        assert Keys(r) == Keys(a);
      } else {
        assert Keys(r) == Keys(a) + [k];
      }
    }
  }
}
