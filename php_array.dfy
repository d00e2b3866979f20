/**
 * PHP's ordered arrays keyed by strings, as the salary engine and the export
 * code use them for `label => amount` breakdowns: entries keep insertion order,
 * and writing `$a[$k] = $v` replaces the value in place when the key is already
 * present and appends a new entry otherwise.
 */
module PhpArray {

  type Entries<V> = seq<(string, V)>

  /** The keys, in order. */
  function Keys<V>(a: Entries<V>): (ks: seq<string>)
    ensures |ks| == |a|
    ensures forall i :: 0 <= i < |a| ==> ks[i] == a[i].0
  {
    seq(|a|, i requires 0 <= i < |a| => a[i].0)
  }

  predicate HasKey<V>(a: Entries<V>, k: string)
  {
    exists i | 0 <= i < |a| :: a[i].0 == k
  }

  /** Every key occurs once, as in a real PHP array. */
  predicate UniqueKeys<V>(a: Entries<V>)
  {
    forall i, j :: 0 <= i < j < |a| ==> a[i].0 != a[j].0
  }

  /** `$a[$k] = $v`. */
  function Put<V>(a: Entries<V>, k: string, v: V): (r: Entries<V>)
    ensures HasKey(a, k) ==> |r| == |a|
    ensures !HasKey(a, k) ==> r == a + [(k, v)]
    ensures forall i :: 0 <= i < |a| && a[i].0 != k ==> r[i] == a[i]
    ensures UniqueKeys(a) ==> forall i :: 0 <= i < |a| && a[i].0 == k ==> r[i] == (k, v)
    ensures forall k' :: HasKey(r, k') <==> HasKey(a, k') || k' == k
  {
    if a == [] then assert [(k, v)][0].0 == k; [(k, v)]
    else if a[0].0 == k then
      HasKeyCons((k, v), a[1..]);
      HasKeyCons(a[0], a[1..]);
      [(k, v)] + a[1..]
    else
      var t := Put(a[1..], k, v);
      HasKeyCons(a[0], a[1..]);
      HasKeyCons(a[0], t);
      [a[0]] + t
  }

  lemma HasKeyCons<V>(p: (string, V), t: Entries<V>)
    ensures forall k :: HasKey([p] + t, k) <==> p.0 == k || HasKey(t, k)
  {
    forall k | HasKey(t, k) ensures HasKey([p] + t, k) {
      var i :| 0 <= i < |t| && t[i].0 == k;
      assert ([p] + t)[i + 1] == t[i];
    }
    assert ([p] + t)[0] == p;
  }

  /** `array_sum` over the values. */
  function Sum(a: Entries<real>): (r: real)
  {
    if a == [] then 0.0 else a[0].1 + Sum(a[1..])
  }

  lemma {:induction false} SumAppend(a: Entries<real>, b: Entries<real>)
    ensures Sum(a + b) == Sum(a) + Sum(b)
  {
    if a == [] {
      assert a + b == b;
    } else {
      assert (a + b)[1..] == a[1..] + b;
      SumAppend(a[1..], b);
    }
  }

  /** Writing a key keeps the keys unique. */
  lemma {:induction false} PutKeepsUnique<V>(a: Entries<V>, k: string, v: V)
    requires UniqueKeys(a)
    ensures UniqueKeys(Put(a, k, v))
  {
    if a != [] && a[0].0 != k {
      PutKeepsUnique(a[1..], k, v);
      var r := Put(a, k, v);
      assert r == [a[0]] + Put(a[1..], k, v);
      forall j | 0 < j < |r| ensures r[0].0 != r[j].0 {
        assert HasKey(Put(a[1..], k, v), r[j].0);
        if r[j].0 != k {
          assert HasKey(a[1..], r[j].0);
        }
      }
    }
  }

}
