// Sums of a real-valued measure over the rows of a table, kept either as a
// map (keyed rows) or as a sequence (append-only rows).
module Sums {

  ghost function MapSum<K(!new), V>(m: map<K, V>, f: (K, V) -> real): real
    decreases |m|
  {
    if m == map[] then 0.0 else var k :| k in m; f(k, m[k]) + MapSum(m - {k}, f)
  }

  // The sum does not depend on the order in which rows are taken.
  lemma {:induction false} MapSumTake<K(!new), V>(m: map<K, V>, f: (K, V) -> real, k: K)
    requires k in m
    ensures MapSum(m, f) == f(k, m[k]) + MapSum(m - {k}, f)
    decreases |m|
  {
    var k0 :| k0 in m && MapSum(m, f) == f(k0, m[k0]) + MapSum(m - {k0}, f);
    if k0 != k {
      MapSumTake(m - {k0}, f, k);
      MapSumTake(m - {k}, f, k0);
      assert m - {k0} - {k} == m - {k} - {k0};
    }
  }

  // What a keyed write changes: the old row's share goes, the new row's comes.
  lemma MapSumPut<K(!new), V>(m: map<K, V>, f: (K, V) -> real, k: K, v: V)
    ensures MapSum(m[k := v], f) == MapSum(m, f) - (if k in m then f(k, m[k]) else 0.0) + f(k, v)
  {
    var m' := m[k := v];
    MapSumTake(m', f, k);
    if k in m {
      MapSumTake(m, f, k);
      assert m' - {k} == m - {k};
    } else {
      assert m' - {k} == m;
    }
  }

  // A table whose every row weighs nothing sums to nothing.
  lemma {:induction false} MapSumZero<K(!new), V>(m: map<K, V>, f: (K, V) -> real)
    requires forall k :: k in m ==> f(k, m[k]) == 0.0
    ensures MapSum(m, f) == 0.0
    decreases |m|
  {
    if m != map[] {
      var k :| k in m;
      MapSumTake(m, f, k);
      MapSumZero(m - {k}, f);
    }
  }

  ghost function SeqSum<T>(s: seq<T>, f: T -> real): real
  {
    if |s| == 0 then 0.0 else SeqSum(s[..|s| - 1], f) + f(s[|s| - 1])
  }

  lemma SeqSumPush<T>(s: seq<T>, f: T -> real, x: T)
    ensures SeqSum(s + [x], f) == SeqSum(s, f) + f(x)
  {
    assert (s + [x])[..|s|] == s;
  }

  lemma {:induction false} SeqSumPut<T>(s: seq<T>, f: T -> real, i: nat, x: T)
    requires i < |s|
    ensures SeqSum(s[i := x], f) == SeqSum(s, f) - f(s[i]) + f(x)
  {
    var n := |s| - 1;
    if i == n {
      assert s[i := x][..n] == s[..n];
    } else {
      assert s[i := x][..n] == s[..n][i := x];
      SeqSumPut(s[..n], f, i, x);
    }
  }

  lemma {:induction false} SeqSumSame<T>(s: seq<T>, t: seq<T>, f: T -> real)
    requires |s| == |t| && forall i :: 0 <= i < |s| ==> f(s[i]) == f(t[i])
    ensures SeqSum(s, f) == SeqSum(t, f)
  {
    if |s| > 0 { SeqSumSame(s[..|s| - 1], t[..|t| - 1], f); }
  }
}
