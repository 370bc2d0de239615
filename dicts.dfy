/** Python dictionaries with string keys, as association lists in insertion
    order. */
module Dicts {
  import opened Options

  type Dict<V> = seq<(string, V)>

  /** `list(d.keys())` */
  function Names<V>(d: Dict<V>): (ks: seq<string>)
    ensures |ks| == |d|
    ensures forall i :: 0 <= i < |d| ==> ks[i] == d[i].0
  {
    if d == [] then [] else [d[0].0] + Names(d[1..])
  }

  predicate UniqueNames<V>(d: Dict<V>)
  {
    forall i, j :: 0 <= i < j < |d| ==> d[i].0 != d[j].0
  }

  /** `d.get(k)` */
  function Get<V>(d: Dict<V>, k: string): (r: Option<V>)
    ensures r.Some? <==> exists i :: 0 <= i < |d| && d[i].0 == k
    ensures r.Some? ==> exists i :: 0 <= i < |d| && d[i] == (k, r.value)
  {
    if d == [] then None
    else if d[0].0 == k then Some(d[0].1)
    else
      var r := Get(d[1..], k);
      assert forall i :: 0 < i < |d| ==> d[i] == d[1..][i - 1];
      r
  }

  /** `d[k] = v`: an existing key keeps its position and takes the new
      value, a new key goes last. */
  function Assign<V>(d: Dict<V>, k: string, v: V): (r: Dict<V>)
    ensures Get(r, k) == Some(v)
    ensures forall j :: j != k ==> Get(r, j) == Get(d, j)
    ensures UniqueNames(d) ==> UniqueNames(r)
  {
    if d == [] then [(k, v)]
    else if d[0].0 == k then
      var r := [(k, v)] + d[1..];
      assert forall i :: 0 < i < |d| ==> r[i] == d[i];
      assert forall j :: Get(r, j) == Get(d, j) || j == k by {
        forall j | j != k ensures Get(r, j) == Get(d, j) {
          assert Get(r, j) == Get(r[1..], j) && Get(d, j) == Get(d[1..], j);
          assert r[1..] == d[1..];
        }
      }
      r
    else
      var rest := Assign(d[1..], k, v);
      var r := [d[0]] + rest;
      assert r[1..] == rest;
      assert UniqueNames(d) ==> UniqueNames(r) by {
        if UniqueNames(d) {
          forall m | 0 <= m < |d[1..]| ensures d[1..][m].0 != d[0].0 {
            assert d[1..][m] == d[m + 1];
          }
          assert Get(rest, d[0].0).None?;
          forall i | 0 < i < |r| ensures r[i].0 != d[0].0 {
            assert r[i] == rest[i - 1];
          }
        }
      }
      r
  }

  /** Assigning keeps the key order: an existing key stays where it is, a
      new one goes last. */
  lemma {:induction false} AssignNames<V>(d: Dict<V>, k: string, v: V)
    ensures Names(Assign(d, k, v)) == if Get(d, k).Some? then Names(d) else Names(d) + [k]
  {
    if d != [] && d[0].0 != k {
      AssignNames(d[1..], k, v);
      var r := Assign(d, k, v);
      assert r == [d[0]] + Assign(d[1..], k, v);
      assert r[1..] == Assign(d[1..], k, v);
    }
  }
}
