/** Sums over finite maps, for the progress measure, and numbers outside a finite set. */
module Finite {

  ghost function Sum<K>(m: map<K, nat>): nat
    decreases |m|
  {
    if m == map[] then 0 else
      var k :| k in m;
      m[k] + Sum(m - {k})
  }

  lemma {:induction false} SumRemove<K>(m: map<K, nat>, k: K)
    requires k in m
    ensures Sum(m) == m[k] + Sum(m - {k})
    decreases |m|
  {
    var j :| j in m && Sum(m) == m[j] + Sum(m - {j});
    if j != k {
      SumRemove(m - {j}, k);
      SumRemove(m - {k}, j);
      assert m - {j} - {k} == m - {k} - {j};
    }
  }

  lemma SumUpdate<K>(m: map<K, nat>, k: K, v: nat)
    ensures Sum(m[k := v]) == Sum(m - {k}) + v
    ensures k in m ==> Sum(m[k := v]) == Sum(m) - m[k] + v
    ensures k !in m ==> Sum(m[k := v]) == Sum(m) + v
  {
    SumRemove(m[k := v], k);
    assert m[k := v] - {k} == m - {k};
    if k in m {
      SumRemove(m, k);
    } else {
      assert m - {k} == m;
    }
  }

  lemma {:induction false} SumOfZeros<K>(m: map<K, nat>)
    requires forall k :: k in m ==> m[k] == 0
    ensures Sum(m) == 0
    decreases |m|
  {
    if k :| k in m {
      SumRemove(m, k);
      SumOfZeros(m - {k});
    }
  }

  lemma {:induction false} Fresh(used: set<nat>) returns (n: nat)
    ensures n !in used && forall u :: u in used ==> u < n
    decreases used
  {
    if used == {} {
      n := 0;
    } else {
      var u :| u in used;
      var m := Fresh(used - {u});
      n := if m <= u then u + 1 else m;
      forall x | x in used ensures x < n {
        if x != u {
          assert x in used - {u};
        }
      }
    }
  }
}
