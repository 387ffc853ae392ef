/** Counting the threads whose local state satisfies a predicate. */
module Counting {

  ghost function Where<K, V>(m: map<K, V>, p: V -> bool): set<K> {
    set k | k in m && p(m[k])
  }

  ghost function Count<K, V>(m: map<K, V>, p: V -> bool): nat {
    |Where(m, p)|
  }

  /** Changing one entry changes a count by what that entry contributed. */
  lemma CountUpdate<K, V>(m: map<K, V>, k: K, v: V, p: V -> bool)
    requires k in m
    ensures Count(m[k := v], p) + (if p(m[k]) then 1 else 0) == Count(m, p) + (if p(v) then 1 else 0)
  {
    var rest := Where(m, p) - {k};
    assert Where(m, p) == if p(m[k]) then rest + {k} else rest;
    assert Where(m[k := v], p) == if p(v) then rest + {k} else rest;
  }

  lemma CountPositive<K, V>(m: map<K, V>, k: K, p: V -> bool)
    requires k in m && p(m[k])
    ensures Count(m, p) > 0
  {
    assert k in Where(m, p);
  }

  /** A count of one leaves no room for a second entry. */
  lemma CountOne<K, V>(m: map<K, V>, k: K, l: K, p: V -> bool)
    requires k in m && p(m[k]) && l in m && p(m[l]) && Count(m, p) <= 1
    ensures k == l
  {
    var rest := Where(m, p) - {k};
    assert Where(m, p) == rest + {k};
    assert |rest| == 0;
    assert l in rest + {k};
  }

  lemma CountWitness<K, V>(m: map<K, V>, p: V -> bool) returns (k: K)
    requires Count(m, p) > 0
    ensures k in m && p(m[k])
  {
    k :| k in Where(m, p);
  }

  lemma CountZero<K, V>(m: map<K, V>, p: V -> bool)
    requires forall k :: k in m ==> !p(m[k])
    ensures Count(m, p) == 0
  {
    assert Where(m, p) == {};
  }
}
