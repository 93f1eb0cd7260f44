/** Sums of exact fractions over keyed rows, the counterpart of module Sums. */
module RealSums {
  import opened Sums

  ghost function Sum<K(!new)>(m: map<K, real>): real
    decreases |m|
  {
    if m == map[] then 0.0
    else
      var k :| k in m;
      assert (m - {k}).Keys == m.Keys - {k};
      m[k] + Sum(m - {k})
  }

  lemma {:induction false} SumRemove<K(!new)>(m: map<K, real>, k: K)
    requires k in m
    ensures Sum(m) == m[k] + Sum(m - {k})
    decreases |m|
  {
    var c :| c in m && Sum(m) == m[c] + Sum(m - {c});
    if c != k {
      assert (m - {c}).Keys == m.Keys - {c};
      assert (m - {k}).Keys == m.Keys - {k};
      SumRemove(m - {c}, k);
      SumRemove(m - {k}, c);
      assert m - {c} - {k} == m - {k} - {c};
    }
  }

  ghost function Part<K, G>(m: map<K, real>, key: map<K, G>, g: G): (r: map<K, real>) {
    map k | k in m && k in key && key[k] == g :: m[k]
  }

  ghost function Rest<K, G>(m: map<K, real>, key: map<K, G>, g: G): (r: map<K, real>) {
    map k | k in m && !(k in key && key[k] == g) :: m[k]
  }

  /** `u` is the disjoint union of `m` and `n`. */
  ghost predicate Joins<K(!new)>(u: map<K, real>, m: map<K, real>, n: map<K, real>) {
    && (forall k :: k in u <==> k in m || k in n)
    && m.Keys !! n.Keys
    && (forall k :: k in m ==> u[k] == m[k])
    && (forall k :: k in n ==> u[k] == n[k])
  }

  lemma {:induction false} SumUnion<K(!new)>(u: map<K, real>, m: map<K, real>, n: map<K, real>)
    requires Joins(u, m, n)
    ensures Sum(u) == Sum(m) + Sum(n)
    decreases |n|
  {
    if n == map[] {
      assert u == m;
    } else {
      var k :| k in n;
      assert (n - {k}).Keys == n.Keys - {k};
      SumUnion(u - {k}, m, n - {k});
      SumRemove(n, k);
      SumRemove(u, k);
    }
  }

  lemma SumSplit<K(!new), G>(m: map<K, real>, key: map<K, G>, g: G)
    ensures Sum(m) == Sum(Part(m, key, g)) + Sum(Rest(m, key, g))
  {
    SumUnion(m, Part(m, key, g), Rest(m, key, g));
  }

  ghost function GroupSums<K(!new), G(!new)>(m: map<K, real>, key: map<K, G>, groups: set<G>): (r: map<G, real>) {
    map g | g in groups :: Sum(Part(m, key, g))
  }

  /** GROUP BY: the sums of the groups add up to the whole. */
  lemma {:induction false} SumByKeys<K(!new), G(!new)>(m: map<K, real>, key: map<K, G>, groups: set<G>)
    requires forall k :: k in m ==> k in key && key[k] in groups
    ensures Sum(m) == Sum(GroupSums(m, key, groups))
    decreases |groups|
  {
    if groups == {} {
      assert m == map[] && GroupSums(m, key, groups) == map[];
    } else {
      var g :| g in groups;
      var rest := Rest(m, key, g);
      SumSplit(m, key, g);
      SumByKeys(rest, key, groups - {g});
      forall g' | g' in groups - {g}
        ensures Part(rest, key, g') == Part(m, key, g')
      {
      }
      assert GroupSums(m, key, groups) - {g} == GroupSums(rest, key, groups - {g});
      SumRemove(GroupSums(m, key, groups), g);
    }
  }

  function Scale(c: real, x: int): real {
    c * x as real
  }

  lemma Distribute(c: real, x: int, y: int)
    ensures Scale(c, x) + Scale(c, y) == Scale(c, x + y) && Scale(c, 0) == 0.0
  {
    assert (x + y) as real == x as real + y as real;
  }

  /** Every share of the whole, scaled alike. */
  lemma {:induction false} SumScaled<K(!new)>(m: map<K, real>, parts: map<K, int>, c: real)
    requires m.Keys == parts.Keys && forall k | k in m :: m[k] == Scale(c, parts[k])
    ensures Sum(m) == Scale(c, Total(parts))
    decreases |m|
  {
    hide Scale;
    if m == map[] {
      assert parts == map[];
      Distribute(c, 0, 0);
    } else {
      var k :| k in m;
      SumRemove(m, k);
      TotalRemove(parts, k);
      assert (m - {k}).Keys == m.Keys - {k} == (parts - {k}).Keys;
      SumScaled(m - {k}, parts - {k}, c);
      Distribute(c, parts[k], Total(parts - {k}));
    }
  }

  lemma {:induction false} SumAtMost<K(!new)>(m: map<K, real>, n: map<K, real>)
    requires m.Keys == n.Keys && forall k | k in m :: m[k] <= n[k]
    ensures Sum(m) <= Sum(n)
    decreases |m|
  {
    if m == map[] {
      assert n == map[];
    } else {
      var k :| k in m;
      SumRemove(m, k);
      SumRemove(n, k);
      assert (m - {k}).Keys == m.Keys - {k} == (n - {k}).Keys;
      SumAtMost(m - {k}, n - {k});
    }
  }

  /** One row in every group: the grouping changes nothing but the keys. */
  lemma SumOfSingle<K(!new)>(m: map<K, real>, k: K)
    requires m.Keys == {k}
    ensures Sum(m) == m[k]
  {
    SumRemove(m, k);
    assert m - {k} == map[];
  }

  lemma {:induction false} SumMinus<K(!new)>(m: map<K, real>, n: map<K, real>, d: map<K, real>)
    requires m.Keys == n.Keys == d.Keys && forall k | k in m :: d[k] == m[k] - n[k]
    ensures Sum(d) == Sum(m) - Sum(n)
    decreases |m|
  {
    if m != map[] {
      var k :| k in m;
      SumRemove(m, k);
      SumRemove(n, k);
      SumRemove(d, k);
      assert (m - {k}).Keys == m.Keys - {k};
      SumMinus(m - {k}, n - {k}, d - {k});
    }
  }

  lemma {:induction false} SumZeroIff<K(!new)>(m: map<K, real>)
    requires forall k | k in m :: m[k] >= 0.0
    ensures Sum(m) >= 0.0 && (Sum(m) == 0.0 <==> forall k | k in m :: m[k] == 0.0)
    decreases |m|
  {
    if m != map[] {
      var k :| k in m;
      SumRemove(m, k);
      assert (m - {k}).Keys == m.Keys - {k};
      SumZeroIff(m - {k});
      assert forall x | x in m && x != k :: x in m - {k};
    }
  }
}
