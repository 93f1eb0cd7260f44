/**
 SQL aggregates are sums over keyed rows.  Here a SUM is the total of a finite map from row keys
 to amounts, so that equal row sets give equal sums by map extensionality.
 */
module Sums {
  import opened Common

  ghost function Total<K(!new)>(m: map<K, int>): int
    decreases |m|
  {
    if m == map[] then 0
    else
      var k :| k in m;
      assert (m - {k}).Keys == m.Keys - {k};
      m[k] + Total(m - {k})
  }

  /** The choice of the removed key is irrelevant. */
  lemma {:induction false} TotalRemove<K(!new)>(m: map<K, int>, k: K)
    requires k in m
    ensures Total(m) == m[k] + Total(m - {k})
    decreases |m|
  {
    var c :| c in m && Total(m) == m[c] + Total(m - {c});
    if c != k {
      assert (m - {c}).Keys == m.Keys - {c};
      assert (m - {k}).Keys == m.Keys - {k};
      TotalRemove(m - {c}, k);
      TotalRemove(m - {k}, c);
      assert m - {c} - {k} == m - {k} - {c};
    }
  }

  /** `u` is the disjoint union of `m` and `n`. */
  ghost predicate Splits<K(!new)>(u: map<K, int>, m: map<K, int>, n: map<K, int>) {
    && (forall k :: k in u <==> k in m || k in n)
    && m.Keys !! n.Keys
    && (forall k :: k in m ==> u[k] == m[k])
    && (forall k :: k in n ==> u[k] == n[k])
  }

  lemma {:induction false} TotalUnion<K(!new)>(u: map<K, int>, m: map<K, int>, n: map<K, int>)
    requires Splits(u, m, n)
    ensures Total(u) == Total(m) + Total(n)
    decreases |n|
  {
    if n == map[] {
      assert u == m;
    } else {
      var k :| k in n;
      assert (n - {k}).Keys == n.Keys - {k};
      TotalUnion(u - {k}, m, n - {k});
      TotalRemove(n, k);
      TotalRemove(u, k);
    }
  }

  /** The rows of `m` whose group under `key` is `g`. */
  ghost function Slice<K, G>(m: map<K, int>, key: map<K, G>, g: G): (r: map<K, int>) {
    map k | k in m && k in key && key[k] == g :: m[k]
  }

  ghost function Without<K, G>(m: map<K, int>, key: map<K, G>, g: G): (r: map<K, int>) {
    map k | k in m && !(k in key && key[k] == g) :: m[k]
  }

  lemma TotalSplit<K(!new), G>(m: map<K, int>, key: map<K, G>, g: G)
    ensures Total(m) == Total(Slice(m, key, g)) + Total(Without(m, key, g))
  {
    TotalUnion(m, Slice(m, key, g), Without(m, key, g));
  }

  function SumSeq(s: seq<int>): int {
    if |s| == 0 then 0 else SumSeq(s[..|s| - 1]) + s[|s| - 1]
  }

  ghost function GroupTotals<K(!new), G(!new)>(m: map<K, int>, key: map<K, G>, groups: set<G>): (r: map<G, int>) {
    map g | g in groups :: Total(Slice(m, key, g))
  }

  /** GROUP BY with the groups as a set. */
  lemma {:induction false} TotalByKeys<K(!new), G(!new)>(m: map<K, int>, key: map<K, G>, groups: set<G>)
    requires forall k :: k in m ==> k in key && key[k] in groups
    ensures Total(m) == Total(GroupTotals(m, key, groups))
    decreases |groups|
  {
    if groups == {} {
      assert m == map[] && GroupTotals(m, key, groups) == map[];
    } else {
      var g :| g in groups;
      var rest := Without(m, key, g);
      TotalSplit(m, key, g);
      TotalByKeys(rest, key, groups - {g});
      forall g' | g' in groups - {g}
        ensures Slice(rest, key, g') == Slice(m, key, g')
      {
      }
      assert GroupTotals(m, key, groups) - {g} == GroupTotals(rest, key, groups - {g});
      TotalRemove(GroupTotals(m, key, groups), g);
    }
  }

  lemma {:induction false} TotalListed<G(!new)>(m: map<G, int>, groups: seq<G>, sums: seq<int>)
    requires Distinct(groups) && |sums| == |groups| && m.Keys == Elems(groups)
    requires forall i :: 0 <= i < |groups| ==> sums[i] == m[groups[i]]
    ensures SumSeq(sums) == Total(m)
    decreases |groups|
  {
    if |groups| == 0 {
      assert m == map[];
    } else {
      var n := |groups| - 1;
      var g := groups[n];
      assert groups == groups[..n] + [g];
      assert (m - {g}).Keys == Elems(groups[..n]);
      TotalListed(m - {g}, groups[..n], sums[..n]);
      TotalRemove(m, g);
    }
  }

  /** GROUP BY: listing every group once, the group totals add up to the grand total. */
  lemma TotalByGroups<K(!new), G(!new)>(m: map<K, int>, key: map<K, G>, groups: seq<G>, sums: seq<int>)
    requires Distinct(groups) && |sums| == |groups|
    requires forall k :: k in m ==> k in key && key[k] in groups
    requires forall i :: 0 <= i < |groups| ==> sums[i] == Total(Slice(m, key, groups[i]))
    ensures SumSeq(sums) == Total(m)
  {
    hide Total, Slice, SumSeq;
    TotalByKeys(m, key, Elems(groups));
    TotalListed(GroupTotals(m, key, Elems(groups)), groups, sums);
  }

  lemma {:induction false} TotalNonNegative<K(!new)>(m: map<K, int>)
    requires forall k :: k in m ==> m[k] >= 0
    ensures Total(m) >= 0
    decreases |m|
  {
    if m != map[] {
      var k :| k in m;
      TotalRemove(m, k);
      assert (m - {k}).Keys == m.Keys - {k};
      TotalNonNegative(m - {k});
    }
  }

  /** COUNT(*) is the SUM of ones. */
  lemma {:induction false} TotalOnes<K(!new)>(m: map<K, int>)
    requires forall k :: k in m ==> m[k] == 1
    ensures Total(m) == |m|
    decreases |m|
  {
    if m != map[] {
      var k :| k in m;
      TotalRemove(m, k);
      assert (m - {k}).Keys == m.Keys - {k};
      TotalOnes(m - {k});
    }
  }

  /** A value-preserving one-to-one match between two row sets preserves the sum. */
  lemma {:induction false} TotalBijection<K(!new), L(!new)>(m: map<K, int>, n: map<L, int>, f: map<K, L>)
    requires f.Keys == m.Keys
    requires forall k :: k in m ==> f[k] in n && n[f[k]] == m[k]
    requires forall k, k' :: k in m && k' in m && f[k] == f[k'] ==> k == k'
    requires forall l :: l in n ==> exists k :: k in m && f[k] == l
    ensures Total(m) == Total(n)
    decreases |m|
  {
    if m == map[] {
      assert n == map[];
    } else {
      var k :| k in m;
      var l := f[k];
      TotalRemove(m, k);
      TotalRemove(n, l);
      assert (m - {k}).Keys == m.Keys - {k};
      forall l' | l' in n - {l}
        ensures exists k' :: k' in m - {k} && (f - {k})[k'] == l'
      {
        var k' :| k' in m && f[k'] == l';
        assert k' in m - {k};
      }
      TotalBijection(m - {k}, n - {l}, f - {k});
    }
  }

  lemma {:induction false} LeastElement(s: set<int>) returns (m: int)
    requires s != {}
    ensures m in s && forall x | x in s :: m <= x
    decreases |s|
  {
    var first := Pick(s);
    m := first;
    if s - {first} != {} {
      var lo := LeastElement(s - {first});
      m := Min(lo, first);
    }
    forall x | x in s
      ensures m <= x
    {
      assert x == first || x in s - {first};
    }
  }

  lemma {:induction false} GreatestElement(s: set<int>) returns (m: int)
    requires s != {}
    ensures m in s && forall x | x in s :: x <= m
    decreases |s|
  {
    var first := Pick(s);
    m := first;
    if s - {first} != {} {
      var hi := GreatestElement(s - {first});
      m := Max(hi, first);
    }
    forall x | x in s
      ensures x <= m
    {
      assert x == first || x in s - {first};
    }
  }

  /** MIN, null over no rows. */
  ghost function Least(s: set<int>): Option<int> {
    if s == {} then None
    else
      assert exists m :: m in s && forall x | x in s :: m <= x by {
        var m := LeastElement(s);
      }
      var m :| m in s && forall x | x in s :: m <= x;
      Some(m)
  }

  /** MAX, null over no rows. */
  ghost function Greatest(s: set<int>): Option<int> {
    if s == {} then None
    else
      assert exists m :: m in s && forall x | x in s :: x <= m by {
        var m := GreatestElement(s);
      }
      var m :| m in s && forall x | x in s :: x <= m;
      Some(m)
  }
}
