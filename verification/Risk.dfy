/**
 The report's risk figure: each node takes the worst entity type among the nodes its money came
 from, followed backwards for at most 40 rounds.
 */
module Risk {
  import opened Common
  import opened Report
  import opened Entities

  const ROUNDS := 40

  /** Types of note, the worst last. */
  const LADDER := ["exchange", "mixer", "sanctioned"]

  function Rank(etype: Option<string>): (r: nat)
    ensures if r == 0 then etype.None? || etype.value !in LADDER else r <= |LADDER| && etype == Some(LADDER[r - 1])
  {
    if etype == Some("sanctioned") then 3
    else if etype == Some("mixer") then 2
    else if etype == Some("exchange") then 1
    else 0
  }

  /** The first node with this id. */
  function TypeOf(nodes: seq<Node>, id: string): Option<string> {
    if nodes == [] then None else if nodes[0].id == id then nodes[0].etype else TypeOf(nodes[1..], id)
  }

  function RankOf(nodes: seq<Node>, id: string): nat {
    Rank(TypeOf(nodes, id))
  }

  ghost predicate EdgeFrom(edges: seq<Edge>, a: string, b: string) {
    exists e :: e in edges && e.s == a && e.t == b
  }

  function SourcesOf(edges: seq<Edge>, bs: set<string>): set<string> {
    set e | e in edges && e.t in bs :: e.s
  }

  /** Everything that reaches `id` over at most k edges. */
  function Within(edges: seq<Edge>, id: string, k: nat): set<string> {
    if k == 0 then {id} else Within(edges, id, k - 1) + SourcesOf(edges, Within(edges, id, k - 1))
  }

  /** `w` is the greatest rank in `s`, 0 if nothing there has one. */
  ghost predicate IsWorst(nodes: seq<Node>, s: set<string>, w: nat) {
    && (forall a | a in s :: RankOf(nodes, a) <= w)
    && (w == 0 || exists a :: a in s && RankOf(nodes, a) == w)
  }

  ghost predicate Listed(inc: map<string, seq<string>>, a: string, b: string) {
    b in inc && a in inc[b]
  }

  /** Money into each address: the sources of its edges. */
  ghost predicate IncomingOf(edges: seq<Edge>, n: nat, inc: map<string, seq<string>>)
    requires n <= |edges|
  {
    forall a, b :: Listed(inc, a, b) <==> EdgeFrom(edges[..n], a, b)
  }

  function AddIncoming(inc: map<string, seq<string>>, e: Edge): map<string, seq<string>> {
    inc[e.t := (if e.t in inc then inc[e.t] else []) + [e.s]]
  }

  method Incoming(edges: seq<Edge>) returns (inc: map<string, seq<string>>)
    ensures IncomingOf(edges, |edges|, inc)
  {
    inc := map[];
    for i := 0 to |edges|
      invariant IncomingOf(edges, i, inc)
    {
      var e := edges[i];
      IncomingStep(edges, i, inc);
      inc := inc[e.t := (if e.t in inc then inc[e.t] else []) + [e.s]];
    }
  }

  lemma IncomingStep(edges: seq<Edge>, i: nat, inc: map<string, seq<string>>)
    requires i < |edges| && IncomingOf(edges, i, inc)
    ensures IncomingOf(edges, i + 1, AddIncoming(inc, edges[i]))
  {
    hide Listed, EdgeFrom, AddIncoming;
    forall a, b
      ensures Listed(AddIncoming(inc, edges[i]), a, b) <==> EdgeFrom(edges[..i + 1], a, b)
    {
      EdgeFromStep(edges, i, a, b);
      ListedStep(inc, edges[i], a, b);
    }
  }

  lemma ListedStep(inc: map<string, seq<string>>, e: Edge, a: string, b: string)
    ensures Listed(AddIncoming(inc, e), a, b) <==> Listed(inc, a, b) || (e.s == a && e.t == b)
  {
  }

  lemma EdgeFromStep(edges: seq<Edge>, i: nat, a: string, b: string)
    requires i < |edges|
    ensures EdgeFrom(edges[..i + 1], a, b) <==> EdgeFrom(edges[..i], a, b) || (edges[i].s == a && edges[i].t == b)
  {
    assert edges[..i + 1] == edges[..i] + [edges[i]];
  }

  lemma SourcesOfOne(edges: seq<Edge>, inc: map<string, seq<string>>, c: string)
    requires IncomingOf(edges, |edges|, inc)
    ensures SourcesOf(edges, {c}) == Elems(if c in inc then inc[c] else [])
  {
    assert edges[..|edges|] == edges;
    forall a
      ensures a in SourcesOf(edges, {c}) <==> EdgeFrom(edges, a, c)
      ensures EdgeFrom(edges, a, c) <==> Listed(inc, a, c)
    {
    }
  }

  /** The addresses not looked at before grow by `c`, and so do their sources. */
  lemma FreshStep(edges: seq<Edge>, cur: seq<string>, i: nat, seen0: set<string>)
    requires i < |cur|
    ensures Elems(cur[..i + 1]) == Elems(cur[..i]) + {cur[i]}
    ensures var fresh0, c := Elems(cur[..i]) - seen0, cur[i];
            && (c in seen0 + Elems(cur[..i]) ==> Elems(cur[..i + 1]) - seen0 == fresh0)
            && (c !in seen0 ==>
                SourcesOf(edges, Elems(cur[..i + 1]) - seen0) == SourcesOf(edges, fresh0) + SourcesOf(edges, {c}))
  {
    assert cur[..i + 1] == cur[..i] + [cur[i]];
    var fresh0, c := Elems(cur[..i]) - seen0, cur[i];
    if c !in seen0 {
      assert Elems(cur[..i + 1]) - seen0 == fresh0 + {c};
    }
  }

  /** One round: the new addresses of `cur` are looked at and their sources collected. */
  method Round(nodes: seq<Node>, edges: seq<Edge>, inc: map<string, seq<string>>, cur: seq<string>,
               seen0: set<string>, worst0: nat, type0: Option<string>)
    returns (next: seq<string>, seen: set<string>, worst: nat, wtype: Option<string>)
    requires IncomingOf(edges, |edges|, inc) && IsWorst(nodes, seen0, worst0)
    requires worst0 == Rank(type0) && (type0.Some? ==> worst0 > 0)
    ensures seen == seen0 + Elems(cur)
    ensures Elems(next) == SourcesOf(edges, Elems(cur) - seen0)
    ensures IsWorst(nodes, seen, worst) && worst == Rank(wtype) && (wtype.Some? ==> worst > 0)
  {
    hide Listed, EdgeFrom, SourcesOf, TypeOf, IncomingOf;
    assert Elems(cur[..0]) - seen0 == {};
    NoSources(edges);
    seen, worst, wtype, next := seen0, worst0, type0, [];
    for i := 0 to |cur|
      invariant seen == seen0 + Elems(cur[..i])
      invariant Elems(next) == SourcesOf(edges, Elems(cur[..i]) - seen0)
      invariant IsWorst(nodes, seen, worst) && worst == Rank(wtype) && (wtype.Some? ==> worst > 0)
    {
      var c := cur[i];
      FreshStep(edges, cur, i, seen0);
      if c in seen {
        continue;
      }
      seen := seen + {c};
      var etype := TypeOf(nodes, c);
      if Rank(etype) > worst {
        worst, wtype := Rank(etype), etype;
      }
      SourcesOfOne(edges, inc, c);
      next := next + if c in inc then inc[c] else [];
    }
    assert cur[..|cur|] == cur;
  }

  lemma NoSources(edges: seq<Edge>)
    ensures SourcesOf(edges, {}) == {}
  {
  }

  lemma SourcesUnion(edges: seq<Edge>, p: set<string>, q: set<string>)
    ensures SourcesOf(edges, p + q) == SourcesOf(edges, p) + SourcesOf(edges, q)
  {
  }

  lemma SourcesGrow(edges: seq<Edge>, p: set<string>, q: set<string>)
    requires p <= q
    ensures SourcesOf(edges, p) <= SourcesOf(edges, q)
  {
  }

  /** A round that starts from everything within g edges ends with everything within g + 1. */
  lemma RoundWidens(edges: seq<Edge>, id: string, g: nat, seen: set<string>, cur: set<string>)
    requires seen == if g == 0 then {} else Within(edges, id, g - 1)
    requires seen + cur == Within(edges, id, g)
    ensures Within(edges, id, g + 1) == seen + cur + SourcesOf(edges, cur - seen)
  {
    hide SourcesOf;
    assert seen + cur == seen + (cur - seen);
    SourcesUnion(edges, seen, cur - seen);
    NoSources(edges);
  }

  ghost predicate Closed(edges: seq<Edge>, id: string, k: nat) {
    SourcesOf(edges, Within(edges, id, k)) <= Within(edges, id, k)
  }

  lemma {:induction false} WithinGrows(edges: seq<Edge>, id: string, j: nat, k: nat)
    requires j <= k
    ensures Within(edges, id, j) <= Within(edges, id, k)
    decreases k
  {
    if j < k {
      WithinGrows(edges, id, j, k - 1);
    }
  }

  /** Once a round adds nothing, no later round does. */
  lemma {:induction false} ClosedStays(edges: seq<Edge>, id: string, j: nat, k: nat)
    requires Closed(edges, id, j) && j <= k
    ensures Within(edges, id, k) == Within(edges, id, j)
    decreases k
  {
    hide SourcesOf;
    if j < k {
      ClosedStays(edges, id, j, k - 1);
    }
  }

  method RiskOf(nodes: seq<Node>, edges: seq<Edge>, inc: map<string, seq<string>>, id: string)
    returns (worst: nat, wtype: Option<string>)
    requires IncomingOf(edges, |edges|, inc)
    ensures IsWorst(nodes, Within(edges, id, ROUNDS - 1), worst)
    ensures worst == Rank(wtype) && (wtype.Some? ==> worst > 0)
  {
    hide IncomingOf, IsWorst, SourcesOf, Within;
    var seen: set<string>, cur, g := {}, [id], 0;
    worst, wtype := 0, None;
    assert Elems(cur) == {id} == Within(edges, id, 0) by { WithinNone(edges, id); }
    assert IsWorst(nodes, {}, 0) by { WorstOfNone(nodes); }
    while cur != [] && g < ROUNDS
      invariant 0 <= g <= ROUNDS
      invariant seen == if g == 0 then {} else Within(edges, id, g - 1)
      invariant seen + Elems(cur) == Within(edges, id, g) && (g == 0 ==> cur != [])
      invariant IsWorst(nodes, seen, worst) && worst == Rank(wtype) && (wtype.Some? ==> worst > 0)
      decreases ROUNDS - g
    {
      RoundWidens(edges, id, g, seen, Elems(cur));
      g := g + 1;
      cur, seen, worst, wtype := Round(nodes, edges, inc, cur, seen, worst, wtype);
    }
    if cur == [] {
      assert Elems(cur) == {};
      assert Closed(edges, id, g - 1) by { StillIsClosed(edges, id, g - 1); }
      ClosedStays(edges, id, g - 1, ROUNDS - 1);
    }
  }

  lemma WithinNone(edges: seq<Edge>, id: string)
    ensures Within(edges, id, 0) == {id}
  {
  }

  lemma WorstOfNone(nodes: seq<Node>)
    ensures IsWorst(nodes, {}, 0)
  {
  }

  lemma StillIsClosed(edges: seq<Edge>, id: string, k: nat)
    requires Within(edges, id, k + 1) == Within(edges, id, k)
    ensures Closed(edges, id, k)
  {
  }

  // ----- what the limit of rounds costs -----

  /** `w` bounds the rank of everything that reaches `id`, however far away. */
  ghost predicate BoundsAll(nodes: seq<Node>, edges: seq<Edge>, id: string, w: nat) {
    forall k: nat, a | a in Within(edges, id, k) :: RankOf(nodes, a) <= w
  }

  function Sanctioned(id: string): seq<Node> {
    [Node(id, "out", false, None, Some("sanctioned"), 0, 0, [])]
  }

  lemma OneSanctioned(id: string, s: set<string>)
    ensures forall a :: RankOf(Sanctioned(id), a) == if a == id then 3 else 0
    ensures IsWorst(Sanctioned(id), s, if id in s then 3 else 0)
  {
    assert Sanctioned(id)[1..] == [];
    assert forall a :: TypeOf(Sanctioned(id), a) == if a == id then Some("sanctioned") else None;
  }

  /**
   The risk of a node covers everything its money came from, whatever the types, exactly when
   the rounds reach everything: one more hop adds no address.
   */
  lemma RiskIsWholeIff(edges: seq<Edge>, id: string)
    ensures Closed(edges, id, ROUNDS - 1) <==>
              forall nodes, w: nat | IsWorst(nodes, Within(edges, id, ROUNDS - 1), w) :: BoundsAll(nodes, edges, id, w)
  {
    var near := Within(edges, id, ROUNDS - 1);
    hide Within, SourcesOf, RankOf;
    if Closed(edges, id, ROUNDS - 1) {
      forall nodes, w: nat, k: nat, a | IsWorst(nodes, near, w) && a in Within(edges, id, k)
        ensures RankOf(nodes, a) <= w
      {
        if k < ROUNDS {
          WithinGrows(edges, id, k, ROUNDS - 1);
        } else {
          ClosedStays(edges, id, ROUNDS - 1, k);
        }
      }
    } else {
      var a := NextSource(edges, id, ROUNDS - 1);
      OneSanctioned(a, near);
      assert RankOf(Sanctioned(a), a) == 3 && a in Within(edges, id, ROUNDS);
      assert !BoundsAll(Sanctioned(a), edges, id, 0);
    }
  }

  lemma NextSource(edges: seq<Edge>, id: string, k: nat) returns (a: string)
    requires !Closed(edges, id, k)
    ensures a in Within(edges, id, k + 1) && a !in Within(edges, id, k)
  {
    a :| a in SourcesOf(edges, Within(edges, id, k)) && a !in Within(edges, id, k);
  }

  ghost predicate KeepsUp(nodes: seq<Node>, p: set<string>, q: set<string>) {
    forall wp: nat, wq: nat | IsWorst(nodes, p, wp) && IsWorst(nodes, q, wq) :: wp <= wq
  }

  /** Risk never falls from `s` to `t`, whatever the types, exactly when all that `s` sees is seen by `t`. */
  lemma RiskKeepsUpIff(edges: seq<Edge>, s: string, t: string)
    ensures var p, q := Within(edges, s, ROUNDS - 1), Within(edges, t, ROUNDS - 1);
            p <= q <==> forall nodes :: KeepsUp(nodes, p, q)
  {
    hide Within;
    var p, q := Within(edges, s, ROUNDS - 1), Within(edges, t, ROUNDS - 1);
    if !(p <= q) {
      var a :| a in p && a !in q;
      OneSanctioned(a, p);
      OneSanctioned(a, q);
      assert !KeepsUp(Sanctioned(a), p, q);
    }
  }

  /** Along an edge into a node whose rounds reach everything, risk never falls. */
  lemma RiskNeverFalls(nodes: seq<Node>, edges: seq<Edge>, e: Edge, ws: nat, wt: nat)
    requires e in edges && Closed(edges, e.t, ROUNDS - 1)
    requires IsWorst(nodes, Within(edges, e.s, ROUNDS - 1), ws) && IsWorst(nodes, Within(edges, e.t, ROUNDS - 1), wt)
    ensures ws <= wt
  {
    hide Within, IsWorst;
    OneHopFurther(edges, e, ROUNDS - 1);
    ClosedStays(edges, e.t, ROUNDS - 1, ROUNDS);
    RiskKeepsUpIff(edges, e.s, e.t);
    assert KeepsUp(nodes, Within(edges, e.s, ROUNDS - 1), Within(edges, e.t, ROUNDS - 1));
  }

  lemma {:induction false} OneHopFurther(edges: seq<Edge>, e: Edge, k: nat)
    requires e in edges
    ensures Within(edges, e.s, k) <= Within(edges, e.t, k + 1)
  {
    if k == 0 {
      assert e.t in Within(edges, e.t, 0);
    } else {
      OneHopFurther(edges, e, k - 1);
      SourcesGrow(edges, Within(edges, e.s, k - 1), Within(edges, e.t, k));
    }
  }

  // ----- a chain of 40 hops -----

  function Id(i: nat): string {
    seq(i, _ => 'a')
  }

  function Line(n: nat): seq<Edge> {
    seq(n, i requires 0 <= i < n => Edge(Id(i), Id(i + 1), "out", 0, 1))
  }

  lemma LineSources(n: nat, j: nat)
    requires j <= n
    ensures SourcesOf(Line(n), {Id(j)}) == if j == 0 then {} else {Id(j - 1)}
  {
    assert forall i: nat :: |Id(i)| == i;
    if j > 0 {
      assert Line(n)[j - 1] in Line(n);
    }
  }

  function Ids(lo: nat, hi: nat): set<string> {
    set i | lo <= i <= hi :: Id(i)
  }

  lemma {:induction false} LineWithin(n: nat, j: nat, k: nat)
    requires j <= n
    ensures Within(Line(n), Id(j), k) == Ids(if j < k then 0 else j - k, j)
  {
    hide Ids, Id, SourcesOf, Line;
    if k == 0 {
      IdsGrow(j, j);
    } else {
      LineWithin(n, j, k - 1);
      IdsSources(n, if j < k - 1 then 0 else j - (k - 1), j);
    }
  }

  lemma IdsGrow(lo: nat, hi: nat)
    requires lo <= hi
    ensures Ids(hi, hi) == {Id(hi)}
    ensures lo < hi ==> Ids(lo, hi) == Ids(lo, hi - 1) + {Id(hi)}
    ensures lo > 0 ==> Ids(lo, hi) + {Id(lo - 1)} == Ids(lo - 1, hi)
    ensures Id(hi) in Ids(lo, hi) && (hi > 0 && lo < hi ==> Id(hi - 1) in Ids(lo, hi - 1))
  {
    hide Id;
  }

  lemma {:induction false} IdsSources(n: nat, lo: nat, hi: nat)
    requires lo <= hi <= n
    ensures SourcesOf(Line(n), Ids(lo, hi)) + Ids(lo, hi) == Ids(if lo == 0 then 0 else lo - 1, hi)
    decreases hi - lo
  {
    hide Ids, SourcesOf, Line, Id;
    LineSources(n, hi);
    IdsGrow(lo, hi);
    if lo < hi {
      IdsSources(n, lo, hi - 1);
      SourcesUnion(Line(n), Ids(lo, hi - 1), {Id(hi)});
      if lo > 0 {
        IdsGrow(lo - 1, hi);
        IdsGrow(lo, hi - 1);
      }
    }
  }

  /** Behind a sanctioned address, the 39th hop is still marked and the 40th is not. */
  lemma RiskCanFall()
    ensures EdgeFrom(Line(40), Id(39), Id(40))
    ensures IsWorst(Sanctioned(Id(0)), Within(Line(40), Id(39), ROUNDS - 1), 3)
    ensures IsWorst(Sanctioned(Id(0)), Within(Line(40), Id(40), ROUNDS - 1), 0)
  {
    hide Within;
    assert Line(40)[39] in Line(40);
    LineWithin(40, 39, 39);
    LineWithin(40, 40, 39);
    assert |Id(0)| == 0 && forall i: nat | i > 0 :: |Id(i)| > 0;
    OneSanctioned(Id(0), Ids(0, 39));
    OneSanctioned(Id(0), Ids(1, 40));
  }

  // ----- the whole report -----

  lemma AllNamed(data: seq<Node>, nodes: seq<Node>, edges: seq<Edge>, names: map<string, string>)
    requires NamesOf(data, |data|, names)
    requires forall n | n in nodes :: n in data
    requires forall e | e in edges :: e.s in Report.Ids(nodes) && e.t in Report.Ids(nodes)
    ensures Named(names, nodes, []) && Named(names, [], edges)
  {
  }

  method Shaped(data: seq<Node>, allFlows: seq<Edge>, dir: string, collapse: bool)
    returns (nodes: seq<Node>, edges: seq<Edge>, risks: seq<nat>)
    ensures var shown := ShownNodes(dir, data); var flows := ShownEdges(dir, Report.Ids(shown), allFlows);
            if collapse then exists names :: NamesOf(data, |data|, names) && Merged(names, shown, flows, nodes, edges)
            else nodes == shown && edges == flows
    ensures var shown := ShownNodes(dir, data); var flows := ShownEdges(dir, Report.Ids(shown), allFlows);
            collapse ==> MergedWell(data, shown, flows, nodes, edges)
    ensures |risks| == |nodes|
    ensures forall i | 0 <= i < |nodes| :: IsWorst(nodes, Within(edges, nodes[i].id, ROUNDS - 1), risks[i])
  {
    hide IsWorst, Within, IncomingOf, MergedNodes, MergedEdges, NamesOf, Lists, MergedWell;
    nodes := ShownNodes(dir, data);
    edges := ShownEdges(dir, Report.Ids(nodes), allFlows);
    if collapse {
      var names := Names(data);
      AllNamed(data, nodes, edges, names);
      var nn := CollapseNodes(names, nodes);
      var em := CollapseEdges(names, edges);
      ghost var shown, flows := nodes, edges;
      ghost var ids, pairs;
      nodes, ids := ValuesOf(nn);
      edges, pairs := ValuesOf(em);
      assert Merged(names, shown, flows, nodes, edges);
      MergesWell(data, dir, names, flows, nodes, edges);
    }
    var inc := Incoming(edges);
    risks := [];
    for i := 0 to |nodes|
      invariant |risks| == i
      invariant forall j | 0 <= j < i :: IsWorst(nodes, Within(edges, nodes[j].id, ROUNDS - 1), risks[j])
    {
      var worst, wtype := RiskOf(nodes, edges, inc, nodes[i].id);
      risks := risks + [worst];
    }
  }
}
