/**
 The trace engine: a breadth-first walk over address flows that does not expand busy addresses, the
 origin's own wallet or anything beyond a cap on the number of nodes.
 */
module Trace {
  import opened Common

  type Address = string

  datatype Dir = OutDir | InDir
  datatype Side = OriginSide | OutSide | InSide

  /** One row of the outgoing or incoming edge query. */
  datatype Row = Row(other: Option<Address>, estimate: Option<int>, txCount: int, single: bool)

  /** What the queries about an address answer; None is a statement timeout. */
  datatype Answers = Answers(utxos: Option<nat>, rows: Option<seq<Row>>)

  datatype Node = Node(depth: nat, side: Side, received: int, sent: int, sameOwner: bool,
                       isHub: bool, truncated: bool, timedOut: bool)

  datatype Edge = Edge(from: Address, to: Address, dir: Dir, value: int, txCount: int, hops: nat,
                       returnsToOwner: bool, certain: bool)

  const HUB_UTXO_THRESHOLD := 20_000

  datatype Config = Config(origin: Address, depth: int, fanout: int, maxNodes: int, cluster: set<Address>,
                           ask: (Dir, Address) -> Answers, totals: Address -> Option<(int, int)>)

  /** The cluster always has the origin, and a query groups its rows by the other address. */
  ghost predicate ValidConfig(c: Config) {
    && c.origin in c.cluster
    && forall dir, a :: c.ask(dir, a).rows.Some? ==> Grouped(c.ask(dir, a).rows.value)
  }

  ghost predicate Grouped(rows: seq<Row>) {
    forall i, j | 0 <= i < j < |rows| :: rows[i].other.Some? ==> rows[i].other != rows[j].other
  }

  /** The end of an edge that was expanded, and the end that was found, in the traced direction. */
  function Source(e: Edge): Address {
    if e.dir == OutDir then e.from else e.to
  }

  function Target(e: Edge): Address {
    if e.dir == OutDir then e.to else e.from
  }

  // ----- what one address contributes -----

  datatype Verdict = Hub | TimedOut | Flows(rows: seq<Row>)

  function Judge(c: Config, dir: Dir, a: Address): Verdict {
    var answers := c.ask(dir, a);
    if answers.utxos.None? then TimedOut
    else if answers.utxos.value > HUB_UTXO_THRESHOLD && a != c.origin then Hub
    else if answers.rows.None? then TimedOut
    else Flows(answers.rows.value)
  }

  function Mark(c: Config, v: Verdict, n: Node): Node {
    match v
    case Hub => n.(isHub := true)
    case TimedOut => n.(timedOut := true)
    case Flows(rows) => if |rows| >= c.fanout then n.(truncated := true) else n
  }

  function SideOf(dir: Dir): Side {
    if dir == OutDir then OutSide else InSide
  }

  function NewNode(c: Config, a: Address, depth: nat, side: Side): Node {
    var t := c.totals(a);
    Node(depth, side, if t.Some? then t.value.0 else 0, if t.Some? then t.value.1 else 0,
         a in c.cluster && a != c.origin, false, false, false)
  }

  function EdgeFor(c: Config, dir: Dir, addr: Address, d: nat, r: Row): Edge
    requires r.other.Some?
  {
    var other := r.other.value;
    Edge(if dir == OutDir then addr else other, if dir == OutDir then other else addr, dir,
         if r.estimate.Some? then r.estimate.value else 0, r.txCount, d, other in c.cluster, r.single)
  }

  /** Rows without an address give no edge. */
  ghost function RowEdges(c: Config, dir: Dir, addr: Address, d: nat, rows: seq<Row>, n: nat): seq<Edge>
    requires n <= |rows|
  {
    if n == 0 then []
    else
      RowEdges(c, dir, addr, d, rows, n - 1) +
      if rows[n - 1].other.Some? then [EdgeFor(c, dir, addr, d, rows[n - 1])] else []
  }

  lemma NoRowEdges(c: Config, dir: Dir, addr: Address, d: nat, rows: seq<Row>)
    ensures RowEdges(c, dir, addr, d, rows, 0) == []
  {
  }

  lemma NextRowEdges(c: Config, dir: Dir, addr: Address, d: nat, rows: seq<Row>, n: nat)
    requires n < |rows|
    ensures RowEdges(c, dir, addr, d, rows, n + 1)
            == RowEdges(c, dir, addr, d, rows, n) + if rows[n].other.Some? then [EdgeFor(c, dir, addr, d, rows[n])]
               else []
  {
  }

  ghost function EdgesOf(c: Config, dir: Dir, x: (Address, nat)): seq<Edge> {
    var v := Judge(c, dir, x.0);
    if v.Flows? then RowEdges(c, dir, x.0, x.1, v.rows, |v.rows|) else []
  }

  ghost function AllEdges(c: Config, dir: Dir, xs: seq<(Address, nat)>): seq<Edge> {
    if |xs| == 0 then [] else AllEdges(c, dir, xs[..|xs| - 1]) + EdgesOf(c, dir, xs[|xs| - 1])
  }

  lemma {:induction false} RowEdgesPrefix(c: Config, dir: Dir, addr: Address, d: nat, rows: seq<Row>, n: nat)
    requires n <= |rows|
    ensures RowEdges(c, dir, addr, d, rows, n) <= RowEdges(c, dir, addr, d, rows, |rows|)
    decreases |rows| - n
  {
    if n < |rows| {
      RowEdgesPrefix(c, dir, addr, d, rows, n + 1);
    }
  }

  // ----- what the graph keeps whatever happens -----

  function Flagged(edges: seq<Edge>): seq<Edge> {
    if |edges| == 0 then []
    else
      var e := edges[|edges| - 1];
      Flagged(edges[..|edges| - 1]) + if e.returnsToOwner then [e] else []
  }

  lemma FlaggedSnoc(edges: seq<Edge>, e: Edge)
    ensures Flagged(edges + [e]) == Flagged(edges) + if e.returnsToOwner then [e] else []
  {
    assert (edges + [e])[..|edges|] == edges;
  }

  ghost predicate Same(e: Edge, e': Edge) {
    e.from == e'.from && e.to == e'.to && e.dir == e'.dir
  }

  ghost predicate NoRepeats(edges: seq<Edge>) {
    forall i, j | 0 <= i < j < |edges| :: !Same(edges[i], edges[j])
  }

  /** Endpoints are nodes, no edge repeats, and exactly the edges into the cluster are flagged. */
  ghost predicate Integrity(c: Config, ends: set<Address>, edges: seq<Edge>) {
    && c.origin in ends
    && (forall e | e in edges :: e.from in ends && e.to in ends)
    && (forall e | e in edges :: e.returnsToOwner <==> Target(e) in c.cluster)
    && NoRepeats(edges)
  }

  /** Edges of this direction start at expanded addresses. */
  ghost predicate FromExpanded(edges: seq<Edge>, dir: Dir, seen: set<Address>) {
    forall e | e in edges && e.dir == dir :: Source(e) in seen
  }

  /** The edges from `addr` lead to others among the first n rows. */
  ghost predicate OnlyRows(edges: seq<Edge>, dir: Dir, addr: Address, rows: seq<Row>, n: nat)
    requires n <= |rows|
  {
    forall e | e in edges && e.dir == dir && Source(e) == addr ::
      exists m :: 0 <= m < n && rows[m].other == Some(Target(e))
  }

  lemma RowIsNew(edges: seq<Edge>, e: Edge, rows: seq<Row>, n: nat)
    requires Grouped(rows) && n < |rows| && rows[n].other == Some(Target(e))
             && OnlyRows(edges, e.dir, Source(e), rows, n)
    requires NoRepeats(edges)
    ensures NoRepeats(edges + [e])
  {
    forall x | x in edges
      ensures !Same(x, e)
    {
      assert x.dir == e.dir && Source(x) == Source(e) ==> Target(x) != Target(e);
    }
  }

  lemma {:induction false} RowKeepsIntegrity(c: Config, ends: set<Address>, edges: seq<Edge>, dir: Dir, addr: Address,
                                             d: nat,
                          rows: seq<Row>, n: nat, seen: set<Address>)
    requires Integrity(c, ends, edges) && FromExpanded(edges, dir, seen) && addr in ends && addr in seen
    requires Grouped(rows) && n < |rows| && rows[n].other.Some? && OnlyRows(edges, dir, addr, rows, n)
    ensures var edges' := edges + [EdgeFor(c, dir, addr, d, rows[n])];
            && Integrity(c, ends + {rows[n].other.value}, edges') && FromExpanded(edges', dir, seen)
            && OnlyRows(edges', dir, addr, rows, n + 1)
  {
    var e := EdgeFor(c, dir, addr, d, rows[n]);
    RowIsNew(edges, e, rows, n);
    forall x | x in edges + [e] && x.dir == dir && Source(x) == addr
      ensures exists m :: 0 <= m < n + 1 && rows[m].other == Some(Target(x))
    {
      if x !in edges {
        assert rows[n].other == Some(Target(x));
      }
    }
  }

  /** Nodes keep their first entry; an expanded one is marked with what its queries answered. */
  ghost predicate NodesAre(c: Config, dir: Dir, before: map<Address, Node>, seen: set<Address>,
                           nodes: map<Address, Node>) {
    && before.Keys <= nodes.Keys && seen <= nodes.Keys
    && forall a | a in nodes ::
         var first := if a in before then before[a] else NewNode(c, a, nodes[a].depth, SideOf(dir));
         nodes[a] == if a in seen then Mark(c, Judge(c, dir, a), first) else first
  }

  // ----- breadth-first order -----

  type Queue = seq<(Address, nat)>
  type Distances = map<Address, nat>

  function Found(dist: Distances, a: Address, n: nat): Distances {
    if a in dist then dist else dist[a := n]
  }

  ghost predicate Layered(edges: seq<Edge>, dir: Dir, dist: Distances) {
    forall e | e in edges && e.dir == dir ::
      Source(e) in dist && Target(e) in dist && dist[Target(e)] <= dist[Source(e)] + 1
  }

  /** Some edge into `a` comes from one step nearer. */
  ghost predicate HasParent(edges: seq<Edge>, dir: Dir, dist: Distances, a: Address)
    requires a in dist
  {
    exists e :: e in edges && e.dir == dir && Target(e) == a && Source(e) in dist && dist[a] == dist[Source(e)] + 1
  }

  /** Distances are consistent along edges, and every address but the origin has an edge explaining its own. */
  ghost predicate Depths(origin: Address, edges: seq<Edge>, dir: Dir, dist: Distances) {
    && origin in dist && dist[origin] == 0
    && Layered(edges, dir, dist)
    && forall a | a in dist && a != origin :: HasParent(edges, dir, dist, a)
  }

  lemma ParentStays(edges: seq<Edge>, dir: Dir, dist: Distances, a: Address, e: Edge, n: nat)
    requires a in dist && HasParent(edges, dir, dist, a)
    ensures HasParent(edges + [e], dir, Found(dist, Target(e), n), a)
  {
    var x :| x in edges && x.dir == dir && Target(x) == a && Source(x) in dist && dist[a] == dist[Source(x)] + 1;
    assert x in edges + [e];
  }

  lemma NewParent(edges: seq<Edge>, dir: Dir, dist: Distances, e: Edge)
    requires e.dir == dir && Source(e) in dist && Target(e) !in dist
    ensures HasParent(edges + [e], dir, dist[Target(e) := dist[Source(e)] + 1], Target(e))
  {
    assert e in edges + [e];
  }

  lemma {:induction false} RowKeepsDepths(origin: Address, edges: seq<Edge>, dir: Dir, dist: Distances, e: Edge)
    requires Depths(origin, edges, dir, dist) && e.dir == dir && Source(e) in dist
    requires forall a | a in dist :: dist[a] <= dist[Source(e)] + 1
    ensures Depths(origin, edges + [e], dir, Found(dist, Target(e), dist[Source(e)] + 1))
  {
    hide HasParent;
    var dist' := Found(dist, Target(e), dist[Source(e)] + 1);
    forall a | a in dist' && a != origin
      ensures HasParent(edges + [e], dir, dist', a)
    {
      if a in dist {
        ParentStays(edges, dir, dist, a, e, dist[Source(e)] + 1);
      } else {
        NewParent(edges, dir, dist, e);
      }
    }
  }

  /** The queue holds distances `level` and `level + 1` in order, and nothing lies deeper. */
  ghost predicate InLevels(dist: Distances, q: Queue, level: nat) {
    && (forall i | 0 <= i < |q| :: level <= q[i].1 <= level + 1)
    && (forall i, j | 0 <= i < j < |q| :: q[i].1 <= q[j].1)
    && (forall a | a in dist :: dist[a] <= level + 1)
  }

  /** `a` is in the queue, up to position i, with its distance. */
  ghost predicate Waits(dist: Distances, q: Queue, i: int, a: Address)
    requires a in dist
  {
    exists j :: 0 <= j <= i && j < |q| && q[j] == (a, dist[a])
  }

  /** The first entry of an unexpanded address carries its distance. */
  ghost predicate FirstIsDistance(dist: Distances, q: Queue, seen: set<Address>) {
    forall i | 0 <= i < |q| :: q[i].0 in dist && (q[i].0 in seen || Waits(dist, q, i, q[i].0))
  }

  /** An address whose flows are to be followed. */
  predicate ToExpand(c: Config, dist: Distances, a: Address) {
    a in dist && MayExpand(c, a, dist[a])
  }

  predicate MayExpand(c: Config, a: Address, n: nat) {
    n < c.depth && (a == c.origin || a !in c.cluster)
  }

  ghost predicate NoneForgotten(c: Config, dist: Distances, q: Queue, seen: set<Address>) {
    forall a | a in dist && ToExpand(c, dist, a) :: a in seen || Waits(dist, q, |q|, a)
  }

  function Enqueue(c: Config, q: Queue, other: Address, d: nat): Queue {
    if d + 1 < c.depth && other !in c.cluster then q + [(other, d + 1)] else q
  }

  lemma RowKeepsLevels(c: Config, dist: Distances, q: Queue, other: Address, d: nat)
    requires InLevels(dist, q, d)
    ensures InLevels(Found(dist, other, d + 1), Enqueue(c, q, other, d), d)
  {
  }

  /** A wait lasts while the queue grows behind it. */
  lemma WaitsOn(dist: Distances, q: Queue, i: int, a: Address, dist': Distances, q': Queue, i': int)
    requires a in dist && a in dist' && dist[a] == dist'[a] && q <= q' && i <= i' && Waits(dist, q, i, a)
    ensures Waits(dist', q', i', a)
  {
    var j :| 0 <= j <= i && j < |q| && q[j] == (a, dist[a]);
    assert q'[j] == q[j];
  }

  lemma RowKeepsFirst(c: Config, dist: Distances, q: Queue, seen: set<Address>, other: Address, d: nat)
    requires FirstIsDistance(dist, q, seen) && NoneForgotten(c, dist, q, seen) && InLevels(dist, q, d)
    requires c.origin in c.cluster
    ensures FirstIsDistance(Found(dist, other, d + 1), Enqueue(c, q, other, d), seen)
  {
    hide Waits;
    var dist', q' := Found(dist, other, d + 1), Enqueue(c, q, other, d);
    forall i | 0 <= i < |q'| && q'[i].0 !in seen
      ensures Waits(dist', q', i, q'[i].0)
    {
      if i < |q| {
        WaitsOn(dist, q, i, q[i].0, dist', q', i);
      } else if other in dist {
        assert ToExpand(c, dist, other);
        WaitsOn(dist, q, |q|, other, dist', q', i);
      } else {
        LastWaits(dist', q', other);
      }
    }
  }

  lemma LastWaits(dist: Distances, q: Queue, a: Address)
    requires a in dist && |q| > 0 && q[|q| - 1] == (a, dist[a])
    ensures Waits(dist, q, |q| - 1, a)
  {
  }

  lemma RowForgetsNone(c: Config, dist: Distances, q: Queue, seen: set<Address>, other: Address, d: nat)
    requires NoneForgotten(c, dist, q, seen) && c.origin in dist
    ensures NoneForgotten(c, Found(dist, other, d + 1), Enqueue(c, q, other, d), seen)
  {
    hide Waits;
    var dist', q' := Found(dist, other, d + 1), Enqueue(c, q, other, d);
    forall a | a in dist' && ToExpand(c, dist', a) && a !in seen
      ensures Waits(dist', q', |q'|, a)
    {
      if a in dist {
        WaitsOn(dist, q, |q|, a, dist', q', |q'|);
      } else {
        LastWaits(dist', q', other);
        WaitsOn(dist', q', |q'| - 1, a, dist', q', |q'|);
      }
    }
  }

  ghost predicate Walking(c: Config, dist: Distances, q: Queue, seen: set<Address>, level: nat) {
    InLevels(dist, q, level) && FirstIsDistance(dist, q, seen) && NoneForgotten(c, dist, q, seen)
  }

  lemma {:induction false} RowKeepsWalking(c: Config, dist: Distances, q: Queue, seen: set<Address>, other: Address,
                                           d: nat)
    requires Walking(c, dist, q, seen, d) && c.origin in c.cluster && c.origin in dist
    ensures Walking(c, Found(dist, other, d + 1), Enqueue(c, q, other, d), seen, d)
  {
    RowKeepsLevels(c, dist, q, other, d);
    RowKeepsFirst(c, dist, q, seen, other, d);
    RowForgetsNone(c, dist, q, seen, other, d);
  }

  lemma WaitsAfterPop(dist: Distances, q: Queue, i: int, a: Address)
    requires |q| > 0 && a in dist && Waits(dist, q, i, a) && a != q[0].0
    ensures Waits(dist, q[1..], i - 1, a)
  {
    var j :| 0 <= j <= i && j < |q| && q[j] == (a, dist[a]);
    assert q[1..][j - 1] == q[j];
  }

  /** The first entry is a stale one, or a fresh address with its distance. */
  lemma {:induction false} PopKeepsWalking(c: Config, dist: Distances, q: Queue, seen: set<Address>, level: nat)
    requires Walking(c, dist, q, seen, level) && |q| > 0
    ensures var (a, d) := q[0];
            && a in dist && (a !in seen ==> dist[a] == d)
            && Walking(c, dist, q[1..], seen + {a}, d)
  {
    var (a, d) := q[0];
    var rest, seen' := q[1..], seen + {a};
    assert a in dist && (a !in seen ==> Waits(dist, q, 0, a));
    assert NoneForgotten(c, dist, rest, seen') by {
      hide Waits;
      forall b | b in dist && ToExpand(c, dist, b) && b !in seen'
        ensures Waits(dist, rest, |rest|, b)
      {
        WaitsAfterPop(dist, q, |q|, b);
      }
    }
    PopKeepsFirst(dist, q, seen);
  }

  lemma PopKeepsFirst(dist: Distances, q: Queue, seen: set<Address>)
    requires FirstIsDistance(dist, q, seen) && |q| > 0
    ensures FirstIsDistance(dist, q[1..], seen + {q[0].0})
  {
    hide Waits;
    var rest, seen' := q[1..], seen + {q[0].0};
    forall i | 0 <= i < |rest| && rest[i].0 !in seen'
      ensures Waits(dist, rest, i, rest[i].0)
    {
      WaitsAfterPop(dist, q, i + 1, rest[i].0);
    }
  }

  // ----- distances are shortest paths -----

  ghost predicate Hop(edges: seq<Edge>, dir: Dir, a: Address, b: Address) {
    exists e :: e in edges && e.dir == dir && Source(e) == a && Target(e) == b
  }

  /** n recorded edges lead from `a` to `b` in the traced direction. */
  ghost predicate Path(edges: seq<Edge>, dir: Dir, a: Address, b: Address, n: nat)
    decreases n
  {
    if n == 0 then a == b else exists m :: Path(edges, dir, a, m, n - 1) && Hop(edges, dir, m, b)
  }

  ghost predicate IsDistance(edges: seq<Edge>, dir: Dir, origin: Address, a: Address, n: nat) {
    Path(edges, dir, origin, a, n) && forall m: nat :: Path(edges, dir, origin, a, m) ==> n <= m
  }

  lemma HopIsShort(edges: seq<Edge>, dir: Dir, dist: Distances, a: Address, b: Address)
    requires Layered(edges, dir, dist) && Hop(edges, dir, a, b)
    ensures a in dist && b in dist && dist[b] <= dist[a] + 1
  {
  }

  lemma {:induction false} PathBoundsDistance(origin: Address, edges: seq<Edge>, dir: Dir, dist: Distances, a: Address,
                                              n: nat)
    requires Depths(origin, edges, dir, dist) && Path(edges, dir, origin, a, n)
    ensures a in dist && dist[a] <= n
    decreases n
  {
    hide HasParent, Hop, Layered;
    if n > 0 {
      var m :| Path(edges, dir, origin, m, n - 1) && Hop(edges, dir, m, a);
      PathBoundsDistance(origin, edges, dir, dist, m, n - 1);
      HopIsShort(edges, dir, dist, m, a);
    }
  }

  lemma ParentHop(edges: seq<Edge>, dir: Dir, dist: Distances, a: Address) returns (b: Address)
    requires a in dist && HasParent(edges, dir, dist, a)
    ensures b in dist && dist[a] == dist[b] + 1 && Hop(edges, dir, b, a)
  {
    var x :| x in edges && x.dir == dir && Target(x) == a && Source(x) in dist && dist[a] == dist[Source(x)] + 1;
    b := Source(x);
  }

  lemma {:induction false} DistanceHasPath(origin: Address, edges: seq<Edge>, dir: Dir, dist: Distances, a: Address)
    requires Depths(origin, edges, dir, dist) && a in dist
    ensures Path(edges, dir, origin, a, dist[a])
    decreases dist[a]
  {
    hide Layered, HasParent, Hop;
    if a == origin {
      assert Path(edges, dir, origin, a, 0);
    } else {
      var b := ParentHop(edges, dir, dist, a);
      DistanceHasPath(origin, edges, dir, dist, b);
      assert Path(edges, dir, origin, b, dist[a] - 1) && Hop(edges, dir, b, a);
    }
  }

  lemma DistancesAreShortest(origin: Address, edges: seq<Edge>, dir: Dir, dist: Distances)
    requires Depths(origin, edges, dir, dist)
    ensures forall a | a in dist :: IsDistance(edges, dir, origin, a, dist[a])
    ensures forall a, n | IsDistance(edges, dir, origin, a, n) :: a in dist && dist[a] == n
  {
    hide Depths, Path;
    forall a | a in dist
      ensures IsDistance(edges, dir, origin, a, dist[a])
    {
      DistanceHasPath(origin, edges, dir, dist, a);
      forall m: nat | Path(edges, dir, origin, a, m)
        ensures dist[a] <= m
      {
        PathBoundsDistance(origin, edges, dir, dist, a, m);
      }
    }
    forall a, n | IsDistance(edges, dir, origin, a, n)
      ensures a in dist && dist[a] == n
    {
      PathBoundsDistance(origin, edges, dir, dist, a, n);
      DistanceHasPath(origin, edges, dir, dist, a);
    }
  }

  // ----- one step of the walk -----

  ghost function AddressesOf(xs: seq<(Address, nat)>): set<Address> {
    set x | x in xs :: x.0
  }

  ghost predicate DistinctAddresses(xs: seq<(Address, nat)>) {
    forall i, j | 0 <= i < j < |xs| :: xs[i].0 != xs[j].0
  }

  datatype Graph = Graph(nodes: map<Address, Node>, edges: seq<Edge>, loops: seq<Edge>)

  ghost predicate ValidGraph(c: Config, g: Graph) {
    Integrity(c, g.nodes.Keys, g.edges) && g.loops == Flagged(g.edges)
  }

  /** What an expansion in direction `dir` keeps: `seen` are expanded, `dist` are the distances found. */
  ghost predicate Expanding(c: Config, g: Graph, dir: Dir, before: map<Address, Node>, seen: set<Address>,
                            dist: Distances) {
    && ValidGraph(c, g) && FromExpanded(g.edges, dir, seen)
    && NodesAre(c, dir, before, seen, g.nodes)
    && Depths(c.origin, g.edges, dir, dist) && dist.Keys <= g.nodes.Keys
    && DepthsRecorded(before, g.nodes, dist)
  }

  ghost predicate DepthsRecorded(before: map<Address, Node>, nodes: map<Address, Node>, dist: Distances) {
    forall a | a in nodes && a !in before :: a in dist && nodes[a].depth == dist[a]
  }

  function EnsureNode(c: Config, nodes: map<Address, Node>, a: Address, depth: nat, side: Side): map<Address, Node> {
    if a in nodes then nodes else nodes[a := NewNode(c, a, depth, side)]
  }

  ghost function AddRow(c: Config, g: Graph, dir: Dir, addr: Address, d: nat, r: Row): Graph
    requires r.other.Some?
  {
    var e := EdgeFor(c, dir, addr, d, r);
    Graph(EnsureNode(c, g.nodes, r.other.value, d + 1, SideOf(dir)), g.edges + [e],
          if e.returnsToOwner then g.loops + [e] else g.loops)
  }

  lemma NewNodeFits(c: Config, nodes: map<Address, Node>, dir: Dir, before: map<Address, Node>, seen: set<Address>,
                    dist: Distances, a: Address, n: nat)
    requires NodesAre(c, dir, before, seen, nodes) && DepthsRecorded(before, nodes, dist) && dist.Keys <= nodes.Keys
    ensures var nodes' := EnsureNode(c, nodes, a, n, SideOf(dir));
            NodesAre(c, dir, before, seen, nodes') && DepthsRecorded(before, nodes', Found(dist, a, n))
            && nodes'.Keys == nodes.Keys + {a}
  {
  }

  lemma RowKeepsExpanding(c: Config, g: Graph, dir: Dir, before: map<Address, Node>, seen: set<Address>,
                          dist: Distances,
                          addr: Address, d: nat, rows: seq<Row>, n: nat, q: Queue)
    requires ValidConfig(c) && Expanding(c, g, dir, before, seen, dist) && Grouped(rows) && n < |rows|
    requires OnlyRows(g.edges, dir, addr, rows, n) && addr in seen && addr in dist && dist[addr] == d
    requires Walking(c, dist, q, seen, d) && rows[n].other.Some?
    ensures var other, g' := rows[n].other.value, AddRow(c, g, dir, addr, d, rows[n]);
            && Expanding(c, g', dir, before, seen, Found(dist, other, d + 1))
            && OnlyRows(g'.edges, dir, addr, rows, n + 1)
            && Walking(c, Found(dist, other, d + 1), Enqueue(c, q, other, d), seen, d)
  {
    hide Integrity, FromExpanded, OnlyRows, NodesAre, DepthsRecorded, FirstIsDistance, NoneForgotten, Flagged, Grouped,
         Enqueue, Depths;
    var e, other := EdgeFor(c, dir, addr, d, rows[n]), rows[n].other.value;
    assert addr in g.nodes && c.origin in dist by {
      Starts(c, g, dir, dist);
    }
    RowKeepsIntegrity(c, g.nodes.Keys, g.edges, dir, addr, d, rows, n, seen);
    FlaggedSnoc(g.edges, e);
    NewNodeFits(c, g.nodes, dir, before, seen, dist, other, d + 1);
    RowKeepsDepths(c.origin, g.edges, dir, dist, e);
    RowKeepsWalking(c, dist, q, seen, other, d);
  }

  lemma Starts(c: Config, g: Graph, dir: Dir, dist: Distances)
    requires Depths(c.origin, g.edges, dir, dist) && dist.Keys <= g.nodes.Keys
    ensures c.origin in dist && forall a | a in dist :: a in g.nodes
  {
  }

  lemma SkippedRow(edges: seq<Edge>, dir: Dir, addr: Address, rows: seq<Row>, n: nat)
    requires n < |rows| && OnlyRows(edges, dir, addr, rows, n)
    ensures OnlyRows(edges, dir, addr, rows, n + 1)
  {
  }

  lemma MarkFits(c: Config, nodes: map<Address, Node>, dir: Dir, before: map<Address, Node>, seen: set<Address>,
                 dist: Distances, a: Address)
    requires NodesAre(c, dir, before, seen, nodes) && DepthsRecorded(before, nodes, dist) && a in nodes && a !in seen
    ensures var nodes' := nodes[a := Mark(c, Judge(c, dir, a), nodes[a])];
            && NodesAre(c, dir, before, seen + {a}, nodes') && DepthsRecorded(before, nodes', dist)
            && nodes'.Keys == nodes.Keys && |nodes'| == |nodes|
  {
    hide Judge, NewNode, Mark, NodesAre, DepthsRecorded;
    var nodes' := nodes[a := Mark(c, Judge(c, dir, a), nodes[a])];
    MarkKeepsDepth(c, Judge(c, dir, a), nodes[a]);
    assert nodes'.Keys == nodes.Keys;
    assert |nodes'| == |nodes'.Keys| && |nodes| == |nodes.Keys|;
    assert NodesAre(c, dir, before, seen + {a}, nodes') by {
      MarkFitsNodes(c, nodes, dir, before, seen, a);
    }
    assert DepthsRecorded(before, nodes', dist) by {
      DepthsStayRecorded(nodes, nodes', before, dist);
    }
  }

  lemma MarkFitsNodes(c: Config, nodes: map<Address, Node>, dir: Dir, before: map<Address, Node>, seen: set<Address>,
                      a: Address)
    requires NodesAre(c, dir, before, seen, nodes) && a in nodes && a !in seen
    ensures NodesAre(c, dir, before, seen + {a}, nodes[a := Mark(c, Judge(c, dir, a), nodes[a])])
  {
    hide Judge, NewNode, Mark;
    MarkKeepsDepth(c, Judge(c, dir, a), nodes[a]);
  }

  lemma DepthsStayRecorded(nodes: map<Address, Node>, nodes': map<Address, Node>, before: map<Address, Node>,
                           dist: Distances)
    requires DepthsRecorded(before, nodes, dist)
    requires nodes'.Keys == nodes.Keys && forall a | a in nodes :: nodes'[a].depth == nodes[a].depth
    ensures DepthsRecorded(before, nodes', dist)
  {
  }

  lemma MarkKeepsDepth(c: Config, v: Verdict, n: Node)
    ensures Mark(c, v, n).depth == n.depth && Mark(c, v, n).side == n.side
  {
  }

  /** Expanding one more address records what its queries answered on its node. */
  lemma MarkKeepsExpanding(c: Config, g: Graph, dir: Dir, before: map<Address, Node>, seen: set<Address>,
                           dist: Distances, a: Address)
    requires Expanding(c, g, dir, before, seen, dist) && a in dist && a !in seen
    ensures a in g.nodes
    ensures var g' := g.(nodes := g.nodes[a := Mark(c, Judge(c, dir, a), g.nodes[a])]);
            Expanding(c, g', dir, before, seen + {a}, dist) && |g'.nodes| == |g.nodes|
    ensures forall rows :: OnlyRows(g.edges, dir, a, rows, 0)
  {
    hide Depths, Judge, NewNode, Mark, NodesAre, DepthsRecorded, Integrity, Flagged;
    MarkFits(c, g.nodes, dir, before, seen, dist, a);
  }

  lemma AllEdgesSnoc(c: Config, dir: Dir, xs: seq<(Address, nat)>, x: (Address, nat))
    ensures AllEdges(c, dir, xs + [x]) == AllEdges(c, dir, xs) + EdgesOf(c, dir, x)
  {
    assert (xs + [x])[..|xs|] == xs;
  }

  lemma AddressesSnoc(xs: seq<(Address, nat)>, x: (Address, nat))
    requires DistinctAddresses(xs) && x.0 !in AddressesOf(xs)
    ensures AddressesOf(xs + [x]) == AddressesOf(xs) + {x.0} && DistinctAddresses(xs + [x])
  {
    assert forall i | 0 <= i < |xs| :: xs[i] in xs;
    assert forall y | y in xs + [x] :: y == x || y in xs;
  }

  /** Recording all edges of one more address, or the first of them, extends what is recorded. */
  lemma EdgesGrow(e0: seq<Edge>, all: seq<Edge>, e1: seq<Edge>, more: seq<Edge>, e2: seq<Edge>)
    requires e1 == e0 + all && e1 <= e2 <= e1 + more
    ensures e0 <= e2 <= e0 + (all + more)
    ensures e2 == e1 + more ==> e2 == e0 + (all + more)
  {
    assert e1 + more == e0 + (all + more);
  }

  lemma SeenAreNodes(c: Config, g: Graph, dir: Dir, before: map<Address, Node>, seen: set<Address>, dist: Distances)
    requires Expanding(c, g, dir, before, seen, dist)
    ensures |seen| <= |g.nodes|
  {
    hide Depths, DepthsRecorded, ValidGraph;
    SubsetSize(seen, g.nodes.Keys);
    assert |g.nodes| == |g.nodes.Keys|;
  }

  lemma {:induction false} SubsetSize(s: set<Address>, t: set<Address>)
    requires s <= t
    ensures |s| <= |t|
  {
    if s != {} {
      var a :| a in s;
      SubsetSize(s - {a}, t - {a});
    }
  }

  ghost predicate AllMayExpand(c: Config, q: Queue) {
    forall i | 0 <= i < |q| :: MayExpand(c, q[i].0, q[i].1)
  }

  lemma NothingExpanded(c: Config, dir: Dir)
    ensures AllEdges(c, dir, []) == [] && AddressesOf([]) == {} && DistinctAddresses([])
  {
  }

  lemma ExpandedPair(xs: seq<(Address, nat)>, dist: Distances, a: Address)
    requires a in AddressesOf(xs) && forall x | x in xs :: x.0 in dist && dist[x.0] == x.1
    ensures a in dist && (a, dist[a]) in xs
  {
    var x :| x in xs && x.0 == a;
    assert x == (a, dist[a]);
  }

  lemma WalkStarts(c: Config, g: Graph, dir: Dir)
    requires ValidGraph(c, g) && forall e | e in g.edges :: e.dir != dir
    ensures Expanding(c, g, dir, g.nodes, {}, map[c.origin := 0])
    ensures Walking(c, map[c.origin := 0], [(c.origin, 0)], {}, 0)
  {
    assert [(c.origin, 0)][0] == (c.origin, 0);
    assert Waits(map[c.origin := 0], [(c.origin, 0)], 0, c.origin);
    assert Waits(map[c.origin := 0], [(c.origin, 0)], 1, c.origin);
  }

  /** A depth limit of 0 leaves even the origin unexpanded. */
  lemma TooDeep(c: Config, dist: Distances, q: Queue, seen: set<Address>, a: Address, d: nat)
    requires a in dist && dist[a] == d && d >= c.depth && q == [] && Walking(c, dist, q, seen + {a}, d)
    ensures Walking(c, dist, q, seen, d)
  {
  }

  /** With an empty queue everything that is to be expanded has been. */
  lemma WalkEnds(c: Config, dist: Distances, seen: set<Address>, level: nat)
    requires Walking(c, dist, [], seen, level)
    ensures forall a | a in dist && MayExpand(c, a, dist[a]) :: a in seen
  {
  }

  lemma ExpandingEnds(c: Config, g: Graph, dir: Dir, before: map<Address, Node>, seen: set<Address>, dist: Distances)
    requires Expanding(c, g, dir, before, seen, dist)
    ensures ValidGraph(c, g) && NodesAre(c, dir, before, seen, g.nodes)
    ensures forall a | a in dist :: IsDistance(g.edges, dir, c.origin, a, dist[a])
    ensures forall a, n | IsDistance(g.edges, dir, c.origin, a, n) :: a in dist && dist[a] == n
    ensures forall a | a in g.nodes && a !in before :: IsDistance(g.edges, dir, c.origin, a, g.nodes[a].depth)
  {
    hide IsDistance, NodesAre;
    DistancesAreShortest(c.origin, g.edges, dir, dist);
  }

  // ----- the walk itself -----

  class Tracer {
    const c: Config
    var nodes: map<Address, Node>
    var edges: seq<Edge>
    var loops: seq<Edge>

    ghost function G(): Graph
      reads this
    {
      Graph(nodes, edges, loops)
    }

    constructor (c: Config)
      requires ValidConfig(c)
      ensures ValidGraph(c, G()) && this.c == c && edges == []
      ensures nodes == map[c.origin := NewNode(c, c.origin, 0, OriginSide)]
      ensures nodes[c.origin].depth == 0 && nodes[c.origin].side == OriginSide
    {
      this.c := c;
      nodes := map[c.origin := NewNode(c, c.origin, 0, OriginSide)];
      edges, loops := [], [];
    }

    method AddNode(a: Address, depth: nat, side: Side)
      modifies this`nodes
      ensures nodes == EnsureNode(c, old(nodes), a, depth, side)
      ensures |old(nodes)| <= |nodes| <= |old(nodes)| + 1
    {
      if a !in nodes {
        nodes := nodes[a := NewNode(c, a, depth, side)];
      }
    }

    /** The flows of one address; reaching the cap empties the queue. */
    method Follow(dir: Dir, addr: Address, d: nat, rows: seq<Row>, q0: Queue,
                  ghost before: map<Address, Node>, ghost seen: set<Address>, ghost dist0: Distances)
      returns (q: Queue, ghost dist: Distances, ghost capped: bool)
      requires ValidConfig(c) && Expanding(c, G(), dir, before, seen, dist0)
      requires Grouped(rows) && OnlyRows(edges, dir, addr, rows, 0)
      requires addr in seen && addr in dist0 && dist0[addr] == d
      requires Walking(c, dist0, q0, seen, d) && AllMayExpand(c, q0)
      requires |nodes| <= Max(|before|, c.maxNodes - 1)
      modifies this`nodes, this`edges, this`loops
      ensures Expanding(c, G(), dir, before, seen, dist)
      ensures forall a | a in dist0 :: a in dist && dist[a] == dist0[a]
      ensures exists n :: 0 <= n <= |rows| && edges == old(edges) + RowEdges(c, dir, addr, d, rows, n)
      ensures |nodes| <= Max(|before| + 1, c.maxNodes)
      ensures AllMayExpand(c, q)
      ensures capped ==> q == [] && |nodes| >= c.maxNodes
      ensures !capped ==> edges == old(edges) + RowEdges(c, dir, addr, d, rows, |rows|)
      ensures !capped ==> Walking(c, dist, q, seen, d) && |nodes| <= Max(|before|, c.maxNodes - 1)
    {
      hide Expanding, Walking, OnlyRows, NewNode, Grouped, RowEdges;
      NoRowEdges(c, dir, addr, d, rows);
      q, dist, capped := q0, dist0, false;
      for n := 0 to |rows|
        invariant Expanding(c, G(), dir, before, seen, dist) && OnlyRows(edges, dir, addr, rows, n)
        invariant forall a | a in dist0 :: a in dist && dist[a] == dist0[a]
        invariant edges == old(edges) + RowEdges(c, dir, addr, d, rows, n)
        invariant Walking(c, dist, q, seen, d) && AllMayExpand(c, q)
        invariant |nodes| <= Max(|before|, c.maxNodes - 1)
      {
        var r := rows[n];
        NextRowEdges(c, dir, addr, d, rows, n);
        if r.other.None? {
          SkippedRow(edges, dir, addr, rows, n);
          continue;
        }
        var other := r.other.value;
        RowKeepsExpanding(c, G(), dir, before, seen, dist, addr, d, rows, n, q);
        AddNode(other, d + 1, SideOf(dir));
        var e := EdgeFor(c, dir, addr, d, r);
        edges := edges + [e];
        if e.returnsToOwner {
          loops := loops + [e];
        }
        dist := Found(dist, other, d + 1);
        if |nodes| >= c.maxNodes {
          assert edges == old(edges) + RowEdges(c, dir, addr, d, rows, n + 1);
          q, capped := [], true;
          return;
        }
        if d + 1 < c.depth && other !in c.cluster {
          q := q + [(other, d + 1)];
        }
      }
    }

    /** One address: busy ones and timeouts are marked and left alone. */
    method ExpandOne(dir: Dir, addr: Address, d: nat, q0: Queue,
                     ghost before: map<Address, Node>, ghost seen: set<Address>, ghost dist0: Distances)
      returns (q: Queue, ghost dist: Distances, ghost capped: bool)
      requires ValidConfig(c) && Expanding(c, G(), dir, before, seen, dist0)
      requires addr !in seen && addr in dist0 && dist0[addr] == d
      requires Walking(c, dist0, q0, seen + {addr}, d) && AllMayExpand(c, q0)
      requires |nodes| <= Max(|before|, c.maxNodes - 1)
      modifies this`nodes, this`edges, this`loops
      ensures Expanding(c, G(), dir, before, seen + {addr}, dist)
      ensures forall a | a in dist0 :: a in dist && dist[a] == dist0[a]
      ensures old(edges) <= edges <= old(edges) + EdgesOf(c, dir, (addr, d))
      ensures |nodes| <= Max(|before| + 1, c.maxNodes)
      ensures AllMayExpand(c, q)
      ensures capped ==> q == [] && |nodes| >= c.maxNodes
      ensures !capped ==> edges == old(edges) + EdgesOf(c, dir, (addr, d))
      ensures !capped ==> Walking(c, dist, q, seen + {addr}, d) && |nodes| <= Max(|before|, c.maxNodes - 1)
    {
      hide Expanding, Walking, OnlyRows, Grouped, RowEdges;
      MarkKeepsExpanding(c, G(), dir, before, seen, dist0, addr);
      q, dist, capped := q0, dist0, false;
      var answers := c.ask(dir, addr);
      if answers.utxos.None? {
        nodes := nodes[addr := nodes[addr].(timedOut := true)];
        return;
      }
      if answers.utxos.value > HUB_UTXO_THRESHOLD && addr != c.origin {
        nodes := nodes[addr := nodes[addr].(isHub := true)];
        return;
      }
      if answers.rows.None? {
        nodes := nodes[addr := nodes[addr].(timedOut := true)];
        return;
      }
      var rows := answers.rows.value;
      if |rows| >= c.fanout {
        nodes := nodes[addr := nodes[addr].(truncated := true)];
      } else {
        assert nodes == nodes[addr := nodes[addr]];
      }
      q, dist, capped := Follow(dir, addr, d, rows, q, before, seen + {addr}, dist);
      ghost var n :| 0 <= n <= |rows| && edges == old(edges) + RowEdges(c, dir, addr, d, rows, n);
      RowEdgesPrefix(c, dir, addr, d, rows, n);
    }

    /** One whole direction. */
    method Expand(dir: Dir) returns (ghost expanded: seq<(Address, nat)>)
      requires ValidConfig(c) && ValidGraph(c, G()) && forall e | e in edges :: e.dir != dir
      modifies this`nodes, this`edges, this`loops
      ensures ValidGraph(c, G()) && NodesAre(c, dir, old(nodes), AddressesOf(expanded), nodes)
      ensures |nodes| <= Max(|old(nodes)| + 1, c.maxNodes)
      // the edges are those of the expanded addresses, cut short only by the cap
      ensures old(edges) <= edges <= old(edges) + AllEdges(c, dir, expanded)
      ensures |nodes| < c.maxNodes ==> edges == old(edges) + AllEdges(c, dir, expanded)
      // each address is expanded once, at its distance, and none is left out before the cap
      ensures DistinctAddresses(expanded)
      ensures forall x | x in expanded :: IsDistance(edges, dir, c.origin, x.0, x.1) && MayExpand(c, x.0, x.1)
      ensures |nodes| < c.maxNodes ==>
                forall a, n: nat | IsDistance(edges, dir, c.origin, a, n) && MayExpand(c, a, n) :: (a, n) in expanded
      // a new node's depth is its distance from the origin
      ensures forall a | a in nodes && a !in old(nodes) :: IsDistance(edges, dir, c.origin, a, nodes[a].depth)
    {
      hide Expanding, Walking, OnlyRows, NewNode, Judge, ValidGraph, ToExpand, NodesAre,
           Mark, IsDistance, Grouped, DepthsRecorded, Depths, AllEdges, EdgesOf, AddressesOf, DistinctAddresses;
      expanded := [];
      var q: Queue := [(c.origin, 0)];
      var seen: set<Address> := {};
      ghost var dist: Distances := map[c.origin := 0];
      ghost var level: nat, capped := 0, false;
      ghost var before := nodes;
      WalkStarts(c, G(), dir);
      NothingExpanded(c, dir);
      while q != []
        invariant Expanding(c, G(), dir, before, seen, dist) && seen == AddressesOf(expanded)
                  && DistinctAddresses(expanded)
        invariant forall x | x in expanded :: x.0 in dist && dist[x.0] == x.1 && MayExpand(c, x.0, x.1)
        invariant capped ==> q == [] && |nodes| >= c.maxNodes
        invariant !capped ==> Walking(c, dist, q, seen, level) && |nodes| <= Max(|before|, c.maxNodes - 1)
        invariant !capped ==> edges == old(edges) + AllEdges(c, dir, expanded)
        invariant old(edges) <= edges <= old(edges) + AllEdges(c, dir, expanded)
        invariant |nodes| <= Max(|before| + 1, c.maxNodes)
        invariant AllMayExpand(c, q) || (q == [(c.origin, 0)] && c.depth <= 0)
        decreases Max(|before| + 1, c.maxNodes) - |seen|, |q|
      {
        var (addr, d) := q[0];
        PopKeepsWalking(c, dist, q, seen, level);
        q := q[1..];
        level := d;
        if addr in seen || d >= c.depth {
          if addr !in seen {
            TooDeep(c, dist, q, seen, addr, d);
          } else {
            assert seen + {addr} == seen;
          }
          continue;
        }
        AllEdgesSnoc(c, dir, expanded, (addr, d));
        AddressesSnoc(expanded, (addr, d));
        ghost var e1 := edges;
        q, dist, capped := ExpandOne(dir, addr, d, q, before, seen, dist);
        EdgesGrow(old(edges), AllEdges(c, dir, expanded), e1, EdgesOf(c, dir, (addr, d)), edges);
        seen := seen + {addr};
        expanded := expanded + [(addr, d)];
        SeenAreNodes(c, G(), dir, before, seen, dist);
      }
      ExpandingEnds(c, G(), dir, before, seen, dist);
      if !capped {
        WalkEnds(c, dist, seen, level);
        forall a, n: nat | IsDistance(edges, dir, c.origin, a, n) && MayExpand(c, a, n)
          ensures (a, n) in expanded
        {
          ExpandedPair(expanded, dist, a);
        }
      }
    }
  }

  // ----- both directions -----

  datatype Direction = OutOnly | InOnly | Both

  function DirOf(s: Side): Dir {
    if s == OutSide then OutDir else InDir
  }

  lemma {:induction false} RowEdgesHaveDir(c: Config, dir: Dir, addr: Address, d: nat, rows: seq<Row>, n: nat)
    requires n <= |rows|
    ensures forall e | e in RowEdges(c, dir, addr, d, rows, n) :: e.dir == dir
  {
    if n > 0 {
      RowEdgesHaveDir(c, dir, addr, d, rows, n - 1);
    }
  }

  lemma {:induction false} EdgesHaveDir(c: Config, dir: Dir, xs: seq<(Address, nat)>)
    ensures forall e | e in AllEdges(c, dir, xs) :: e.dir == dir
  {
    if |xs| > 0 {
      EdgesHaveDir(c, dir, xs[..|xs| - 1]);
      var x := xs[|xs| - 1];
      var v := Judge(c, dir, x.0);
      if v.Flows? {
        RowEdgesHaveDir(c, dir, x.0, x.1, v.rows, |v.rows|);
      }
    }
  }

  ghost predicate SameIn(dir: Dir, edges: seq<Edge>, edges': seq<Edge>) {
    forall e: Edge | e.dir == dir :: e in edges <==> e in edges'
  }

  lemma {:induction false} PathStays(dir: Dir, edges: seq<Edge>, edges': seq<Edge>, a: Address, b: Address, n: nat)
    requires SameIn(dir, edges, edges')
    ensures Path(edges, dir, a, b, n) <==> Path(edges', dir, a, b, n)
    decreases n
  {
    if n > 0 {
      forall m
        ensures Path(edges, dir, a, m, n - 1) && Hop(edges, dir, m, b) <==>
                Path(edges', dir, a, m, n - 1) && Hop(edges', dir, m, b)
      {
        PathStays(dir, edges, edges', a, m, n - 1);
      }
    }
  }

  /** Edges of the other direction do not change distances. */
  lemma DistanceStays(dir: Dir, edges: seq<Edge>, edges': seq<Edge>, origin: Address, a: Address, n: nat)
    requires SameIn(dir, edges, edges') && IsDistance(edges, dir, origin, a, n)
    ensures IsDistance(edges', dir, origin, a, n)
  {
    forall m: nat
      ensures Path(edges, dir, origin, a, m) <==> Path(edges', dir, origin, a, m)
    {
      PathStays(dir, edges, edges', origin, a, m);
    }
  }

  /** Every node but the origin is as far away as its depth says, in the direction it was found. */
  ghost predicate DepthsAreDistances(c: Config, g: Graph) {
    && c.origin in g.nodes && g.nodes[c.origin].depth == 0
    && forall a | a in g.nodes && a != c.origin ::
         && g.nodes[a].side != OriginSide
         && IsDistance(g.edges, DirOf(g.nodes[a].side), c.origin, a, g.nodes[a].depth)
  }

  lemma SidesStay(c: Config, dir: Dir, before: map<Address, Node>, seen: set<Address>, after: map<Address, Node>)
    requires NodesAre(c, dir, before, seen, after)
    ensures forall a | a in before :: a in after && after[a].side == before[a].side && after[a].depth == before[a].depth
    ensures forall a | a in after && a !in before :: after[a].side == SideOf(dir)
  {
    hide Judge;
  }

  /** Expanding the other direction leaves the distances found so far. */
  lemma {:induction false} ExpandKeepsDistances(c: Config, g: Graph, g': Graph, dir: Dir, xs: seq<(Address, nat)>)
    requires DepthsAreDistances(c, g) && forall e | e in g.edges :: e.dir != dir
    requires forall a | a in g.nodes && a != c.origin :: DirOf(g.nodes[a].side) != dir
    requires NodesAre(c, dir, g.nodes, AddressesOf(xs), g'.nodes)
             && g.edges <= g'.edges <= g.edges + AllEdges(c, dir, xs)
    requires forall a | a in g'.nodes && a !in g.nodes :: IsDistance(g'.edges, dir, c.origin, a, g'.nodes[a].depth)
    ensures DepthsAreDistances(c, g') && forall e | e in g'.edges :: e in g.edges || e.dir == dir
    ensures forall a | a in g'.nodes && a !in g.nodes :: g'.nodes[a].side == SideOf(dir)
    ensures forall a | a in g.nodes :: a in g'.nodes && g'.nodes[a].side == g.nodes[a].side
  {
    hide IsDistance, Judge, AllEdges, AddressesOf, NodesAre;
    EdgesHaveDir(c, dir, xs);
    SidesStay(c, dir, g.nodes, AddressesOf(xs), g'.nodes);
    forall d: Dir | d != dir
      ensures SameIn(d, g.edges, g'.edges)
    {
    }
    forall a | a in g.nodes && a != c.origin
      ensures IsDistance(g'.edges, DirOf(g.nodes[a].side), c.origin, a, g.nodes[a].depth)
    {
      DistanceStays(DirOf(g.nodes[a].side), g.edges, g'.edges, c.origin, a, g.nodes[a].depth);
    }
  }

  /**
   The addresses expanded in one direction: each once, at its distance, and below the cap all that lie
   within the depth and are not of the cluster.
   */
  ghost predicate Walked(c: Config, g: Graph, dir: Dir, xs: seq<(Address, nat)>) {
    && DistinctAddresses(xs)
    && (forall x | x in xs ::
          && IsDistance(g.edges, dir, c.origin, x.0, x.1)
          && x.1 < c.depth && (x.0 == c.origin || x.0 !in c.cluster))
    && (|g.nodes| < c.maxNodes ==>
          forall a, n: nat | IsDistance(g.edges, dir, c.origin, a, n) && n < c.depth
                             && (a == c.origin || a !in c.cluster) :: (a, n) in xs)
  }

  /** A direction that was asked for is walked, any other has nothing expanded and no edge. */
  ghost predicate AsAsked(c: Config, g: Graph, dir: Dir, asked: bool, xs: seq<(Address, nat)>) {
    if asked then Walked(c, g, dir, xs) else xs == [] && forall e | e in g.edges :: e.dir != dir
  }

  /** A walk that expanded what may be expanded. */
  lemma WalkedIf(c: Config, g: Graph, dir: Dir, xs: seq<(Address, nat)>)
    requires DistinctAddresses(xs)
    requires forall x | x in xs :: IsDistance(g.edges, dir, c.origin, x.0, x.1) && MayExpand(c, x.0, x.1)
    requires |g.nodes| < c.maxNodes ==>
               forall a, n: nat | IsDistance(g.edges, dir, c.origin, a, n) && MayExpand(c, a, n) :: (a, n) in xs
    ensures Walked(c, g, dir, xs)
  {
    hide IsDistance, DistinctAddresses;
  }

  lemma WalkedStays(c: Config, g: Graph, g': Graph, dir: Dir, xs: seq<(Address, nat)>)
    requires Walked(c, g, dir, xs) && SameIn(dir, g.edges, g'.edges) && |g.nodes| <= |g'.nodes|
    ensures Walked(c, g', dir, xs)
  {
    hide IsDistance, DistinctAddresses;
    forall a, n: nat
      ensures IsDistance(g.edges, dir, c.origin, a, n) <==> IsDistance(g'.edges, dir, c.origin, a, n)
    {
      if IsDistance(g.edges, dir, c.origin, a, n) {
        DistanceStays(dir, g.edges, g'.edges, c.origin, a, n);
      }
      if IsDistance(g'.edges, dir, c.origin, a, n) {
        DistanceStays(dir, g'.edges, g.edges, c.origin, a, n);
      }
    }
  }

  /** The second direction adds its own edges behind those of the first. */
  lemma SecondDirection(c: Config, g: Graph, g': Graph, xs: seq<(Address, nat)>, ys: seq<(Address, nat)>)
    requires g.edges <= AllEdges(c, OutDir, xs) && (|g.nodes| < c.maxNodes ==> g.edges == AllEdges(c, OutDir, xs))
    requires g.edges <= g'.edges <= g.edges + AllEdges(c, InDir, ys) && |g.nodes| <= |g'.nodes|
    requires |g'.nodes| < c.maxNodes ==> g'.edges == g.edges + AllEdges(c, InDir, ys)
    ensures SameIn(OutDir, g.edges, g'.edges)
    ensures |g'.nodes| < c.maxNodes ==> g'.edges == AllEdges(c, OutDir, xs) + AllEdges(c, InDir, ys)
  {
    hide AllEdges;
    EdgesHaveDir(c, InDir, ys);
  }

  // ----- what the edges and nodes say -----

  /** The queries on `a` were answered in time and it is not busy. */
  predicate Answered(c: Config, dir: Dir, a: Address) {
    var r := c.ask(dir, a);
    r.utxos.Some? && (r.utxos.value <= 20_000 || a == c.origin) && r.rows.Some?
  }

  /** A row of `a`, expanded at distance d, as an edge from the payer to the paid. */
  predicate EdgeShows(c: Config, dir: Dir, a: Address, d: nat, r: Row, e: Edge) {
    && r.other.Some? && e.dir == dir && e.hops == d && e.txCount == r.txCount && e.certain == r.single
    && (dir == OutDir ==> e.from == a && e.to == r.other.value)
    && (dir == InDir ==> e.from == r.other.value && e.to == a)
    && e.value == (if r.estimate.Some? then r.estimate.value else 0)
    && (e.returnsToOwner <==> r.other.value in c.cluster)
  }

  ghost predicate EdgeOfRow(c: Config, dir: Dir, x: (Address, nat), e: Edge) {
    Answered(c, dir, x.0) && exists r :: r in c.ask(dir, x.0).rows.value && EdgeShows(c, dir, x.0, x.1, r, e)
  }

  lemma {:induction false} RowEdgesShow(c: Config, dir: Dir, a: Address, d: nat, rows: seq<Row>, n: nat, e: Edge)
    requires n <= |rows|
    ensures e in RowEdges(c, dir, a, d, rows, n) <==> exists r :: r in rows[..n] && EdgeShows(c, dir, a, d, r, e)
  {
    if n > 0 {
      RowEdgesShow(c, dir, a, d, rows, n - 1, e);
      assert rows[..n] == rows[..n - 1] + [rows[n - 1]];
      EdgeForShows(c, dir, a, d, rows[n - 1], e);
    }
  }

  lemma EdgeForShows(c: Config, dir: Dir, a: Address, d: nat, r: Row, e: Edge)
    ensures EdgeShows(c, dir, a, d, r, e) <==> r.other.Some? && e == EdgeFor(c, dir, a, d, r)
  {
  }

  lemma EdgesOfShow(c: Config, dir: Dir, x: (Address, nat), e: Edge)
    ensures e in EdgesOf(c, dir, x) <==> EdgeOfRow(c, dir, x, e)
  {
    hide RowEdges, EdgeShows;
    var v := Judge(c, dir, x.0);
    if v.Flows? {
      RowEdgesShow(c, dir, x.0, x.1, v.rows, |v.rows|, e);
      assert v.rows[..|v.rows|] == v.rows;
    }
  }

  /** The edges of a walk are the answered rows of its addresses, and say what the rows say. */
  lemma {:induction false} AllEdgesShow(c: Config, dir: Dir, xs: seq<(Address, nat)>, e: Edge)
    ensures e in AllEdges(c, dir, xs) <==> exists x :: x in xs && EdgeOfRow(c, dir, x, e)
  {
    hide EdgesOf, EdgeOfRow;
    if |xs| > 0 {
      var x, before := xs[|xs| - 1], xs[..|xs| - 1];
      AllEdgesShow(c, dir, before, e);
      assert xs == before + [x];
      EdgesOfShow(c, dir, x, e);
    }
  }

  /** Too many outputs to follow. */
  predicate Busy(c: Config, dir: Dir, a: Address) {
    var r := c.ask(dir, a);
    r.utxos.Some? && r.utxos.value > 20_000 && a != c.origin
  }

  /** A node's figures, and what the walks that expanded it found out. */
  predicate NodeShows(c: Config, a: Address, n: Node, outs: set<Address>, ins: set<Address>) {
    && (n.received, n.sent) == (if c.totals(a).Some? then c.totals(a).value else (0, 0))
    && (n.sameOwner <==> a in c.cluster && a != c.origin)
    && (n.isHub <==> (a in outs && Busy(c, OutDir, a)) || (a in ins && Busy(c, InDir, a)))
    && (n.timedOut <==>
        || (a in outs && !Busy(c, OutDir, a) && !Answered(c, OutDir, a))
        || (a in ins && !Busy(c, InDir, a) && !Answered(c, InDir, a)))
    && (n.truncated <==>
        || (a in outs && Answered(c, OutDir, a) && |c.ask(OutDir, a).rows.value| >= c.fanout)
        || (a in ins && Answered(c, InDir, a) && |c.ask(InDir, a).rows.value| >= c.fanout))
  }

  /** What one walk marks on a node. */
  lemma MarkShows(c: Config, dir: Dir, a: Address, n: Node)
    ensures var m := Mark(c, Judge(c, dir, a), n);
            && m.received == n.received && m.sent == n.sent && m.sameOwner == n.sameOwner
            && (m.isHub <==> n.isHub || Busy(c, dir, a))
            && (m.timedOut <==> n.timedOut || (!Busy(c, dir, a) && !Answered(c, dir, a)))
            && (m.truncated <==> n.truncated || (Answered(c, dir, a) && |c.ask(dir, a).rows.value| >= c.fanout))
  {
  }

  lemma NewNodeShows(c: Config, a: Address, depth: nat, side: Side)
    ensures NodeShows(c, a, NewNode(c, a, depth, side), {}, {})
  {
  }

  lemma NodesShow(c: Config, start: map<Address, Node>, outs: set<Address>, between: map<Address, Node>,
                  ins: set<Address>, after: map<Address, Node>)
    requires start == map[c.origin := NewNode(c, c.origin, 0, OriginSide)]
    requires NodesAre(c, OutDir, start, outs, between) && NodesAre(c, InDir, between, ins, after)
    ensures forall a | a in after :: NodeShows(c, a, after[a], outs, ins)
  {
    hide Mark, Judge, NewNode, Busy, Answered;
    forall a | a in after
      ensures NodeShows(c, a, after[a], outs, ins)
    {
      var first := if a in start then start[a] else
        NewNode(c, a, if a in between then between[a].depth else after[a].depth,
                SideOf(if a in between then OutDir else InDir));
      NewNodeShows(c, a, first.depth, first.side);
      NewNodeShows(c, a, 0, OriginSide);
      if a in between {
        NewNodeShows(c, a, between[a].depth, OutSide);
        MarkShows(c, OutDir, a, first);
        MarkShows(c, InDir, a, between[a]);
      } else {
        NewNodeShows(c, a, after[a].depth, InSide);
        MarkShows(c, InDir, a, first);
      }
    }
  }

  lemma NothingSeen(c: Config, dir: Dir, nodes: map<Address, Node>)
    ensures NodesAre(c, dir, nodes, AddressesOf([]), nodes)
  {
  }

  lemma NodesGrow(before: map<Address, Node>, after: map<Address, Node>)
    requires before.Keys <= after.Keys
    ensures |before| <= |after|
  {
    SubsetSize(before.Keys, after.Keys);
    assert |before| == |before.Keys| && |after| == |after.Keys|;
  }

  method BuildGraph(c: Config, direction: Direction)
    returns (t: Tracer, ghost outs: seq<(Address, nat)>, ghost ins: seq<(Address, nat)>)
    requires ValidConfig(c)
    ensures fresh(t) && ValidGraph(c, t.G()) && DepthsAreDistances(c, t.G())
    ensures direction != Both ==> |t.nodes| <= Max(2, c.maxNodes)
    ensures |t.nodes| <= Max(2, c.maxNodes) + 1
    // just the directions asked for are walked, the outgoing one first
    ensures AsAsked(c, t.G(), OutDir, direction in {OutOnly, Both}, outs)
    ensures AsAsked(c, t.G(), InDir, direction in {InOnly, Both}, ins)
    // the nodes have their figures and the marks of the walks that expanded them
    ensures forall a | a in t.nodes :: NodeShows(c, a, t.nodes[a], AddressesOf(outs), AddressesOf(ins))
    // every edge is one of an expanded address in its direction, and below the cap none is missing
    ensures forall e | e in t.edges :: e in AllEdges(c, OutDir, outs) || e in AllEdges(c, InDir, ins)
    ensures |t.nodes| < c.maxNodes ==> t.edges == AllEdges(c, OutDir, outs) + AllEdges(c, InDir, ins)
  {
    hide ValidConfig, ValidGraph, DepthsAreDistances, IsDistance, MayExpand, NodesAre, NodeShows, NewNode, AllEdges,
         AddressesOf, DistinctAddresses, Walked;
    t := new Tracer(c);
    assert DepthsAreDistances(c, t.G()) by { OriginAlone(c, t.G()); }
    assert |t.nodes| == |t.nodes.Keys|;
    outs, ins := [], [];
    NothingExpanded(c, OutDir);
    NothingExpanded(c, InDir);
    ghost var start := t.nodes;
    NothingSeen(c, OutDir, start);
    if direction != InOnly {
      ghost var before := t.G();
      outs := t.Expand(OutDir);
      ExpandKeepsDistances(c, before, t.G(), OutDir, outs);
      EdgesHaveDir(c, OutDir, outs);
      WalkedIf(c, t.G(), OutDir, outs);
    }
    ghost var between := t.nodes;
    NothingSeen(c, InDir, between);
    if direction != OutOnly {
      ghost var before := t.G();
      ins := t.Expand(InDir);
      ExpandKeepsDistances(c, before, t.G(), InDir, ins);
      EdgesHaveDir(c, InDir, ins);
      WalkedIf(c, t.G(), InDir, ins);
      NodesGrow(before.nodes, t.nodes);
      SecondDirection(c, before, t.G(), outs, ins);
      if direction == Both {
        WalkedStays(c, before, t.G(), OutDir, outs);
      }
    }
    NodesShow(c, start, AddressesOf(outs), between, AddressesOf(ins), t.nodes);
  }

  lemma OriginAlone(c: Config, g: Graph)
    requires g.nodes.Keys == {c.origin} && g.nodes[c.origin].depth == 0
    ensures DepthsAreDistances(c, g)
  {
  }
}
