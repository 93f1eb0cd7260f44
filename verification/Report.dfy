/**
 What the trace report shows: flows of one direction or both, addresses of one entity merged, and
 each node's risk from where its money came.
 */
module Report {
  import opened Common
  import opened Sums

  /** A node or edge of the report's data; amounts are in the smallest unit shown. */
  datatype Node = Node(id: string, side: string, origin: bool, entity: Option<string>, etype: Option<string>,
                       recv: int, sent: int, members: seq<string>)
  datatype Edge = Edge(s: string, t: string, dir: string, v: int, n: int)

  // ----- direction filter -----

  predicate Shown(dir: string, n: Node) {
    dir == "both" || n.side == "origin" || n.side == dir
  }

  function ShownNodes(dir: string, nodes: seq<Node>): (r: seq<Node>)
    ensures forall n :: n in r <==> n in nodes && Shown(dir, n)
  {
    if nodes == [] then []
    else (if Shown(dir, nodes[0]) then [nodes[0]] else []) + ShownNodes(dir, nodes[1..])
  }

  function Ids(nodes: seq<Node>): set<string> {
    set n | n in nodes :: n.id
  }

  function ShownEdges(dir: string, ids: set<string>, edges: seq<Edge>): (r: seq<Edge>)
    ensures forall e :: e in r <==> e in edges && (dir == "both" || e.dir == dir) && e.s in ids && e.t in ids
  {
    if edges == [] then []
    else
      var e := edges[0];
      (if (dir == "both" || e.dir == dir) && e.s in ids && e.t in ids then [e] else [])
      + ShownEdges(dir, ids, edges[1..])
  }

  /** The origin is shown always, any other node in its own direction and in both; nothing is lost or reordered. */
  lemma {:induction false} DirectionsCover(nodes: seq<Node>)
    requires forall n | n in nodes :: n.side in {"origin", "in", "out"}
    ensures ShownNodes("both", nodes) == nodes
    ensures forall n | n in nodes ::
              && (n in ShownNodes("out", nodes) <==> n.side != "in")
              && (n in ShownNodes("in", nodes) <==> n.side != "out")
    ensures |ShownNodes("in", nodes)| + |ShownNodes("out", nodes)| >= |nodes|
  {
    assert "both"[0] != "in"[0] && "both"[0] != "out"[0] && "in"[0] != "out"[0] && |"origin"| > |"both"| > |"in"|;
    if nodes != [] {
      DirectionsCover(nodes[1..]);
    }
  }

  lemma {:induction false} FlowsCover(ids: set<string>, edges: seq<Edge>)
    requires forall e | e in edges :: e.dir in {"in", "out"} && e.s in ids && e.t in ids
    ensures ShownEdges("both", ids, edges) == edges
    ensures forall e | e in edges ::
              (e in ShownEdges("out", ids, edges) <==> e.dir == "out")
              && (e in ShownEdges("in", ids, edges) <==> e.dir == "in")
    ensures |ShownEdges("in", ids, edges)| + |ShownEdges("out", ids, edges)| == |edges|
  {
    assert "both"[0] != "in"[0] && "both"[0] != "out"[0] && "in"[0] != "out"[0];
    if edges != [] {
      FlowsCover(ids, edges[1..]);
    }
  }

  // ----- sums by key; a row without key is dropped -----

  function AddTo(m: map<string, int>, k: string, x: int): map<string, int> {
    m[k := (if k in m then m[k] else 0) + x]
  }

  function Tally(keys: seq<Option<string>>, vals: seq<int>, n: nat): map<string, int>
    requires n <= |keys| == |vals|
  {
    if n == 0 then map[]
    else if keys[n - 1].None? then Tally(keys, vals, n - 1)
    else AddTo(Tally(keys, vals, n - 1), keys[n - 1].value, vals[n - 1])
  }

  /** The values of the first n rows whose key is `k`. */
  function SumWhere(keys: seq<Option<string>>, vals: seq<int>, k: Option<string>, n: nat): int
    requires n <= |keys| == |vals|
  {
    if n == 0 then 0
    else SumWhere(keys, vals, k, n - 1) + if keys[n - 1] == k then vals[n - 1] else 0
  }

  lemma {:induction false} TallyIs(keys: seq<Option<string>>, vals: seq<int>, n: nat)
    requires n <= |keys| == |vals|
    ensures forall k :: k in Tally(keys, vals, n) <==> Some(k) in keys[..n]
    ensures forall k :: Some(k) !in keys[..n] ==> SumWhere(keys, vals, Some(k), n) == 0
    ensures forall k | k in Tally(keys, vals, n) :: Tally(keys, vals, n)[k] == SumWhere(keys, vals, Some(k), n)
  {
    if n > 0 {
      TallyIs(keys, vals, n - 1);
      assert keys[..n] == keys[..n - 1] + [keys[n - 1]];
    }
  }

  lemma TotalAddTo(m: map<string, int>, k: string, x: int)
    ensures Total(AddTo(m, k, x)) == Total(m) + x
  {
    var m' := AddTo(m, k, x);
    TotalRemove(m', k);
    if k in m {
      TotalRemove(m, k);
    }
    assert m' - {k} == m - {k};
    assert k !in m ==> m - {k} == m;
  }

  /** Nothing is lost but the dropped rows. */
  lemma {:induction false} TallyTotal(keys: seq<Option<string>>, vals: seq<int>, n: nat)
    requires n <= |keys| == |vals|
    ensures Total(Tally(keys, vals, n)) + SumWhere(keys, vals, None, n) == SumSeq(vals[..n])
  {
    if n > 0 {
      TallyTotal(keys, vals, n - 1);
      assert vals[..n][..n - 1] == vals[..n - 1];
      if keys[n - 1].Some? {
        TotalAddTo(Tally(keys, vals, n - 1), keys[n - 1].value, vals[n - 1]);
      }
    }
  }

  // ----- entity collapse -----

  /** Addresses of a named entity share one id; an empty name counts as none. */
  function NameOf(n: Node): string {
    if n.entity.Some? && n.entity.value != "" then "ent:" + n.entity.value else n.id
  }

  predicate Named(names: map<string, string>, nodes: seq<Node>, edges: seq<Edge>) {
    && (forall n | n in nodes :: n.id in names)
    && (forall e | e in edges :: e.s in names && e.t in names)
  }

  function NodeKeys(names: map<string, string>, nodes: seq<Node>): (r: seq<Option<string>>)
    requires Named(names, nodes, [])
    ensures |r| == |nodes|
  {
    seq(|nodes|, i requires 0 <= i < |nodes| => assert nodes[i] in nodes; Some(names[nodes[i].id]))
  }

  function KeyOf(s: string, t: string): string {
    s + ">" + t
  }

  /** An edge inside one entity is dropped. */
  function EdgeKey(names: map<string, string>, e: Edge): Option<string>
    requires e.s in names && e.t in names
  {
    if names[e.s] == names[e.t] then None else Some(KeyOf(names[e.s], names[e.t]))
  }

  function EdgeKeys(names: map<string, string>, edges: seq<Edge>): (r: seq<Option<string>>)
    requires Named(names, [], edges)
    ensures |r| == |edges|
  {
    seq(|edges|, i requires 0 <= i < |edges| => assert edges[i] in edges; EdgeKey(names, edges[i]))
  }

  function Recvs(nodes: seq<Node>): (r: seq<int>)
    ensures |r| == |nodes|
  {
    seq(|nodes|, i requires 0 <= i < |nodes| => nodes[i].recv)
  }

  function Sents(nodes: seq<Node>): (r: seq<int>)
    ensures |r| == |nodes|
  {
    seq(|nodes|, i requires 0 <= i < |nodes| => nodes[i].sent)
  }

  function Values(edges: seq<Edge>): (r: seq<int>)
    ensures |r| == |edges|
  {
    seq(|edges|, i requires 0 <= i < |edges| => edges[i].v)
  }

  function Counts(edges: seq<Edge>): (r: seq<int>)
    ensures |r| == |edges|
  {
    seq(|edges|, i requires 0 <= i < |edges| => edges[i].n)
  }

  /** Every address of the first n nodes has a name: that of its last entry. */
  ghost predicate NamesOf(nodes: seq<Node>, n: nat, names: map<string, string>)
    requires n <= |nodes|
  {
    && (forall id :: id in names <==> exists i :: 0 <= i < n && nodes[i].id == id)
    && forall i | 0 <= i < n && (forall j | i < j < n :: nodes[j].id != nodes[i].id) ::
         names[nodes[i].id] == NameOf(nodes[i])
  }

  method Names(nodes: seq<Node>) returns (names: map<string, string>)
    ensures NamesOf(nodes, |nodes|, names)
  {
    hide NamesOf;
    names := map[];
    assert NamesOf(nodes, 0, names) by { NoNames(nodes); }
    for i := 0 to |nodes|
      invariant NamesOf(nodes, i, names)
    {
      NameStep(nodes, i, names);
      names := names[nodes[i].id := NameOf(nodes[i])];
    }
  }

  lemma NoNames(nodes: seq<Node>)
    ensures NamesOf(nodes, 0, map[])
  {
  }

  lemma NameStep(nodes: seq<Node>, n: nat, names: map<string, string>)
    requires n < |nodes| && NamesOf(nodes, n, names)
    ensures NamesOf(nodes, n + 1, names[nodes[n].id := NameOf(nodes[n])])
  {
    hide NameOf;
    var names' := names[nodes[n].id := NameOf(nodes[n])];
    forall id
      ensures id in names' <==> exists i :: 0 <= i < n + 1 && nodes[i].id == id
    {
      if id in names {
        var i :| 0 <= i < n && nodes[i].id == id;
      }
    }
    forall i | 0 <= i < n + 1 && (forall j | i < j < n + 1 :: nodes[j].id != nodes[i].id)
      ensures names'[nodes[i].id] == NameOf(nodes[i])
    {
      assert i < n ==> nodes[n].id != nodes[i].id;
    }
  }

  function MembersOf(names: map<string, string>, nodes: seq<Node>, id: string, n: nat): seq<string>
    requires Named(names, nodes, []) && n <= |nodes|
  {
    if n == 0 then []
    else
      assert nodes[n - 1] in nodes;
      MembersOf(names, nodes, id, n - 1) + if names[nodes[n - 1].id] == id then [nodes[n - 1].id] else []
  }

  /** Row f is the first with this key, and lies before n. */
  ghost predicate IsFirst(keys: seq<Option<string>>, k: string, f: int, n: nat) {
    0 <= f < n <= |keys| && keys[f] == Some(k) && forall i | 0 <= i < f :: keys[i] != Some(k)
  }

  ghost predicate SomeOrigin(keys: seq<Option<string>>, nodes: seq<Node>, id: string, n: nat)
    requires n <= |keys| == |nodes|
  {
    exists i :: 0 <= i < n && keys[i] == Some(id) && nodes[i].origin
  }

  ghost predicate LikeFirstNode(keys: seq<Option<string>>, nodes: seq<Node>, id: string, n: nat, m: Node)
    requires |keys| == |nodes|
  {
    exists f ::
      IsFirst(keys, id, f, n) && m.side == nodes[f].side && m.entity == nodes[f].entity && m.etype == nodes[f].etype
  }

  ghost predicate SumsMerged(keys: seq<Option<string>>, nodes: seq<Node>, n: nat, nn: map<string, Node>)
    requires n <= |nodes| == |keys|
  {
    && nn.Keys == Tally(keys, Recvs(nodes), n).Keys == Tally(keys, Sents(nodes), n).Keys
    && forall id | id in nn ::
         nn[id].id == id && nn[id].recv == Tally(keys, Recvs(nodes), n)[id]
         && nn[id].sent == Tally(keys, Sents(nodes), n)[id]
  }

  ghost predicate MembersMerged(names: map<string, string>, nodes: seq<Node>, n: nat, nn: map<string, Node>)
    requires Named(names, nodes, []) && n <= |nodes|
  {
    forall id :: MembersOf(names, nodes, id, n) == if id in nn then nn[id].members else []
  }

  ghost predicate OriginsMerged(keys: seq<Option<string>>, nodes: seq<Node>, n: nat, nn: map<string, Node>)
    requires n <= |nodes| == |keys|
  {
    forall id :: SomeOrigin(keys, nodes, id, n) == (id in nn && nn[id].origin)
  }

  ghost predicate RestFromFirst(keys: seq<Option<string>>, nodes: seq<Node>, n: nat, nn: map<string, Node>)
    requires n <= |nodes| == |keys|
  {
    forall id | id in nn :: LikeFirstNode(keys, nodes, id, n, nn[id])
  }

  /** The first n nodes merged: sums, members in order, and everything else from the first member. */
  ghost predicate MergedNodes(names: map<string, string>, nodes: seq<Node>, n: nat, nn: map<string, Node>)
    requires Named(names, nodes, []) && n <= |nodes|
  {
    var keys := NodeKeys(names, nodes);
    && SumsMerged(keys, nodes, n, nn) && MembersMerged(names, nodes, n, nn)
    && OriginsMerged(keys, nodes, n, nn) && RestFromFirst(keys, nodes, n, nn)
  }

  lemma FirstNodeStays(keys: seq<Option<string>>, nodes: seq<Node>, id: string, n: nat, m: Node)
    requires |keys| == |nodes| && n < |nodes| && LikeFirstNode(keys, nodes, id, n, m)
    ensures LikeFirstNode(keys, nodes, id, n + 1, m)
  {
    var f :| IsFirst(keys, id, f, n) && m.side == nodes[f].side && m.entity == nodes[f].entity
        && m.etype == nodes[f].etype;
    assert IsFirst(keys, id, f, n + 1);
  }

  lemma FirstNodeIs(keys: seq<Option<string>>, nodes: seq<Node>, vals: seq<int>, id: string, n: nat, m: Node)
    requires |keys| == |nodes| == |vals| && n < |nodes| && keys[n] == Some(id) && id !in Tally(keys, vals, n)
    requires m.side == nodes[n].side && m.entity == nodes[n].entity && m.etype == nodes[n].etype
    ensures LikeFirstNode(keys, nodes, id, n + 1, m)
  {
    TallyIs(keys, vals, n);
    assert forall i | 0 <= i < n :: keys[i] in keys[..n];
    assert IsFirst(keys, id, n, n + 1);
  }

  /** A step of the merge for a member of `id`, seen from any id. */
  lemma OriginStep(keys: seq<Option<string>>, nodes: seq<Node>, id: string, n: nat)
    requires |keys| == |nodes| && n < |nodes|
    ensures SomeOrigin(keys, nodes, id, n + 1)
            == (SomeOrigin(keys, nodes, id, n) || (keys[n] == Some(id) && nodes[n].origin))
  {
  }

  function Merge(nn: map<string, Node>, id: string, n: Node): map<string, Node> {
    var m := if id in nn then nn[id] else n.(id := id, origin := false, recv := 0, sent := 0, members := []);
    nn[id := m.(recv := m.recv + n.recv, sent := m.sent + n.sent,
                members := m.members + [n.id], origin := m.origin || n.origin)]
  }

  lemma MergeKeepsRest(keys: seq<Option<string>>, nodes: seq<Node>, n: nat, nn: map<string, Node>, id: string)
    requires n < |nodes| == |keys| && keys[n] == Some(id)
    requires SumsMerged(keys, nodes, n, nn) && RestFromFirst(keys, nodes, n, nn)
    ensures RestFromFirst(keys, nodes, n + 1, Merge(nn, id, nodes[n]))
  {
    hide LikeFirstNode, IsFirst;
    var nn' := Merge(nn, id, nodes[n]);
    forall x | x in nn'
      ensures LikeFirstNode(keys, nodes, x, n + 1, nn'[x])
    {
      if x in nn {
        FirstNodeStays(keys, nodes, x, n, nn[x]);
        LikeKept(keys, nodes, x, n + 1, nn[x], nn'[x]);
      } else {
        FirstNodeIs(keys, nodes, Recvs(nodes), id, n, nn'[x]);
      }
    }
  }

  lemma MergeKeepsOrigins(keys: seq<Option<string>>, nodes: seq<Node>, n: nat, nn: map<string, Node>, id: string)
    requires n < |nodes| == |keys| && keys[n] == Some(id) && OriginsMerged(keys, nodes, n, nn)
    ensures OriginsMerged(keys, nodes, n + 1, Merge(nn, id, nodes[n]))
  {
    hide SomeOrigin;
    forall x
      ensures SomeOrigin(keys, nodes, x, n + 1)
              == (SomeOrigin(keys, nodes, x, n) || (keys[n] == Some(x) && nodes[n].origin))
    {
      OriginStep(keys, nodes, x, n);
    }
  }

  lemma MergeKeepsSums(keys: seq<Option<string>>, nodes: seq<Node>, n: nat, nn: map<string, Node>, id: string)
    requires n < |nodes| == |keys| && keys[n] == Some(id) && SumsMerged(keys, nodes, n, nn)
    ensures SumsMerged(keys, nodes, n + 1, Merge(nn, id, nodes[n]))
  {
  }

  lemma MergeKeepsMembers(names: map<string, string>, nodes: seq<Node>, n: nat, nn: map<string, Node>, id: string)
    requires Named(names, nodes, []) && n < |nodes| && nodes[n] in nodes && names[nodes[n].id] == id
             && MembersMerged(names, nodes, n, nn)
    ensures MembersMerged(names, nodes, n + 1, Merge(nn, id, nodes[n]))
  {
  }

  method CollapseNodes(names: map<string, string>, nodes: seq<Node>) returns (nn: map<string, Node>)
    requires Named(names, nodes, [])
    ensures MergedNodes(names, nodes, |nodes|, nn)
  {
    hide SumsMerged, MembersMerged, OriginsMerged, RestFromFirst;
    nn := map[];
    ghost var keys := NodeKeys(names, nodes);
    NothingMerged(names, nodes);
    for i := 0 to |nodes|
      invariant MergedNodes(names, nodes, i, nn)
    {
      var n := nodes[i];
      var id := names[n.id];
      MergeKeepsSums(keys, nodes, i, nn, id);
      MergeKeepsMembers(names, nodes, i, nn, id);
      MergeKeepsOrigins(keys, nodes, i, nn, id);
      MergeKeepsRest(keys, nodes, i, nn, id);
      ghost var merged := Merge(nn, id, n);
      if id !in nn {
        nn := nn[id := n.(id := id, recv := 0, sent := 0, members := [])];
      }
      var m := nn[id];
      nn := nn[id := m.(recv := m.recv + n.recv, sent := m.sent + n.sent,
                        members := m.members + [n.id], origin := m.origin || n.origin)];
      assert nn == merged;
    }
  }

  lemma NothingMerged(names: map<string, string>, nodes: seq<Node>)
    requires Named(names, nodes, [])
    ensures MergedNodes(names, nodes, 0, map[])
  {
  }

  lemma LikeKept(keys: seq<Option<string>>, nodes: seq<Node>, id: string, n: nat, m: Node, m': Node)
    requires |keys| == |nodes| && m.side == m'.side && m.entity == m'.entity && m.etype == m'.etype
    ensures LikeFirstNode(keys, nodes, id, n, m) ==> LikeFirstNode(keys, nodes, id, n, m')
  {
  }

  ghost predicate LikeFirstEdge(keys: seq<Option<string>>, names: map<string, string>, edges: seq<Edge>, k: string,
                                n: nat, e: Edge)
    requires Named(names, [], edges) && |keys| == |edges|
  {
    exists f ::
      IsFirst(keys, k, f, n) && edges[f] in edges && e.s == names[edges[f].s] && e.t == names[edges[f].t]
      && e.dir == edges[f].dir
  }

  ghost predicate MergedEdges(names: map<string, string>, edges: seq<Edge>, n: nat, em: map<string, Edge>)
    requires Named(names, [], edges) && n <= |edges|
  {
    var keys := EdgeKeys(names, edges);
    && em.Keys == Tally(keys, Values(edges), n).Keys == Tally(keys, Counts(edges), n).Keys
    && forall k | k in em ::
         && LikeFirstEdge(keys, names, edges, k, n, em[k])
         && em[k].v == Tally(keys, Values(edges), n)[k] && em[k].n == Tally(keys, Counts(edges), n)[k]
  }

  lemma FirstEdgeStays(keys: seq<Option<string>>, names: map<string, string>, edges: seq<Edge>, k: string, n: nat,
                       e: Edge)
    requires Named(names, [], edges) && |keys| == |edges| && n < |edges| && LikeFirstEdge(keys, names, edges, k, n, e)
    ensures LikeFirstEdge(keys, names, edges, k, n + 1, e)
  {
    var f :| IsFirst(keys, k, f, n) && edges[f] in edges && e.s == names[edges[f].s] && e.t == names[edges[f].t]
        && e.dir == edges[f].dir;
    assert IsFirst(keys, k, f, n + 1);
  }

  lemma FirstEdgeIs(keys: seq<Option<string>>, names: map<string, string>, edges: seq<Edge>, vals: seq<int>, k: string,
                    n: nat, e: Edge)
    requires Named(names, [], edges) && |keys| == |edges| == |vals| && n < |edges| && keys[n] == Some(k)
             && k !in Tally(keys, vals, n)
    requires edges[n] in edges && e.s == names[edges[n].s] && e.t == names[edges[n].t] && e.dir == edges[n].dir
    ensures LikeFirstEdge(keys, names, edges, k, n + 1, e)
  {
    TallyIs(keys, vals, n);
    assert forall i | 0 <= i < n :: keys[i] in keys[..n];
    assert IsFirst(keys, k, n, n + 1);
  }

  lemma LikeEdgeKept(keys: seq<Option<string>>, names: map<string, string>, edges: seq<Edge>, k: string, n: nat,
                     e: Edge, e': Edge)
    requires Named(names, [], edges) && |keys| == |edges| && e.s == e'.s && e.t == e'.t && e.dir == e'.dir
    ensures LikeFirstEdge(keys, names, edges, k, n, e) ==> LikeFirstEdge(keys, names, edges, k, n, e')
  {
  }

  method CollapseEdges(names: map<string, string>, edges: seq<Edge>) returns (em: map<string, Edge>)
    requires Named(names, [], edges)
    ensures MergedEdges(names, edges, |edges|, em)
  {
    hide LikeFirstEdge, IsFirst;
    em := map[];
    ghost var keys := EdgeKeys(names, edges);
    for i := 0 to |edges|
      invariant MergedEdges(names, edges, i, em)
    {
      var e := edges[i];
      var s, t := names[e.s], names[e.t];
      ghost var before := em;
      forall k | k in before
        ensures LikeFirstEdge(keys, names, edges, k, i + 1, before[k])
      {
        FirstEdgeStays(keys, names, edges, k, i, before[k]);
      }
      if s == t {
        continue;
      }
      var k := KeyOf(s, t);
      if k !in em {
        em := em[k := e.(s := s, t := t, v := 0, n := 0)];
        FirstEdgeIs(keys, names, edges, Values(edges), k, i, em[k]);
      }
      ghost var first := em[k];
      em := em[k := em[k].(v := em[k].v + e.v, n := em[k].n + e.n)];
      LikeEdgeKept(keys, names, edges, k, i + 1, first, em[k]);
    }
  }

  /** Merging keeps everything received and sent. */
  lemma {:induction false} CollapseKeepsTotals(names: map<string, string>, nodes: seq<Node>, nn: map<string, Node>)
    requires Named(names, nodes, []) && MergedNodes(names, nodes, |nodes|, nn)
    ensures Total(map id | id in nn :: nn[id].recv) == SumSeq(Recvs(nodes))
    ensures Total(map id | id in nn :: nn[id].sent) == SumSeq(Sents(nodes))
  {
    hide MembersMerged, OriginsMerged, RestFromFirst, Tally, SumWhere, SumSeq, Total;
    var keys := NodeKeys(names, nodes);
    assert None !in keys;
    WholeTotal(keys, Recvs(nodes));
    WholeTotal(keys, Sents(nodes));
    NoneDropped(keys, Recvs(nodes), |nodes|);
    NoneDropped(keys, Sents(nodes), |nodes|);
    assert (map id | id in nn :: nn[id].recv) == Tally(keys, Recvs(nodes), |nodes|);
    assert (map id | id in nn :: nn[id].sent) == Tally(keys, Sents(nodes), |nodes|);
  }

  lemma WholeTotal(keys: seq<Option<string>>, vals: seq<int>)
    requires |keys| == |vals|
    ensures Total(Tally(keys, vals, |keys|)) + SumWhere(keys, vals, None, |keys|) == SumSeq(vals)
  {
    TallyTotal(keys, vals, |keys|);
    assert vals[..|keys|] == vals;
  }

  lemma {:induction false} NoneDropped(keys: seq<Option<string>>, vals: seq<int>, n: nat)
    requires n <= |keys| == |vals| && None !in keys
    ensures SumWhere(keys, vals, None, n) == 0
  {
    if n > 0 {
      assert keys[n - 1] in keys;
      NoneDropped(keys, vals, n - 1);
    }
  }

  /** Edge value is what the merged edges carry plus what stayed inside entities. */
  lemma {:induction false} CollapseKeepsValue(names: map<string, string>, edges: seq<Edge>, em: map<string, Edge>)
    requires Named(names, [], edges) && MergedEdges(names, edges, |edges|, em)
    ensures SumSeq(Values(edges))
            == Total(map k | k in em :: em[k].v) + SumWhere(EdgeKeys(names, edges), Values(edges), None, |edges|)
  {
    hide LikeFirstEdge, Tally, SumWhere, SumSeq, Total;
    WholeTotal(EdgeKeys(names, edges), Values(edges));
    assert (map k | k in em :: em[k].v) == Tally(EdgeKeys(names, edges), Values(edges), |edges|);
  }

  // ----- when a merged edge is one pair's -----

  /** Two pairs share a key exactly when the `>` between them can be read in two places. */
  lemma KeysClashIff(s: string, t: string, s': string, t': string)
    ensures KeyOf(s, t) == KeyOf(s', t') <==>
              || (s == s' && t == t')
              || (exists w :: s' == KeyOf(s, w) && t == KeyOf(w, t'))
              || (exists w :: s == KeyOf(s', w) && t' == KeyOf(w, t))
  {
    if KeyOf(s, t) == KeyOf(s', t') {
      if |s| < |s'| {
        SplitKey(s, t, s', t');
      } else if |s'| < |s| {
        SplitKey(s', t', s, t);
      } else {
        assert s == KeyOf(s, t)[..|s|] == s';
        assert t == KeyOf(s, t)[|s| + 1..] == t';
      }
    }
    forall w
      ensures KeyOf(s, KeyOf(w, t')) == KeyOf(KeyOf(s, w), t') && KeyOf(s', KeyOf(w, t)) == KeyOf(KeyOf(s', w), t)
    {
    }
  }

  lemma SplitKey(s: string, t: string, s': string, t': string)
    requires KeyOf(s, t) == KeyOf(s', t') && |s| < |s'|
    ensures exists w :: s' == KeyOf(s, w) && t == KeyOf(w, t')
  {
    var k, w := KeyOf(s, t), s'[|s| + 1..];
    assert s' == k[..|s'|] && s == k[..|s|] && k[|s|] == '>';
    assert s' == KeyOf(s, w);
    assert t == k[|s| + 1..];
    assert t == KeyOf(w, t');
  }

  /** Keys of different pairs of these names always differ exactly when no name splits into two others' parts. */
  lemma NamesNeverClashIff(ids: set<string>)
    ensures (forall s, t, s', t' | s in ids && t in ids && s' in ids && t' in ids && KeyOf(s, t) == KeyOf(s', t') ::
               s == s' && t == t')
            <==> !exists s, w, t' :: s in ids && t' in ids && KeyOf(s, w) in ids && KeyOf(w, t') in ids
  {
    if s, w, t' :| s in ids && t' in ids && KeyOf(s, w) in ids && KeyOf(w, t') in ids {
      KeysClashIff(s, KeyOf(w, t'), KeyOf(s, w), t');
      assert KeyOf(s, KeyOf(w, t')) == KeyOf(KeyOf(s, w), t');
      assert |KeyOf(s, w)| > |s|;
    } else {
      forall s, t, s', t' | s in ids && t in ids && s' in ids && t' in ids && KeyOf(s, t) == KeyOf(s', t')
        ensures s == s' && t == t'
      {
        KeysClashIff(s, t, s', t');
      }
    }
  }

  // ----- what a merged edge carries -----

  /** The value between two ends after merging. */
  function PairValue(names: map<string, string>, edges: seq<Edge>, s: string, t: string, n: nat): int
    requires Named(names, [], edges) && n <= |edges|
  {
    if n == 0 then 0
    else
      assert edges[n - 1] in edges;
      PairValue(names, edges, s, t, n - 1) +
      if names[edges[n - 1].s] == s && names[edges[n - 1].t] == t then edges[n - 1].v else 0
  }

  /** The edge runs between these ends after merging, or carries nothing. */
  predicate Between(names: map<string, string>, e: Edge, s: string, t: string)
    requires e.s in names && e.t in names
  {
    (names[e.s] == s && names[e.t] == t) || e.v == 0
  }

  /** A merged edge carries exactly the flows between its ends if and only if no other pair with its key has any. */
  lemma {:induction false} PairValueIff(names: map<string, string>, edges: seq<Edge>, em: map<string, Edge>, k: string)
    requires Named(names, [], edges) && MergedEdges(names, edges, |edges|, em) && k in em
    requires forall e | e in edges :: e.v >= 0
    ensures em[k].v >= PairValue(names, edges, em[k].s, em[k].t, |edges|)
    ensures em[k].v == PairValue(names, edges, em[k].s, em[k].t, |edges|) <==>
            forall e | e in edges && EdgeKey(names, e) == Some(k) :: Between(names, e, em[k].s, em[k].t)
  {
    hide MergedEdges, LikeFirstEdge, KeyOf, PairValue, SumWhere;
    MergedIs(names, edges, em, k);
    PairSums(names, edges, k, em[k].s, em[k].t, |edges|);
    forall e | e in edges
      ensures exists i :: 0 <= i < |edges| && edges[i] == e
    {
    }
  }

  lemma MergedIs(names: map<string, string>, edges: seq<Edge>, em: map<string, Edge>, k: string)
    requires Named(names, [], edges) && MergedEdges(names, edges, |edges|, em) && k in em
    ensures em[k].s != em[k].t && k == KeyOf(em[k].s, em[k].t)
    ensures em[k].v == SumWhere(EdgeKeys(names, edges), Values(edges), Some(k), |edges|)
  {
    var keys, s, t := EdgeKeys(names, edges), em[k].s, em[k].t;
    var f :| IsFirst(keys, k, f, |edges|) && edges[f] in edges && s == names[edges[f].s] && t == names[edges[f].t]
        && em[k].dir == edges[f].dir;
    TallyIs(keys, Values(edges), |edges|);
  }

  lemma {:induction false} PairSums(names: map<string, string>, edges: seq<Edge>, k: string, s: string, t: string,
                                    n: nat)
    requires Named(names, [], edges) && n <= |edges| && s != t && k == KeyOf(s, t)
    requires forall e | e in edges :: e.v >= 0
    ensures SumWhere(EdgeKeys(names, edges), Values(edges), Some(k), n) >= PairValue(names, edges, s, t, n)
    ensures SumWhere(EdgeKeys(names, edges), Values(edges), Some(k), n) == PairValue(names, edges, s, t, n) <==>
            forall i | 0 <= i < n && EdgeKeys(names, edges)[i] == Some(k) ::
              edges[i] in edges && Between(names, edges[i], s, t)
  {
    if n > 0 {
      assert edges[n - 1] in edges;
      PairSums(names, edges, k, s, t, n - 1);
    }
  }

  /** A check on the names: if none contains the separator, every merged edge is right. */
  lemma PlainNamesMergeRight(names: map<string, string>, edges: seq<Edge>, em: map<string, Edge>, k: string)
    requires Named(names, [], edges) && MergedEdges(names, edges, |edges|, em) && k in em
    requires forall e | e in edges :: e.v >= 0 && '>' !in names[e.s] && '>' !in names[e.t]
    ensures em[k].v == PairValue(names, edges, em[k].s, em[k].t, |edges|)
  {
    hide MergedEdges, KeyOf, PairValue;
    var s, t := em[k].s, em[k].t;
    MergedIs(names, edges, em, k);
    HasSeparator();
    forall e | e in edges && EdgeKey(names, e) == Some(k)
      ensures Between(names, e, s, t)
    {
      KeysClashIff(s, t, names[e.s], names[e.t]);
    }
    PairValueIff(names, edges, em, k);
  }

  lemma HasSeparator()
    ensures forall s, t :: '>' in KeyOf(s, t)
  {
    forall s, t
      ensures '>' in KeyOf(s, t)
    {
      assert KeyOf(s, t)[|s|] == '>';
    }
  }

  /** Four addresses of the entities A, `B>ent:C`, `A>ent:B` and C. */
  function ClashNames(): map<string, string> {
    map["1" := "ent:A", "2" := "ent:B>ent:C", "3" := "ent:A>ent:B", "4" := "ent:C"]
  }

  /** One flow of 1 and one of 2 between different entities end up in one edge of 3. */
  lemma ClashingEdges(em: map<string, Edge>)
    requires var edges := [Edge("1", "2", "out", 1, 1), Edge("3", "4", "out", 2, 1)];
             Named(ClashNames(), [], edges) && MergedEdges(ClashNames(), edges, 2, em)
    ensures var names, edges := ClashNames(), [Edge("1", "2", "out", 1, 1), Edge("3", "4", "out", 2, 1)];
            var k := KeyOf("ent:A", "ent:B>ent:C");
            && Named(names, [], edges) && em.Keys == {k} && em[k].s == "ent:A" && em[k].t == "ent:B>ent:C"
            && em[k].v == 3 && PairValue(names, edges, em[k].s, em[k].t, 2) == 1
  {
    var names, edges := ClashNames(), [Edge("1", "2", "out", 1, 1), Edge("3", "4", "out", 2, 1)];
    var keys, k := EdgeKeys(names, edges), KeyOf("ent:A", "ent:B>ent:C");
    assert KeyOf("ent:A>ent:B", "ent:C") == k;
    assert keys == [Some(k), Some(k)];
    assert Tally(keys, Values(edges), 1) == map[k := 1];
    assert Tally(keys, Values(edges), 2) == map[k := 3];
    assert LikeFirstEdge(keys, names, edges, k, 2, em[k]);
    assert PairValue(names, edges, "ent:A", "ent:B>ent:C", 1) == 1;
  }

  // ----- the values of the merged objects -----

  /** The values of an object, in some order. */
  ghost predicate Lists<T>(m: map<string, T>, r: seq<T>, keys: seq<string>) {
    && Distinct(keys) && Elems(keys) == m.Keys && |r| == |keys|
    && forall i | 0 <= i < |keys| :: keys[i] in m && r[i] == m[keys[i]]
  }

  method ValuesOf<T>(m: map<string, T>) returns (r: seq<T>, ghost keys: seq<string>)
    ensures Lists(m, r, keys)
  {
    r, keys := [], [];
    var todo := m.Keys;
    while todo != {}
      invariant todo <= m.Keys && Elems(keys) == m.Keys - todo && Distinct(keys) && |r| == |keys|
      invariant forall i | 0 <= i < |keys| :: keys[i] in m && r[i] == m[keys[i]]
      decreases |todo|
    {
      var k :| k in todo;
      assert k !in Elems(keys);
      assert Elems(keys + [k]) == Elems(keys) + {k};
      r, keys, todo := r + [m[k]], keys + [k], todo - {k};
    }
  }

  /** What merging leaves of the shown nodes and edges. */
  ghost predicate Merged(names: map<string, string>, shown: seq<Node>, flows: seq<Edge>, nodes: seq<Node>,
                         edges: seq<Edge>) {
    && Named(names, shown, []) && Named(names, [], flows)
    && exists nn, em, ids, pairs :: && MergedNodes(names, shown, |shown|, nn) && Lists(nn, nodes, ids)
                                    && MergedEdges(names, flows, |flows|, em) && Lists(em, edges, pairs)
  }
}
