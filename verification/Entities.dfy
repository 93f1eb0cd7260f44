/**
 What merging by entity means for the report: which addresses share a merged node, what it is
 called and adds up, and between whom merged edges run.
 */
module Entities {
  import opened Common
  import opened Report

  /** One node per address, and no address that looks like a merged name. */
  ghost predicate PlainIds(data: seq<Node>) {
    && (forall i, j | 0 <= i < j < |data| :: data[i].id != data[j].id)
    && forall n | n in data :: !("ent:" <= n.id)
  }

  predicate HasEntity(n: Node) {
    n.entity != None && n.entity != Some("")
  }

  /** The merged node `g` holds the address of `n`. */
  predicate Holds(g: Node, n: Node) {
    n.id in g.members
  }

  /** What the nodes with these addresses received together, and sent together. */
  function RecvOf(nodes: seq<Node>, ids: seq<string>, n: nat): int
    requires n <= |nodes|
  {
    if n == 0 then 0 else RecvOf(nodes, ids, n - 1) + if nodes[n - 1].id in ids then nodes[n - 1].recv else 0
  }

  function SentOf(nodes: seq<Node>, ids: seq<string>, n: nat): int
    requires n <= |nodes|
  {
    if n == 0 then 0 else SentOf(nodes, ids, n - 1) + if nodes[n - 1].id in ids then nodes[n - 1].sent else 0
  }

  /** Each shown address is in one merged node, and shares it with those of its entity alone. */
  ghost predicate GroupedByEntity(shown: seq<Node>, nodes: seq<Node>) {
    && (forall m, n | m in shown && n in shown ::
          (exists g :: g in nodes && Holds(g, m) && Holds(g, n)) <==> m == n || (HasEntity(m) && m.entity == n.entity))
    && forall i, j, n | 0 <= i < |nodes| && 0 <= j < |nodes| && n in shown && Holds(nodes[i], n)
    && Holds(nodes[j], n) ::
         i == j
  }

  /** A merged node is named after its entity; an address without one stays alone under its own id. */
  ghost predicate NamedByEntity(shown: seq<Node>, nodes: seq<Node>) {
    forall g, n | g in nodes && n in shown && Holds(g, n) ::
      if HasEntity(n) then g.id == "ent:" + n.entity.value else g.id == n.id && g.members == [n.id]
  }

  /** Its members are shown addresses, each once, and its figures are theirs added up. */
  ghost predicate SumsOfMembers(shown: seq<Node>, nodes: seq<Node>) {
    forall g | g in nodes ::
      && g.members != [] && Distinct(g.members)
      && (forall x | x in g.members :: exists n :: n in shown && n.id == x)
      && g.recv == RecvOf(shown, g.members, |shown|) && g.sent == SentOf(shown, g.members, |shown|)
      && (g.origin <==> exists n :: n in shown && Holds(g, n) && n.origin)
  }

  /** Every merged edge leads from the merged node of a flow's source to another one, that of its target. */
  ghost predicate EdgesBetweenGroups(flows: seq<Edge>, nodes: seq<Node>, edges: seq<Edge>) {
    forall e | e in edges :: e.s != e.t && exists f, g, g' ::
      IsFlowBetween(flows, nodes, f, g, g') && e.s == g.id && e.t == g'.id
  }

  ghost predicate IsFlowBetween(flows: seq<Edge>, nodes: seq<Node>, f: Edge, g: Node, g': Node) {
    f in flows && g in nodes && g' in nodes && f.s in g.members && f.t in g'.members
  }

  /** The edge leads from the merged node of `m` to that of `n`. */
  ghost predicate Joins(nodes: seq<Node>, e: Edge, m: Node, n: Node) {
    exists g, g' :: g in nodes && g' in nodes && g.id == e.s && g'.id == e.t && Holds(g, m) && Holds(g', n)
  }

  /** No merged edge has both its ends in one entity, or at one address. */
  ghost predicate NoEdgeInside(shown: seq<Node>, nodes: seq<Node>, edges: seq<Edge>) {
    forall e, m, n | e in edges && m in shown && n in shown && Joins(nodes, e, m, n) ::
      m != n && !(HasEntity(m) && m.entity == n.entity)
  }

  ghost predicate ByEntity(shown: seq<Node>, flows: seq<Edge>, nodes: seq<Node>, edges: seq<Edge>) {
    && GroupedByEntity(shown, nodes) && NamedByEntity(shown, nodes) && SumsOfMembers(shown, nodes)
    && EdgesBetweenGroups(flows, nodes, edges) && NoEdgeInside(shown, nodes, edges)
  }

  // ----- names -----

  /** Each shown node has a name, and two nodes the same one just within an entity. */
  ghost predicate NamesShow(names: map<string, string>, shown: seq<Node>) {
    && (forall n | n in shown ::
          n.id in names && names[n.id] == if HasEntity(n) then "ent:" + n.entity.value else n.id)
    && forall m, n | m in shown && n in shown ::
         m.id in names && n.id in names &&
         (names[m.id] == names[n.id] <==> m == n || (HasEntity(m) && m.entity == n.entity))
  }

  lemma {:induction false} NamesAreEntities(data: seq<Node>, names: map<string, string>, shown: seq<Node>)
    requires PlainIds(data) && NamesOf(data, |data|, names) && forall n | n in shown :: n in data
    ensures NamesShow(names, shown)
  {
    forall n | n in data
      ensures n.id in names && names[n.id] == NameOf(n)
    {
      var i :| 0 <= i < |data| && data[i] == n;
    }
    forall m, n | m in shown && n in shown
      ensures names[m.id] == names[n.id] <==> m == n || (HasEntity(m) && m.entity == n.entity)
    {
      NamesDiffer(data, m, n);
    }
  }

  lemma NamesDiffer(data: seq<Node>, m: Node, n: Node)
    requires PlainIds(data) && m in data && n in data
    ensures NameOf(m) == NameOf(n) <==> m == n || (HasEntity(m) && m.entity == n.entity)
  {
    var i :| 0 <= i < |data| && data[i] == m;
    var j :| 0 <= j < |data| && data[j] == n;
    if HasEntity(m) {
      assert "ent:" <= NameOf(m) && NameOf(m)[4..] == m.entity.value;
    }
    if HasEntity(n) {
      assert "ent:" <= NameOf(n) && NameOf(n)[4..] == n.entity.value;
    }
  }

  // ----- members -----

  /** The members of a name are the shown addresses that have it, each once. */
  lemma {:induction false} MembersAre(names: map<string, string>, shown: seq<Node>, id: string, n: nat)
    requires Named(names, shown, []) && n <= |shown|
    ensures forall x :: x in MembersOf(names, shown, id, n) <==>
                        exists i :: 0 <= i < n && shown[i].id == x && x in names && names[x] == id
  {
    if n > 0 {
      MembersAre(names, shown, id, n - 1);
      assert shown[n - 1] in shown;
    }
  }

  lemma {:induction false} MembersOnce(names: map<string, string>, shown: seq<Node>, id: string, n: nat)
    requires Named(names, shown, []) && n <= |shown|
    requires forall i, j | 0 <= i < j < |shown| :: shown[i].id != shown[j].id
    ensures Distinct(MembersOf(names, shown, id, n))
  {
    if n > 0 {
      MembersOnce(names, shown, id, n - 1);
      MembersAre(names, shown, id, n - 1);
      var before := MembersOf(names, shown, id, n - 1);
      assert forall i | 0 <= i < |before| :: before[i] in before;
    }
  }

  /** The sum over a name is the sum over its members. */
  lemma {:induction false} SumsAre(names: map<string, string>, shown: seq<Node>, id: string, ids: seq<string>, n: nat)
    requires Named(names, shown, []) && n <= |shown|
    requires forall m | m in shown :: m.id in ids <==> names[m.id] == id
    ensures SumWhere(NodeKeys(names, shown), Recvs(shown), Some(id), n) == RecvOf(shown, ids, n)
    ensures SumWhere(NodeKeys(names, shown), Sents(shown), Some(id), n) == SentOf(shown, ids, n)
  {
    if n > 0 {
      assert shown[n - 1] in shown;
      SumsAre(names, shown, id, ids, n - 1);
    }
  }

  // ----- groups -----

  /** What merging says of one merged node. */
  ghost predicate IsGroup(names: map<string, string>, shown: seq<Node>, g: Node)
    requires Named(names, shown, [])
  {
    && g.members == MembersOf(names, shown, g.id, |shown|) && g.members != []
    && g.recv == SumWhere(NodeKeys(names, shown), Recvs(shown), Some(g.id), |shown|)
    && g.sent == SumWhere(NodeKeys(names, shown), Sents(shown), Some(g.id), |shown|)
    && (g.origin <==> SomeOrigin(NodeKeys(names, shown), shown, g.id, |shown|))
  }

  /** One merged node for each name in use. */
  ghost predicate AreGroups(names: map<string, string>, shown: seq<Node>, nodes: seq<Node>)
    requires Named(names, shown, [])
  {
    && (forall g | g in nodes :: IsGroup(names, shown, g))
    && (forall i, j | 0 <= i < j < |nodes| :: nodes[i].id != nodes[j].id)
    && forall n | n in shown :: exists g :: g in nodes && g.id == names[n.id]
  }

  lemma KeyHasMember(names: map<string, string>, shown: seq<Node>, id: string)
    requires Named(names, shown, []) && Some(id) in NodeKeys(names, shown)
    ensures MembersOf(names, shown, id, |shown|) != []
  {
    MembersAre(names, shown, id, |shown|);
    var i :| 0 <= i < |shown| && NodeKeys(names, shown)[i] == Some(id);
    assert shown[i] in shown && shown[i].id in MembersOf(names, shown, id, |shown|);
  }

  lemma MergedIsGroup(names: map<string, string>, shown: seq<Node>, nn: map<string, Node>, id: string)
    requires Named(names, shown, []) && MergedNodes(names, shown, |shown|, nn) && id in nn
    ensures nn[id].id == id && IsGroup(names, shown, nn[id])
  {
    hide RestFromFirst, Tally, SumWhere, SomeOrigin, MembersOf, NodeKeys;
    var keys := NodeKeys(names, shown);
    TallyIs(keys, Recvs(shown), |shown|);
    TallyIs(keys, Sents(shown), |shown|);
    assert keys[..|shown|] == keys;
    KeyHasMember(names, shown, id);
  }

  lemma MergedHasName(names: map<string, string>, shown: seq<Node>, nn: map<string, Node>, n: Node)
    requires Named(names, shown, []) && MergedNodes(names, shown, |shown|, nn) && n in shown
    ensures names[n.id] in nn
  {
    hide RestFromFirst, MembersMerged, OriginsMerged, Tally;
    var keys := NodeKeys(names, shown);
    TallyIs(keys, Recvs(shown), |shown|);
    var i :| 0 <= i < |shown| && shown[i] == n;
    assert keys[..|shown|][i] == Some(names[n.id]);
  }

  lemma {:induction false} MergedAreGroups(names: map<string, string>, shown: seq<Node>, nn: map<string, Node>,
                                           nodes: seq<Node>, ids: seq<string>)
    requires Named(names, shown, []) && MergedNodes(names, shown, |shown|, nn) && Lists(nn, nodes, ids)
    ensures AreGroups(names, shown, nodes)
  {
    hide MergedNodes, IsGroup;
    forall k | 0 <= k < |ids|
      ensures nodes[k].id == ids[k] && IsGroup(names, shown, nodes[k])
    {
      MergedIsGroup(names, shown, nn, ids[k]);
    }
    forall n | n in shown
      ensures exists g :: g in nodes && g.id == names[n.id]
    {
      MergedHasName(names, shown, nn, n);
      assert names[n.id] in Elems(ids);
      var k :| 0 <= k < |ids| && ids[k] == names[n.id];
      assert nodes[k] in nodes;
    }
  }

  /** An address is in a merged node just when it has that node's name. */
  lemma GroupHolds(names: map<string, string>, shown: seq<Node>, g: Node, n: Node)
    requires Named(names, shown, []) && IsGroup(names, shown, g) && n in shown
    ensures Holds(g, n) <==> names[n.id] == g.id
  {
    hide SumWhere, SomeOrigin;
    MembersAre(names, shown, g.id, |shown|);
    var i :| 0 <= i < |shown| && shown[i] == n;
  }

  lemma {:induction false} GroupsAreEntities(names: map<string, string>, shown: seq<Node>, nodes: seq<Node>)
    requires Named(names, shown, []) && NamesShow(names, shown) && AreGroups(names, shown, nodes)
    ensures GroupedByEntity(shown, nodes)
  {
    hide IsGroup, Holds;
    forall g, n | g in nodes && n in shown
      ensures Holds(g, n) <==> names[n.id] == g.id
    {
      GroupHolds(names, shown, g, n);
    }
    forall m, n | m in shown && n in shown
      ensures (exists g :: g in nodes && Holds(g, m) && Holds(g, n)) <==> names[m.id] == names[n.id]
    {
    }
  }

  lemma {:induction false} GroupsAreNamed(names: map<string, string>, shown: seq<Node>, nodes: seq<Node>)
    requires Named(names, shown, []) && NamesShow(names, shown) && AreGroups(names, shown, nodes)
    requires forall i, j | 0 <= i < j < |shown| :: shown[i].id != shown[j].id
    ensures NamedByEntity(shown, nodes)
  {
    forall g, n | g in nodes && n in shown && Holds(g, n) && !HasEntity(n)
      ensures g.members == [n.id]
    {
      GroupHolds(names, shown, g, n);
      MembersOnce(names, shown, g.id, |shown|);
      MembersAre(names, shown, g.id, |shown|);
      AloneIs(g.members, n.id);
    }
    forall g, n | g in nodes && n in shown && Holds(g, n)
      ensures g.id == names[n.id]
    {
      GroupHolds(names, shown, g, n);
    }
  }

  lemma AloneIs(s: seq<string>, x: string)
    requires Distinct(s) && x in s && forall y | y in s :: y == x
    ensures s == [x]
  {
    if |s| > 1 {
      TwoDiffer(s);
      assert false;
    }
  }

  lemma TwoDiffer(s: seq<string>)
    requires Distinct(s) && |s| > 1
    ensures exists y, z :: y in s && z in s && y != z
  {
    assert s[0] in s && s[1] in s && s[0] != s[1];
  }

  lemma {:induction false} GroupsAddUp(names: map<string, string>, shown: seq<Node>, nodes: seq<Node>)
    requires Named(names, shown, []) && NamesShow(names, shown) && AreGroups(names, shown, nodes)
    requires forall i, j | 0 <= i < j < |shown| :: shown[i].id != shown[j].id
    ensures SumsOfMembers(shown, nodes)
  {
    forall g | g in nodes
      ensures Distinct(g.members) && forall x | x in g.members :: exists n :: n in shown && n.id == x
      ensures g.recv == RecvOf(shown, g.members, |shown|) && g.sent == SentOf(shown, g.members, |shown|)
      ensures g.origin <==> exists n :: n in shown && Holds(g, n) && n.origin
    {
      MembersOnce(names, shown, g.id, |shown|);
      GroupSums(names, shown, g);
    }
  }

  lemma GroupSums(names: map<string, string>, shown: seq<Node>, g: Node)
    requires Named(names, shown, []) && IsGroup(names, shown, g)
    ensures forall x | x in g.members :: exists n :: n in shown && n.id == x
    ensures g.recv == RecvOf(shown, g.members, |shown|) && g.sent == SentOf(shown, g.members, |shown|)
    ensures g.origin <==> exists n :: n in shown && Holds(g, n) && n.origin
  {
    hide SumWhere, RecvOf, SentOf, Holds;
    forall n | n in shown
      ensures Holds(g, n) <==> names[n.id] == g.id
    {
      GroupHolds(names, shown, g, n);
    }
    assert forall n | n in shown :: n.id in g.members <==> Holds(g, n) by { HoldsIs(g, shown); }
    SumsAre(names, shown, g.id, g.members, |shown|);
    MembersAre(names, shown, g.id, |shown|);
    forall x | x in g.members
      ensures exists n :: n in shown && n.id == x
    {
      var i :| 0 <= i < |shown| && shown[i].id == x;
      assert shown[i] in shown;
    }
    if n :| n in shown && Holds(g, n) && n.origin {
      var i :| 0 <= i < |shown| && shown[i] == n;
      assert NodeKeys(names, shown)[i] == Some(g.id);
    }
  }

  lemma HoldsIs(g: Node, shown: seq<Node>)
    ensures forall n | n in shown :: n.id in g.members <==> Holds(g, n)
  {
  }

  // ----- edges -----

  lemma {:induction false} MergedEdgeRuns(names: map<string, string>, flows: seq<Edge>, em: map<string, Edge>,
                                          k: string)
    requires Named(names, [], flows) && MergedEdges(names, flows, |flows|, em) && k in em
    ensures em[k].s != em[k].t
    ensures exists f :: f in flows && names[f.s] == em[k].s && names[f.t] == em[k].t
  {
    MergedIs(names, flows, em, k);
    var keys, s, t := EdgeKeys(names, flows), em[k].s, em[k].t;
    var f :| IsFirst(keys, k, f, |flows|) && flows[f] in flows && s == names[flows[f].s] && t == names[flows[f].t]
        && em[k].dir == flows[f].dir;
  }

  lemma {:induction false} EdgesRunBetween(names: map<string, string>, shown: seq<Node>, flows: seq<Edge>,
                                           nodes: seq<Node>, edges: seq<Edge>, em: map<string, Edge>,
                                           pairs: seq<string>)
    requires Named(names, shown, []) && Named(names, [], flows) && AreGroups(names, shown, nodes)
    requires forall e | e in flows :: e.s in Ids(shown) && e.t in Ids(shown)
    requires MergedEdges(names, flows, |flows|, em) && Lists(em, edges, pairs)
    ensures EdgesBetweenGroups(flows, nodes, edges)
  {
    hide MergedEdges, IsGroup, IsFlowBetween;
    forall e | e in edges
      ensures e.s != e.t && exists f, g, g' :: IsFlowBetween(flows, nodes, f, g, g') && e.s == g.id && e.t == g'.id
    {
      var k :| 0 <= k < |edges| && edges[k] == e;
      MergedEdgeRuns(names, flows, em, pairs[k]);
      var f :| f in flows && names[f.s] == e.s && names[f.t] == e.t;
      var g := GroupOf(names, shown, nodes, f.s);
      var g' := GroupOf(names, shown, nodes, f.t);
      assert IsFlowBetween(flows, nodes, f, g, g') by { FlowIs(flows, nodes, f, g, g'); }
    }
  }

  lemma FlowIs(flows: seq<Edge>, nodes: seq<Node>, f: Edge, g: Node, g': Node)
    requires f in flows && g in nodes && g' in nodes && f.s in g.members && f.t in g'.members
    ensures IsFlowBetween(flows, nodes, f, g, g')
  {
  }

  lemma GroupOf(names: map<string, string>, shown: seq<Node>, nodes: seq<Node>, x: string) returns (g: Node)
    requires Named(names, shown, []) && AreGroups(names, shown, nodes) && x in Ids(shown)
    ensures g in nodes && x in names && g.id == names[x] && x in g.members
  {
    hide IsGroup;
    var n :| n in shown && n.id == x;
    g :| g in nodes && g.id == names[n.id];
    GroupHolds(names, shown, g, n);
  }

  lemma {:induction false} NoEdgeStays(names: map<string, string>, shown: seq<Node>, nodes: seq<Node>,
                                       edges: seq<Edge>)
    requires Named(names, shown, []) && NamesShow(names, shown) && AreGroups(names, shown, nodes)
    requires forall e | e in edges :: e.s != e.t
    ensures NoEdgeInside(shown, nodes, edges)
  {
    hide AreGroups, Joins, HasEntity;
    forall e, m, n | e in edges && m in shown && n in shown && Joins(nodes, e, m, n)
      ensures m != n && !(HasEntity(m) && m.entity == n.entity)
    {
      JoinedDiffer(names, shown, nodes, e, m, n);
    }
  }

  lemma JoinedDiffer(names: map<string, string>, shown: seq<Node>, nodes: seq<Node>, e: Edge, m: Node, n: Node)
    requires Named(names, shown, []) && AreGroups(names, shown, nodes) && e.s != e.t
    requires m in shown && n in shown && Joins(nodes, e, m, n)
    ensures names[m.id] != names[n.id]
  {
    hide IsGroup, Holds;
    var g, g' :| g in nodes && g' in nodes && g.id == e.s && g'.id == e.t && Holds(g, m) && Holds(g', n);
    GroupHolds(names, shown, g, m);
    GroupHolds(names, shown, g', n);
  }

  // ----- the shown nodes -----

  lemma ShownOnce(dir: string, data: seq<Node>)
    requires forall i, j | 0 <= i < j < |data| :: data[i].id != data[j].id
    ensures forall i, j | 0 <= i < j < |ShownNodes(dir, data)| ::
              ShownNodes(dir, data)[i].id != ShownNodes(dir, data)[j].id
  {
    if data != [] {
      ShownOnce(dir, data[1..]);
      var rest := ShownNodes(dir, data[1..]);
      forall i | 0 <= i < |rest|
        ensures rest[i].id != data[0].id
      {
        assert rest[i] in data[1..];
        var j :| 0 <= j < |data[1..]| && data[1..][j] == rest[i];
        assert data[j + 1] == rest[i];
      }
    }
  }

  /** Merging a report whose addresses are plain merges by entity. */
  lemma {:induction false} MergesByEntity(data: seq<Node>, dir: string, names: map<string, string>, flows: seq<Edge>,
                                          nodes: seq<Node>, edges: seq<Edge>)
    requires PlainIds(data) && NamesOf(data, |data|, names)
    requires forall e | e in flows :: e.s in Ids(ShownNodes(dir, data)) && e.t in Ids(ShownNodes(dir, data))
    requires Merged(names, ShownNodes(dir, data), flows, nodes, edges)
    ensures ByEntity(ShownNodes(dir, data), flows, nodes, edges)
  {
    hide NamesOf, MergedNodes, MergedEdges, AreGroups, NamesShow, IsFlowBetween;
    hide GroupedByEntity, NamedByEntity, SumsOfMembers, NoEdgeInside;
    var shown := ShownNodes(dir, data);
    ShownOnce(dir, data);
    NamesAreEntities(data, names, shown);
    var nn, em, ids, pairs :| MergedNodes(names, shown, |shown|, nn) && Lists(nn, nodes, ids)
                              && MergedEdges(names, flows, |flows|, em) && Lists(em, edges, pairs);
    MergedAreGroups(names, shown, nn, nodes, ids);
    GroupsAreEntities(names, shown, nodes);
    GroupsAreNamed(names, shown, nodes);
    GroupsAddUp(names, shown, nodes);
    EdgesRunBetween(names, shown, flows, nodes, edges, em, pairs);
    NoEdgeStays(names, shown, nodes, edges);
  }

  // ----- what merged edges carry -----

  /** No id and no entity contains the separator of the edge keys. */
  ghost predicate NoSeparator(data: seq<Node>) {
    forall n | n in data :: '>' !in n.id && (n.entity.Some? ==> '>' !in n.entity.value)
  }

  /** The first n flows that lead from one of `from` to one of `to`, added up. */
  function FlowSum(flows: seq<Edge>, vals: seq<int>, from: seq<string>, to: seq<string>, n: nat): int
    requires n <= |flows| == |vals|
  {
    if n == 0 then 0
    else
      FlowSum(flows, vals, from, to, n - 1) +
      if flows[n - 1].s in from && flows[n - 1].t in to then vals[n - 1] else 0
  }

  /** The edge carries exactly the flows from the members of one merged node to those of another. */
  ghost predicate CarriesFlows(flows: seq<Edge>, e: Edge, g: Node, g': Node) {
    && e.v == FlowSum(flows, Values(flows), g.members, g'.members, |flows|)
    && e.n == FlowSum(flows, Counts(flows), g.members, g'.members, |flows|)
  }

  /** Two merged nodes with a flow from one to the other have one edge, and it carries all of these flows. */
  ghost predicate EdgesSumFlows(flows: seq<Edge>, nodes: seq<Node>, edges: seq<Edge>) {
    && (forall i, j | 0 <= i < j < |edges| :: edges[i].s != edges[j].s || edges[i].t != edges[j].t)
    && (forall e, g, g' | e in edges && g in nodes && g' in nodes && e.s == g.id && e.t == g'.id ::
          CarriesFlows(flows, e, g, g'))
    && forall f, g, g' | IsFlowBetween(flows, nodes, f, g, g') && g != g' ::
         exists e :: e in edges && e.s == g.id && e.t == g'.id
  }

  ghost predicate PlainNames(names: map<string, string>, flows: seq<Edge>)
    requires Named(names, [], flows)
  {
    forall f | f in flows :: '>' !in names[f.s] && '>' !in names[f.t]
  }

  /** Under plain names, a flow has an edge's key just when it has its ends. */
  lemma PlainKeyIff(s: string, t: string, s': string, t': string)
    requires '>' !in s && '>' !in t && '>' !in s' && '>' !in t'
    ensures KeyOf(s, t) == KeyOf(s', t') <==> s == s' && t == t'
  {
    hide KeyOf;
    KeysClashIff(s, t, s', t');
    HasSeparator();
  }

  lemma {:induction false} KeySums(names: map<string, string>, flows: seq<Edge>, vals: seq<int>, s: string, t: string,
                                   from: seq<string>, to: seq<string>, n: nat)
    requires Named(names, [], flows) && n <= |flows| == |vals|
    requires PlainNames(names, flows) && '>' !in s && '>' !in t && s != t
    requires forall f | f in flows :: (f.s in from <==> names[f.s] == s) && (f.t in to <==> names[f.t] == t)
    ensures SumWhere(EdgeKeys(names, flows), vals, Some(KeyOf(s, t)), n) == FlowSum(flows, vals, from, to, n)
  {
    hide KeyOf;
    if n > 0 {
      KeySums(names, flows, vals, s, t, from, to, n - 1);
      var f := flows[n - 1];
      assert f in flows;
      PlainKeyIff(names[f.s], names[f.t], s, t);
    }
  }

  /** A merged edge and its two sums. */
  lemma {:induction false} EdgeCarries(names: map<string, string>, shown: seq<Node>, flows: seq<Edge>,
                                       em: map<string, Edge>, k: string, g: Node, g': Node)
    requires Named(names, shown, []) && Named(names, [], flows) && PlainNames(names, flows)
    requires forall f | f in flows :: f.s in Ids(shown) && f.t in Ids(shown)
    requires MergedEdges(names, flows, |flows|, em) && k in em
    requires IsGroup(names, shown, g) && IsGroup(names, shown, g') && em[k].s == g.id && em[k].t == g'.id
    ensures CarriesFlows(flows, em[k], g, g')
  {
    hide KeyOf, IsGroup, LikeFirstEdge, Tally, SumWhere, FlowSum;
    MergedIs(names, flows, em, k);
    MergedEdgeRuns(names, flows, em, k);
    TallyIs(EdgeKeys(names, flows), Counts(flows), |flows|);
    forall f | f in flows
      ensures (f.s in g.members <==> names[f.s] == g.id) && (f.t in g'.members <==> names[f.t] == g'.id)
    {
      MemberIff(names, shown, g, f.s);
      MemberIff(names, shown, g', f.t);
    }
    KeySums(names, flows, Values(flows), g.id, g'.id, g.members, g'.members, |flows|);
    KeySums(names, flows, Counts(flows), g.id, g'.id, g.members, g'.members, |flows|);
  }

  lemma MemberIff(names: map<string, string>, shown: seq<Node>, g: Node, x: string)
    requires Named(names, shown, []) && IsGroup(names, shown, g) && x in Ids(shown)
    ensures x in names && (x in g.members <==> names[x] == g.id)
  {
    hide IsGroup;
    var n :| n in shown && n.id == x;
    GroupHolds(names, shown, g, n);
  }

  /** A flow between differently named ends leaves an edge between these names. */
  lemma {:induction false} FlowHasEdge(names: map<string, string>, flows: seq<Edge>, em: map<string, Edge>, f: Edge)
    requires Named(names, [], flows) && PlainNames(names, flows) && MergedEdges(names, flows, |flows|, em)
    requires f in flows && names[f.s] != names[f.t]
    ensures var k := KeyOf(names[f.s], names[f.t]); k in em && em[k].s == names[f.s] && em[k].t == names[f.t]
  {
    hide KeyOf, LikeFirstEdge, Tally;
    var keys, k := EdgeKeys(names, flows), KeyOf(names[f.s], names[f.t]);
    var i :| 0 <= i < |flows| && flows[i] == f;
    TallyIs(keys, Values(flows), |flows|);
    assert keys[..|flows|][i] == Some(k);
    MergedIs(names, flows, em, k);
    MergedEdgeRuns(names, flows, em, k);
    PlainKeyIff(names[f.s], names[f.t], em[k].s, em[k].t);
  }

  lemma {:induction false} MergedEdgesSum(names: map<string, string>, shown: seq<Node>, flows: seq<Edge>,
                                          nodes: seq<Node>, edges: seq<Edge>, em: map<string, Edge>,
                                          pairs: seq<string>)
    requires Named(names, shown, []) && Named(names, [], flows) && PlainNames(names, flows)
    requires forall f | f in flows :: f.s in Ids(shown) && f.t in Ids(shown)
    requires AreGroups(names, shown, nodes)
    requires MergedEdges(names, flows, |flows|, em) && Lists(em, edges, pairs)
    ensures EdgesSumFlows(flows, nodes, edges)
  {
    hide MergedEdges, IsGroup, CarriesFlows, IsFlowBetween, KeyOf, PlainNames;
    forall i | 0 <= i < |edges|
      ensures pairs[i] == KeyOf(edges[i].s, edges[i].t)
    {
      MergedIs(names, flows, em, pairs[i]);
    }
    forall e, g, g' | e in edges && g in nodes && g' in nodes && e.s == g.id && e.t == g'.id
      ensures CarriesFlows(flows, e, g, g')
    {
      var i :| 0 <= i < |edges| && edges[i] == e;
      EdgeCarries(names, shown, flows, em, pairs[i], g, g');
    }
    forall f, g, g' | IsFlowBetween(flows, nodes, f, g, g') && g != g'
      ensures exists e :: e in edges && e.s == g.id && e.t == g'.id
    {
      assert f in flows && g in nodes && g' in nodes && f.s in g.members && f.t in g'.members by {
        FlowHas(flows, nodes, f, g, g');
      }
      MemberIff(names, shown, g, f.s);
      MemberIff(names, shown, g', f.t);
      var i :| 0 <= i < |nodes| && nodes[i] == g;
      var j :| 0 <= j < |nodes| && nodes[j] == g';
      FlowHasEdge(names, flows, em, f);
      assert KeyOf(g.id, g'.id) in Elems(pairs);
      var k :| 0 <= k < |pairs| && pairs[k] == KeyOf(g.id, g'.id);
      assert edges[k] in edges;
    }
  }

  lemma FlowHas(flows: seq<Edge>, nodes: seq<Node>, f: Edge, g: Node, g': Node)
    requires IsFlowBetween(flows, nodes, f, g, g')
    ensures f in flows && g in nodes && g' in nodes && f.s in g.members && f.t in g'.members
  {
  }

  lemma {:induction false} NamesArePlain(data: seq<Node>, names: map<string, string>, shown: seq<Node>,
                                         flows: seq<Edge>)
    requires NoSeparator(data) && NamesShow(names, shown) && forall n | n in shown :: n in data
    requires forall f | f in flows :: f.s in Ids(shown) && f.t in Ids(shown)
    ensures Named(names, [], flows) && PlainNames(names, flows)
  {
    forall x | x in Ids(shown)
      ensures x in names && '>' !in names[x]
    {
      var n :| n in shown && n.id == x;
    }
  }

  /** Without separators in ids and entities, the report's merged edges carry exactly the flows between groups. */
  lemma {:induction false} MergesFlows(data: seq<Node>, dir: string, names: map<string, string>, flows: seq<Edge>,
                                       nodes: seq<Node>, edges: seq<Edge>)
    requires PlainIds(data) && NoSeparator(data) && NamesOf(data, |data|, names)
    requires forall e | e in flows :: e.s in Ids(ShownNodes(dir, data)) && e.t in Ids(ShownNodes(dir, data))
    requires Merged(names, ShownNodes(dir, data), flows, nodes, edges)
    ensures EdgesSumFlows(flows, nodes, edges)
  {
    hide NamesOf, MergedNodes, MergedEdges, AreGroups, NamesShow, EdgesSumFlows, PlainNames;
    var shown := ShownNodes(dir, data);
    NamesAreEntities(data, names, shown);
    NamesArePlain(data, names, shown, flows);
    var nn, em, ids, pairs :| MergedNodes(names, shown, |shown|, nn) && Lists(nn, nodes, ids)
                              && MergedEdges(names, flows, |flows|, em) && Lists(em, edges, pairs);
    MergedAreGroups(names, shown, nn, nodes, ids);
    MergedEdgesSum(names, shown, flows, nodes, edges, em, pairs);
  }

  /** What merging comes to, as far as the addresses are plain. */
  ghost predicate MergedWell(data: seq<Node>, shown: seq<Node>, flows: seq<Edge>, nodes: seq<Node>, edges: seq<Edge>) {
    && (PlainIds(data) ==> ByEntity(shown, flows, nodes, edges))
    && (PlainIds(data) && NoSeparator(data) ==> EdgesSumFlows(flows, nodes, edges))
  }

  lemma MergesWell(data: seq<Node>, dir: string, names: map<string, string>, flows: seq<Edge>, nodes: seq<Node>,
                   edges: seq<Edge>)
    requires NamesOf(data, |data|, names)
    requires forall e | e in flows :: e.s in Ids(ShownNodes(dir, data)) && e.t in Ids(ShownNodes(dir, data))
    requires Merged(names, ShownNodes(dir, data), flows, nodes, edges)
    ensures MergedWell(data, ShownNodes(dir, data), flows, nodes, edges)
  {
    hide NamesOf, Merged, ByEntity, EdgesSumFlows, PlainIds, NoSeparator;
    if PlainIds(data) {
      MergesByEntity(data, dir, names, flows, nodes, edges);
      if NoSeparator(data) {
        MergesFlows(data, dir, names, flows, nodes, edges);
      }
    }
  }
}
