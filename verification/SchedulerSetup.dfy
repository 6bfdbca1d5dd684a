/** Building a scheduler from the cluster's nodes. */
module SchedulerSetup {
  import opened Common
  import opened Labels
  import opened RequirementSets
  import opened Resources
  import opened Volumes
  import opened InstanceTypes
  import opened Pods
  import opened Topologies
  import opened NodeClaims
  import opened ExistingNodes
  import opened NodePoolLimits
  import opened Plans
  import opened Scheduling

  // ----- What a pool has left at the start

  function PoolOf(node: NodeSnapshot): string { if NODE_POOL in node.labels then node.labels[NODE_POOL] else "" }

  function Charged(budgets: Budgets, node: NodeSnapshot): Budgets {
    if PoolOf(node) in budgets then budgets[PoolOf(node) := Subtract(budgets[PoolOf(node)], node.capacity)] else budgets
  }

  function StartBudgets(limits: Budgets, nodes: seq<NodeSnapshot>): Budgets {
    if nodes == [] then limits else Charged(StartBudgets(limits, nodes[..|nodes| - 1]), nodes[|nodes| - 1])
  }

  /** The capacity a pool already has. */
  function PoolCapacity(nodes: seq<NodeSnapshot>, pool: string, r: string): int {
    if nodes == [] then 0
    else
      PoolCapacity(nodes[..|nodes| - 1], pool, r) +
      (if PoolOf(nodes[|nodes| - 1]) == pool then Amount(nodes[|nodes| - 1].capacity, r) else 0)
  }

  lemma {:induction false} StartBudgetsAre(limits: Budgets, nodes: seq<NodeSnapshot>, pool: string, r: string)
    requires pool in limits && r in limits[pool]
    ensures var start := StartBudgets(limits, nodes);
      pool in start && r in start[pool] && start[pool][r] == limits[pool][r] - PoolCapacity(nodes, pool, r)
  {
    if nodes != [] {
      StartBudgetsAre(limits, nodes[..|nodes| - 1], pool, r);
    }
  }

  /**
   After any run, for a pool that got a claim: its nodes together with whatever is
   launched for its claims stay within every limit of the pool.
   */
  lemma PoolStaysWithinLimits(
    limits: Budgets, nodes: seq<NodeSnapshot>, p: Plan, picks: seq<InstanceType>, pool: string, r: string)
    requires pool in limits && r in limits[pool]
    requires PlanInv(p, StartBudgets(limits, nodes)) && Picks(picks, p.claims) &&
      exists c :: c in p.claims && c.pool == pool
    ensures PoolCapacity(nodes, pool, r) + Launched(picks, p.claims, pool, r) <= limits[pool][r]
  {
    hide NodeInv, ClaimInv, LimitInv;
    StartBudgetsAre(limits, nodes, pool, r);
    LaunchesStayWithinLimits(picks, p.claims, p.remaining, StartBudgets(limits, nodes), pool, r);
  }

  // ----- The nodes of the cluster

  /** A daemon runs on a node whose taints it tolerates and whose labels it accepts. */
  predicate RunsOn(daemon: Pod, node: NodeSnapshot)
    requires daemon.spec.Valid()
  {
    && ToleratesAll(node.taints, daemon.spec.tolerations)
    && Compatible(LabelRequirements(node.labels), PodRequirements(daemon.spec), {})
  }

  function DaemonsOn(daemons: seq<Pod>, node: NodeSnapshot): seq<PodResources>
    requires AllSpecsValid(daemons)
  {
    if daemons == [] then []
    else
      var n := |daemons| - 1;
      assert daemons[n] in daemons;
      DaemonsOn(daemons[..n], node) + (if RunsOn(daemons[n], node) then [daemons[n].resources] else [])
  }

  /** The daemons that will run on the node, by position. */
  function RunningOn(daemons: seq<Pod>, node: NodeSnapshot, x: PodResources): set<int>
    requires AllSpecsValid(daemons)
  {
    set i | 0 <= i < |daemons| && RunsOn(daemons[i], node) && daemons[i].resources == x
  }

  lemma OneMoreRuns(daemons: seq<Pod>, node: NodeSnapshot, x: PodResources)
    requires AllSpecsValid(daemons) && daemons != []
    ensures var n := |daemons| - 1;
      && AllSpecsValid(daemons[..n]) && daemons[n].spec.Valid()
      && |RunningOn(daemons, node, x)| == |RunningOn(daemons[..n], node, x)| +
         if RunsOn(daemons[n], node) && daemons[n].resources == x then 1 else 0
  {
    hide RunsOn, PodSpec.Valid;
    var n := |daemons| - 1;
    assert daemons[n] in daemons;
    assert RunningOn(daemons, node, x) == RunningOn(daemons[..n], node, x) +
      if RunsOn(daemons[n], node) && daemons[n].resources == x then {n} else {};
  }

  /** Each daemon whose tolerations and node terms fit the node is charged to it once, and no other is. */
  lemma {:induction false} DaemonsAre(daemons: seq<Pod>, node: NodeSnapshot, x: PodResources)
    requires AllSpecsValid(daemons)
    ensures multiset(DaemonsOn(daemons, node))[x] == |RunningOn(daemons, node, x)|
  {
    hide RunsOn, PodSpec.Valid;
    if daemons == [] {
      assert RunningOn(daemons, node, x) == {};
    } else {
      var n := |daemons| - 1;
      assert daemons[n] in daemons;
      var before, last := daemons[..n], if RunsOn(daemons[n], node) then [daemons[n].resources] else [];
      DaemonsAre(before, node, x);
      assert DaemonsOn(daemons, node) == DaemonsOn(before, node) + last;
      OneMoreRuns(daemons, node, x);
    }
  }

  function KnownNodes(nodes: seq<NodeSnapshot>, daemons: seq<Pod>): seq<Existing>
    requires AllSpecsValid(daemons)
  {
    seq(|nodes|, i requires 0 <= i < |nodes| => FromState(nodes[i], RequestsForPods(DaemonsOn(daemons, nodes[i]))))
  }

  function RegisteredNodes(topo: Topo, nodes: seq<NodeSnapshot>): Topo {
    if nodes == []
      then topo else Registered(RegisteredNodes(topo, nodes[..|nodes| - 1]), HOSTNAME, nodes[|nodes| - 1].hostname)
  }

  method ExpectedDaemons(daemons: seq<Pod>, node: NodeSnapshot) returns (requests: ResourceList)
    requires AllSpecsValid(daemons)
    ensures requests == RequestsForPods(DaemonsOn(daemons, node))
  {
    hide RunsOn;
    var running: seq<PodResources> := [];
    for i := 0 to |daemons|
      invariant running == DaemonsOn(daemons[..i], node)
    {
      assert daemons[..i + 1][..i] == daemons[..i] && daemons[i] in daemons;
      if RunsOn(daemons[i], node) {
        running := running + [daemons[i].resources];
      }
    }
    assert daemons[..|daemons|] == daemons;
    requests := RequestsForPods(running);
  }

  /** Wrapped nodes that share no object with each other or the topology. */
  ghost predicate Wrapped(existing: seq<ExistingNode>, topology: Topology) reads topology {
    && DistinctNodes(existing) && NodeObjects(existing) !! topology.Repr()
    && forall n :: n in existing ==> n.topology == topology
  }

  method AppendNode(existing: seq<ExistingNode>, node: NodeSnapshot, topology: Topology, daemons: seq<Pod>)
    returns (more: seq<ExistingNode>)
    requires topology.Valid() && Wrapped(existing, topology) && AllSpecsValid(daemons)
    modifies topology.Repr()
    ensures topology.Valid() && topology.Repr() == old(topology.Repr()) && Wrapped(more, topology)
    ensures forall o :: o in NodeObjects(more) && o !in NodeObjects(existing) ==> !old(allocated(o))
    ensures NodeViews(more) == old(NodeViews(existing)) + [FromState(node, RequestsForPods(DaemonsOn(daemons, node)))]
    ensures topology.View() == Registered(old(topology.View()), HOSTNAME, node.hostname)
  {
    hide Topology.View, Topology.Valid, Registered, FromState, NodeViews, Topology.Repr, NodeObjects, DaemonsOn,
      RequestsForPods;
    assert allocated(NodeObjects(existing)) && allocated(topology.Repr());
    ghost var views, topo := NodeViews(existing), topology.View();
    var expected := ExpectedDaemons(daemons, node);
    assert NodeViews(existing) == views && topology.View() == topo;
    var n := NewExistingNode(node, topology, expected);
    assert NodeViews(existing) == views;
    NodeObjectsGrow(existing, n);
    NodeViewsGrow(existing, n);
    more := existing + [n];
    assert DistinctNodes(more) by { DistinctGrow(existing, n); }
  }

  lemma NodeObjectsGrow(existing: seq<ExistingNode>, n: ExistingNode)
    ensures NodeObjects(existing + [n]) == NodeObjects(existing) + {n, n.hostPortUsage, n.volumeUsage}
  {
    assert (existing + [n])[..|existing|] == existing;
  }

  lemma NodeViewsGrow(existing: seq<ExistingNode>, n: ExistingNode)
    ensures NodeViews(existing + [n]) == NodeViews(existing) + [n.View()]
  {
    hide ExistingNode.View;
  }

  lemma DistinctGrow(existing: seq<ExistingNode>, n: ExistingNode)
    requires DistinctNodes(existing) && {n, n.hostPortUsage, n.volumeUsage} !! NodeObjects(existing)
    ensures DistinctNodes(existing + [n])
  {
    forall m | m in existing ensures m != n && m.hostPortUsage != n.hostPortUsage && m.volumeUsage != n.volumeUsage {
      var i :| 0 <= i < |existing| && existing[i] == m;
      assert existing[i] in NodeObjects(existing);
    }
  }

  /** Wrap the nodes, make their host names known, and charge their capacity to their pools. */
  method CalculateExisting(nodes: seq<NodeSnapshot>, daemons: seq<Pod>, limits: Budgets, topology: Topology)
    returns (existing: seq<ExistingNode>, remaining: Budgets)
    requires topology.Valid() && AllSpecsValid(daemons)
    modifies topology.Repr()
    ensures topology.Valid() && topology.Repr() == old(topology.Repr()) && Wrapped(existing, topology)
    ensures forall o :: o in NodeObjects(existing) ==> !old(allocated(o))
    ensures NodeViews(existing) == KnownNodes(nodes, daemons) && remaining == StartBudgets(limits, nodes)
    ensures topology.View() == RegisteredNodes(old(topology.View()), nodes)
  {
    hide Topology.View, Topology.Valid, Registered, FromState, DaemonsOn, KnownNodes, DistinctNodes, Subtract,
      NodeViews, RequestsForPods, Wrapped, NodeObjects;
    existing, remaining := [], limits;
    KnownNone(daemons, topology);
    assert nodes[..0] == [];
    for i := 0 to |nodes|
      invariant topology.Valid() && topology.Repr() == old(topology.Repr()) && Wrapped(existing, topology)
      invariant forall o :: o in NodeObjects(existing) ==> !old(allocated(o))
      invariant NodeViews(existing) == KnownNodes(nodes[..i], daemons) && remaining == StartBudgets(limits, nodes[..i])
      invariant topology.View() == RegisteredNodes(old(topology.View()), nodes[..i])
    {
      assert nodes[..i + 1][..i] == nodes[..i];
      existing := AppendNode(existing, nodes[i], topology, daemons);
      var pool := PoolOf(nodes[i]);
      if pool in remaining {
        remaining := remaining[pool := Subtract(remaining[pool], nodes[i].capacity)];
      }
      KnownOneMore(nodes, i, daemons);
    }
    assert nodes[..|nodes|] == nodes;
  }

  lemma KnownNone(daemons: seq<Pod>, topology: Topology)
    requires AllSpecsValid(daemons)
    ensures NodeViews([]) == KnownNodes([], daemons) && Wrapped([], topology) && NodeObjects([]) == {}
  {}

  lemma KnownOneMore(nodes: seq<NodeSnapshot>, i: nat, daemons: seq<Pod>)
    requires AllSpecsValid(daemons) && i < |nodes|
    ensures KnownNodes(nodes[..i + 1], daemons) ==
            KnownNodes(nodes[..i], daemons) + [FromState(nodes[i], RequestsForPods(DaemonsOn(daemons, nodes[i])))]
  {
    hide FromState, DaemonsOn;
  }

  // ----- The scheduler

  /** Initialized nodes first, then by name. */
  predicate NodeLeq(a: NodeSnapshot, b: NodeSnapshot) {
    if a.initialized != b.initialized then a.initialized else StringLeq(a.name, b.name)
  }

  lemma NodeLeqOrders(nodes: seq<ExistingNode>)
    ensures Orders((a: ExistingNode, b: ExistingNode) => NodeLeq(a.node, b.node), nodes)
  {
    hide StringLeq;
    forall a, b | a in nodes && b in nodes ensures NodeLeq(a.node, b.node) || NodeLeq(b.node, a.node) {
      StringLeqTotal(a.node.name, b.node.name);
    }
    forall a, b, c | a in nodes && b in nodes && c in nodes && NodeLeq(a.node, b.node) && NodeLeq(b.node, c.node)
      ensures NodeLeq(a.node, c.node)
    {
      if a.node.initialized == b.node.initialized == c.node.initialized {
        StringLeqTransitive(a.node.name, b.node.name, c.node.name);
      }
    }
  }

  predicate InitializedFirst(nodes: seq<Existing>) {
    forall i, j :: 0 <= i < j < |nodes| ==> NodeLeq(nodes[i].node, nodes[j].node)
  }

  lemma {:induction false} NodeViewsPermuted(xs: seq<ExistingNode>, ys: seq<ExistingNode>)
    requires multiset(xs) == multiset(ys)
    ensures multiset(NodeViews(xs)) == multiset(NodeViews(ys))
    decreases |xs|
  {
    hide ExistingNode.View, NodeObjects;
    if xs == [] {
      PermutationMembers(xs, ys);
    } else {
      var i := PermutationHead(xs, ys);
      NodeViewsPermuted(xs[1..], Without(ys, i));
      assert NodeViews(xs) == [xs[0].View()] + NodeViews(xs[1..]);
      WithoutMultiset(NodeViews(ys), i);
      assert Without(NodeViews(ys), i) == NodeViews(Without(ys, i));
    }
  }

  lemma {:induction false} NodeObjectsWithin(xs: seq<ExistingNode>, ys: seq<ExistingNode>)
    requires forall n :: n in xs ==> n in ys
    ensures NodeObjects(xs) <= NodeObjects(ys)
  {
    if xs != [] {
      var n := |xs| - 1;
      NodeObjectsWithin(xs[..n], ys);
      assert xs[n] in xs;
      var i :| 0 <= i < |ys| && ys[i] == xs[n];
    }
  }

  lemma WrappedPermuted(xs: seq<ExistingNode>, ys: seq<ExistingNode>, topology: Topology)
    requires Wrapped(xs, topology) && multiset(xs) == multiset(ys)
    ensures Wrapped(ys, topology)
  {
    PermutationMembers(xs, ys);
    PermutationNoDuplicates(xs, ys);
    NodeObjectsWithin(ys, xs);
  }

  method SortNodes(nodes: seq<ExistingNode>, topology: Topology) returns (sorted: seq<ExistingNode>)
    requires Wrapped(nodes, topology)
    ensures Wrapped(sorted, topology) && NodeObjects(sorted) <= NodeObjects(nodes)
    ensures multiset(NodeViews(sorted)) == multiset(NodeViews(nodes)) && InitializedFirst(NodeViews(sorted))
  {
    hide Wrapped, NodeLeq, NodeObjects;
    NodeLeqOrders(nodes);
    sorted := SortBy(nodes, (a: ExistingNode, b: ExistingNode) => NodeLeq(a.node, b.node));
    WrappedPermuted(nodes, sorted, topology);
    PermutationMembers(nodes, sorted);
    NodeObjectsWithin(sorted, nodes);
    NodeViewsPermuted(sorted, nodes);
  }

  lemma {:induction false} NothingPlaced(nodes: seq<Existing>)
    requires forall n :: n in nodes ==> n.pods == []
    ensures PodsOnNodes(nodes) == multiset{}
  {
    if nodes != [] {
      NothingPlaced(nodes[1..]);
    }
  }

  lemma KnownInv(nodes: seq<NodeSnapshot>, daemons: seq<Pod>, views: seq<Existing>)
    requires AllSpecsValid(daemons) && multiset(views) == multiset(KnownNodes(nodes, daemons))
    requires forall n :: n in nodes ==> Covers(n.mounts.volumes, n.mounts.podVolumes)
    ensures forall n :: n in views ==> NodeInv(n) && n.pods == []
  {
    hide NodeInv, DaemonsOn, RequestsForPods, NodeRequirements, RemainingDaemons;
    PermutationMembers(views, KnownNodes(nodes, daemons));
    forall n | n in views ensures NodeInv(n) && n.pods == [] {
      var i :| 0 <= i < |nodes| && KnownNodes(nodes, daemons)[i] == n;
      FromStateInv(nodes[i], RequestsForPods(DaemonsOn(daemons, nodes[i])));
    }
  }

  method NewScheduler(
    nodes: seq<NodeSnapshot>, daemons: seq<Pod>, limits: Budgets, templates: seq<Template>, catalog: Catalog,
      topology: Topology)
    returns (s: Scheduler)
    requires topology.Valid() && AllSpecsValid(daemons)
    requires forall n :: n in nodes ==> Covers(n.mounts.volumes, n.mounts.podVolumes)
    requires (forall t :: t in templates ==> ValidTemplate(t)) &&
      (forall pool :: pool in catalog ==> Physical(catalog[pool]))
    modifies topology.Repr()
    ensures s.Valid() && s.topology == topology && topology.Repr() == old(topology.Repr())
    ensures forall o :: o in s.Repr() && o !in topology.Repr() ==> !old(allocated(o))
    ensures s.templates == templates && s.catalog == catalog && s.start == StartBudgets(limits, nodes)
    ensures multiset(s.View().nodes) == multiset(KnownNodes(nodes, daemons)) && InitializedFirst(s.View().nodes)
    ensures s.View().claims == [] && s.View().remaining == s.start && PlacedPods(s.View()) == multiset{}
    ensures s.View().topo == RegisteredNodes(old(topology.View()), nodes)
  {
    hide NodeInv, Topology.View, Topology.Valid, Topology.Repr, KnownNodes, ValidTemplate, Physical, NodeObjects,
      InitializedFirst, StartBudgets, RegisteredNodes, PlanInv, Scheduler.Sound, Covers, NodeViews, PodsOnNodes;
    var existing, remaining := CalculateExisting(nodes, daemons, limits, topology);
    assert allocated(NodeObjects(existing)) && allocated(topology.Repr());
    ghost var views, topo := NodeViews(existing), topology.View();
    var sorted := SortNodes(existing, topology);
    assert topology.View() == topo;
    KnownInv(nodes, daemons, NodeViews(sorted));
    ViewsAre(sorted);
    NothingPlaced(NodeViews(sorted));
    s := new Scheduler(templates, catalog, topology, sorted, remaining);
    assert NodeViews(sorted) == s.View().nodes;
    assert ClaimObjects([]) == {};
  }

  lemma ViewsAre(nodes: seq<ExistingNode>)
    ensures forall n :: n in nodes ==> n.View() in NodeViews(nodes)
  {
    forall n | n in nodes ensures n.View() in NodeViews(nodes) {
      var i :| 0 <= i < |nodes| && nodes[i] == n;
      assert NodeViews(nodes)[i] == n.View();
    }
  }
}
