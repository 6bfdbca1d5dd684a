/** The scheduler: where one pod goes, given the nodes and claims there are. */
module Scheduling {
  import opened Common
  import opened Labels
  import opened RequirementAlgebra
  import opened RequirementSets
  import opened Resources
  import opened Strconv
  import opened InstanceTypes
  import opened Pods
  import opened Topologies
  import opened NodeClaims
  import opened ExistingNodes
  import opened NodePoolLimits
  import opened Plans

  type Catalog = map<string, seq<InstanceType>>

  function TypesOf(catalog: Catalog, pool: string): seq<InstanceType> { if pool in catalog then catalog[pool] else [] }

  // ----- What one attempt does to the plan

  function NamedAll(p: Plan, hostnames: seq<string>): Plan {
    if hostnames == [] then p else Named(NamedAll(p, hostnames[..|hostnames| - 1]), hostnames[|hostnames| - 1])
  }

  /** Nothing is placed: claims may be reordered, and host names that were tried stay known. */
  ghost predicate Untouched(p: Plan, p': Plan) {
    exists p1, hostnames :: Reordered(p, p1) && p' == NamedAll(p1, hostnames)
  }

  /** The first so many nodes do not take the pod. */
  ghost predicate NodesRefuse(p: Plan, pod: Pod, n: nat)
    requires pod.spec.Valid()
  {
    n <= |p.nodes| && forall j :: 0 <= j < n ==> NodeRefused(p.nodes[j], p.topo, pod)
  }

  ghost predicate ClaimsRefuse(p: Plan, pod: Pod, n: nat)
    requires pod.spec.Valid()
  {
    n <= |p.claims| && forall j :: 0 <= j < n ==> Refused(p.claims[j], p.topo, pod)
  }

  /** The pod is put on the first node that takes it. */
  ghost predicate PlacedOnNode(p: Plan, pod: Pod, p': Plan)
    requires pod.spec.Valid()
  {
    exists i: nat :: NodesRefuse(p, pod, i) && PutOnNode(p, pod, i, p')
  }

  predicate FewestFirst(claims: seq<Claim>) {
    forall i, j :: 0 <= i < j < |claims| ==> |claims[i].pods| <= |claims[j].pods|
  }

  /** The pod is put on the first claim that takes it, those with the fewest pods first. */
  ghost predicate PlacedOnClaim(p: Plan, pod: Pod, p': Plan)
    requires pod.spec.Valid()
  {
    exists p1, i: nat ::
      Reordered(p, p1) && FewestFirst(p1.claims) && ClaimsRefuse(p1, pod, i) && PutOnClaim(p1, pod, i, p')
  }

  /** The limits of the template's pool leave no instance type, or a claim opened from it does not take the pod. */
  ghost predicate Declines(p: Plan, pod: Pod, t: Template, hostname: string, its: seq<InstanceType>)
    requires pod.spec.Valid()
  {
    || (t.pool in p.remaining && OnOffer(p, t.pool, its) == [])
    || Refused(Opened(t, hostname, OnOffer(p, t.pool, its)), Registered(p.topo, HOSTNAME, hostname), pod)
  }

  ghost predicate Declined(p: Plan, pod: Pod, t: Template, catalog: Catalog)
    requires pod.spec.Valid()
  {
    exists p1, hostname :: Untouched(p, p1) && Declines(p1, pod, t, hostname, TypesOf(catalog, t.pool))
  }

  ghost predicate AllDeclined(p: Plan, pod: Pod, templates: seq<Template>, catalog: Catalog)
    requires pod.spec.Valid()
  {
    forall t :: t in templates ==> Declined(p, pod, t, catalog)
  }

  /** No claim may go by the host name yet. */
  ghost predicate FreshName(p: Plan, hostname: string) {
    forall c :: c in p.claims ==> !Allows(c.requirements, HOSTNAME, hostname)
  }

  /** The pod is put on a claim from the first template that does not decline, under a host name of its own. */
  ghost predicate PlacedOnNew(p: Plan, pod: Pod, templates: seq<Template>, catalog: Catalog, p': Plan)
    requires pod.spec.Valid()
  {
    exists p1, i: nat, hostname ::
      && Untouched(p, p1) && i < |templates| && AllDeclined(p, pod, templates[..i], catalog) && FreshName(p1, hostname)
      && PutOnNew(p1, pod, templates[i], hostname, TypesOf(catalog, templates[i].pool), p')
  }

  ghost predicate NoNode(p: Plan, pod: Pod)
    requires pod.spec.Valid()
  {
    forall n :: n in p.nodes ==> NodeRefused(n, p.topo, pod)
  }

  /** No node and no open claim takes the pod. */
  ghost predicate NoRoom(p: Plan, pod: Pod)
    requires pod.spec.Valid()
  {
    NoNode(p, pod) && forall c :: c in p.claims ==> Refused(c, p.topo, pod)
  }

  // ----- Attempts keep what plans satisfy

  lemma {:induction false} NamedAllKeeps(p: Plan, hostnames: seq<string>, start: Budgets, batch: seq<Pod>)
    ensures NamedAll(p, hostnames) == p.(topo := NamedAll(p, hostnames).topo)
    ensures PlanInv(p, start) ==> PlanInv(NamedAll(p, hostnames), start)
    ensures Separated(p, batch) ==> Separated(NamedAll(p, hostnames), batch)
  {
    hide LimitInv, NodeInv, ClaimInv, Separated;
    if hostnames != [] {
      var n := |hostnames| - 1;
      NamedAllKeeps(p, hostnames[..n], start, batch);
      if Separated(p, batch) {
        NamedSeparates(NamedAll(p, hostnames[..n]), hostnames[n], batch);
      }
    }
  }

  lemma UntouchedKeeps(p: Plan, p': Plan, start: Budgets, batch: seq<Pod>)
    requires PlanInv(p, start) && Untouched(p, p')
    ensures PlanInv(p', start) && (Separated(p, batch) ==> Separated(p', batch))
    ensures p'.nodes == p.nodes && multiset(p'.claims) == multiset(p.claims)
  {
    hide PlanInv, Separated, NamedAll;
    var p1, hostnames :| Reordered(p, p1) && p' == NamedAll(p1, hostnames);
    ReorderKeepsPlan(p, p1, start);
    if Separated(p, batch) {
      ReorderSeparates(p, p1, batch);
    }
    NamedAllKeeps(p1, hostnames, start, batch);
  }

  /** All pods of a plan, each as often as it was placed. */
  function PodsOnNodes(nodes: seq<Existing>): multiset<Pod> {
    if nodes == [] then multiset{} else PodsOnNodes(nodes[1..]) + multiset(nodes[0].pods)
  }

  function PodsOnClaims(claims: seq<Claim>): multiset<Pod> {
    if claims == [] then multiset{} else PodsOnClaims(claims[1..]) + multiset(claims[0].pods)
  }

  function PlacedPods(p: Plan): multiset<Pod> { PodsOnNodes(p.nodes) + PodsOnClaims(p.claims) }

  lemma {:induction false} NodeGainsPod(nodes: seq<Existing>, i: nat, n: Existing, pod: Pod)
    requires i < |nodes| && n.pods == nodes[i].pods + [pod]
    ensures PodsOnNodes(nodes[i := n]) == PodsOnNodes(nodes) + multiset{pod}
  {
    if i == 0 {
      assert nodes[0 := n][1..] == nodes[1..];
    } else {
      assert nodes[i := n][1..] == nodes[1..][i - 1 := n];
      NodeGainsPod(nodes[1..], i - 1, n, pod);
    }
  }

  lemma {:induction false} ClaimsSplit(xs: seq<Claim>, ys: seq<Claim>)
    ensures PodsOnClaims(xs + ys) == PodsOnClaims(xs) + PodsOnClaims(ys)
  {
    if xs == [] {
      assert xs + ys == ys;
    } else {
      assert (xs + ys)[1..] == xs[1..] + ys;
      ClaimsSplit(xs[1..], ys);
    }
  }

  lemma ClaimsWithout(claims: seq<Claim>, i: nat)
    requires i < |claims|
    ensures PodsOnClaims(claims) == PodsOnClaims(Without(claims, i)) + multiset(claims[i].pods)
  {
    hide PodsOnClaims;
    assert claims == claims[..i] + ([claims[i]] + claims[i + 1..]);
    ClaimsSplit(claims[..i], [claims[i]] + claims[i + 1..]);
    ClaimsSplit([claims[i]], claims[i + 1..]);
    ClaimsSplit(claims[..i], claims[i + 1..]);
    OneClaim(claims[i]);
  }

  lemma OneClaim(c: Claim)
    ensures PodsOnClaims([c]) == multiset(c.pods)
  {
    assert [c][1..] == [];
  }

  lemma {:induction false} ClaimsPermuted(xs: seq<Claim>, ys: seq<Claim>)
    requires multiset(xs) == multiset(ys)
    ensures PodsOnClaims(xs) == PodsOnClaims(ys)
    decreases |xs|
  {
    if xs == [] {
      PermutationMembers(xs, ys);
    } else {
      var i := PermutationHead(xs, ys);
      ClaimsPermuted(xs[1..], Without(ys, i));
      ClaimsWithout(ys, i);
    }
  }

  lemma ClaimGainsPod(claims: seq<Claim>, i: nat, c: Claim, pod: Pod)
    requires i < |claims| && c.pods == claims[i].pods + [pod]
    ensures PodsOnClaims(claims[i := c]) == PodsOnClaims(claims) + multiset{pod}
  {
    hide PodsOnClaims;
    ClaimsWithout(claims, i);
    ClaimsWithout(claims[i := c], i);
    assert Without(claims[i := c], i) == Without(claims, i);
  }

  lemma UntouchedKeepsPods(p: Plan, p': Plan, start: Budgets)
    requires PlanInv(p, start) && Untouched(p, p')
    ensures PlacedPods(p') == PlacedPods(p)
  {
    hide PlanInv, Untouched, PodsOnClaims, PodsOnNodes;
    UntouchedKeeps(p, p', start, []);
    ClaimsPermuted(p.claims, p'.claims);
  }

  /** One more pod is placed, once; everything plans satisfy still holds. */
  ghost predicate Progress(p: Plan, pod: Pod, p': Plan, start: Budgets, batch: seq<Pod>) {
    && PlanInv(p', start) && PlacedPods(p') == PlacedPods(p) + multiset{pod}
    && (Separated(p, batch) ==> Separated(p', batch))
  }

  lemma PlacedOnNodeProgress(p: Plan, pod: Pod, p': Plan, start: Budgets, batch: seq<Pod>)
    requires pod.spec.Valid() && PlanInv(p, start) && PlacedOnNode(p, pod, p')
    ensures Progress(p, pod, p', start, batch)
  {
    hide PlanInv, Separated, NodeAdded, PodsOnNodes;
    var i: nat :| NodesRefuse(p, pod, i) && PutOnNode(p, pod, i, p');
    PutOnNodeKeepsPlan(p, pod, i, p', start);
    NodeGainsPod(p.nodes, i, p'.nodes[i], pod);
    if Separated(p, batch) {
      PutOnNodeSeparates(p, pod, i, p', start, batch);
    }
  }

  lemma PlacedOnClaimProgress(p: Plan, pod: Pod, p': Plan, start: Budgets, batch: seq<Pod>)
    requires pod.spec.Valid() && PlanInv(p, start) && PlacedOnClaim(p, pod, p')
    ensures Progress(p, pod, p', start, batch)
  {
    hide PlanInv, Separated, Added, PodsOnClaims;
    var p1, i: nat :|
      Reordered(p, p1) && FewestFirst(p1.claims) && ClaimsRefuse(p1, pod, i) && PutOnClaim(p1, pod, i, p');
    ReorderKeepsPlan(p, p1, start);
    PutOnClaimKeepsPlan(p1, pod, i, p', start);
    ClaimsPermuted(p.claims, p1.claims);
    ClaimGainsPod(p1.claims, i, p'.claims[i], pod);
    if Separated(p, batch) {
      ReorderSeparates(p, p1, batch);
      PutOnClaimSeparates(p1, pod, i, p', start, batch);
    }
  }

  lemma PlacedOnNewProgress(
    p: Plan, pod: Pod, templates: seq<Template>, catalog: Catalog, p': Plan, start: Budgets, batch: seq<Pod>)
    requires pod.spec.Valid() && PlanInv(p, start) && PlacedOnNew(p, pod, templates, catalog, p')
    requires (forall t :: t in templates ==> ValidTemplate(t)) &&
      (forall pool :: pool in catalog ==> Physical(catalog[pool]))
    ensures Progress(p, pod, p', start, batch)
  {
    hide PlanInv, Separated, Added, PodsOnClaims, Untouched, OnOffer, Reserved, Opened, Registered, AllDeclined;
    var p1, i: nat, hostname :|
      && Untouched(p, p1) && i < |templates| && AllDeclined(p, pod, templates[..i], catalog) && FreshName(p1, hostname)
      && PutOnNew(p1, pod, templates[i], hostname, TypesOf(catalog, templates[i].pool), p');
    var t := templates[i];
    UntouchedKeeps(p, p1, start, batch);
    UntouchedKeepsPods(p, p1, start);
    PutOnNewKeepsPlan(p1, pod, t, hostname, TypesOf(catalog, t.pool), p', start);
    ClaimsSplit(p1.claims, [p'.claims[|p1.claims|]]);
    OneClaim(p'.claims[|p1.claims|]);
    if Separated(p, batch) {
      PutOnNewSeparates(p1, pod, t, hostname, TypesOf(catalog, t.pool), p', batch);
    }
  }

  lemma StartOfPlan(nodes: seq<Existing>, remaining: Budgets, topo: Topo)
    requires forall n :: n in nodes ==> NodeInv(n)
    ensures PlanInv(Plan(nodes, [], remaining, topo), remaining)
  {
    hide NodeInv, ClaimInv;
    StartWithinLimits(remaining);
  }

  // ----- The scheduler as an object

  ghost predicate DistinctNodes(nodes: seq<ExistingNode>) {
    NoDuplicates(nodes) &&
    forall m, n ::
      m in nodes && n in nodes && m != n ==> m.hostPortUsage != n.hostPortUsage && m.volumeUsage != n.volumeUsage
  }

  ghost predicate DistinctClaims(claims: seq<NodeClaim>) {
    NoDuplicates(claims) && forall c, d :: c in claims && d in claims && c != d ==> c.hostPortUsage != d.hostPortUsage
  }

  ghost function NodeObjects(nodes: seq<ExistingNode>): (r: set<object>)
    ensures forall i :: 0 <= i < |nodes| ==> nodes[i] in r && nodes[i].hostPortUsage in r && nodes[i].volumeUsage in r
  {
    if nodes == [] then {}
    else
      var n := |nodes| - 1;
      NodeObjects(nodes[..n]) + {nodes[n], nodes[n].hostPortUsage, nodes[n].volumeUsage}
  }

  ghost function ClaimObjects(claims: seq<NodeClaim>): (r: set<object>)
    ensures forall i :: 0 <= i < |claims| ==> claims[i] in r && claims[i].hostPortUsage in r
  {
    (set i | 0 <= i < |claims| :: claims[i] as object) +
      (set i | 0 <= i < |claims| :: claims[i].hostPortUsage as object)
  }

  ghost function NodeViews(nodes: seq<ExistingNode>): seq<Existing>
    reads NodeObjects(nodes)
  {
    seq(|nodes|, i requires 0 <= i < |nodes| reads NodeObjects(nodes) => nodes[i].View())
  }

  ghost function ClaimViews(claims: seq<NodeClaim>): seq<Claim>
    reads ClaimObjects(claims)
  {
    seq(|claims|, i requires 0 <= i < |claims| reads ClaimObjects(claims) => claims[i].View())
  }

  class Scheduler {
    var existingNodes: seq<ExistingNode>
    var newNodeClaims: seq<NodeClaim>
    var remainingResources: Budgets
    var nodeId: nat
    const templates: seq<Template>
    const catalog: Catalog
    const topology: Topology
    ghost const start: Budgets

    /** Nodes, claims and the topology share no object. */
    ghost predicate Apart() reads this, topology {
      && DistinctNodes(existingNodes) && DistinctClaims(newNodeClaims)
      && NodeObjects(existingNodes) !! ClaimObjects(newNodeClaims)
      && {this} + topology.Repr() !! NodeObjects(existingNodes) + ClaimObjects(newNodeClaims)
      && this !in topology.Repr()
      && (forall n :: n in existingNodes ==> n.topology == topology)
      && (forall c :: c in newNodeClaims ==> c.topology == topology)
    }

    ghost function Repr(): set<object> reads this, topology {
      {this} + NodeObjects(existingNodes) + ClaimObjects(newNodeClaims) + topology.Repr()
    }

    ghost function View(): Plan reads Repr() {
      Plan(NodeViews(existingNodes), ClaimViews(newNodeClaims), remainingResources, topology.View())
    }

    /** The objects are as they should be. */
    ghost predicate Sound() reads this, topology {
      && Apart() && topology.Valid()
      && (forall t :: t in templates ==> ValidTemplate(t))
      && (forall pool :: pool in catalog ==> Physical(catalog[pool]))
    }

    ghost predicate Valid() reads Repr() { Sound() && PlanInv(View(), start) && AllNumbered(View().claims, nodeId) }

    constructor (
      templates: seq<Template>, catalog: Catalog, topology: Topology, nodes: seq<ExistingNode>, remaining: Budgets)
      requires topology.Valid() && DistinctNodes(nodes) && NodeObjects(nodes) !! topology.Repr()
      requires forall n :: n in nodes ==> n.topology == topology && NodeInv(n.View())
      requires (forall t :: t in templates ==> ValidTemplate(t)) &&
        (forall pool :: pool in catalog ==> Physical(catalog[pool]))
      ensures Valid() && start == remaining && this.templates == templates && this.catalog == catalog &&
        this.topology == topology
      ensures existingNodes == nodes && newNodeClaims == [] && remainingResources == remaining
    {
      hide Topology.View, Topology.Valid, ValidTemplate, Physical, NodeInv, PlanInv, DistinctNodes;
      assert allocated(NodeObjects(nodes)) && allocated(topology.Repr());
      ghost var views := NodeViews(nodes);
      assert forall n :: n in views ==> NodeInv(n);
      hide NodeObjects, NodeViews, Topology.Repr;
      this.templates, this.catalog, this.topology, this.start := templates, catalog, topology, remaining;
      existingNodes, newNodeClaims, remainingResources, nodeId := nodes, [], remaining, 0;
      new;
      StartOfPlan(views, remaining, topology.View());
      assert View() == Plan(views, [], remaining, topology.View());
    }

    method TryExisting(pod: Pod) returns (ok: bool)
      requires Sound() && pod.spec.Valid()
      modifies NodeObjects(existingNodes), topology.Repr()
      ensures Sound() && topology.Repr() == old(topology.Repr())
      ensures ok ==> PlacedOnNode(old(View()), pod, View())
      ensures !ok ==> View() == old(View()) && forall n :: n in View().nodes ==> NodeRefused(n, View().topo, pod)
    {
      hide NodeAdded, NodeRefused, Topology.View, Topology.Valid, ValidTemplate, Physical, DistinctClaims, NodeObjects,
        ClaimObjects, NodeViews, ClaimViews, Topology.Repr;
      ghost var before := View();
      assert allocated(ClaimObjects(newNodeClaims));
      var at := TryNodes(existingNodes, pod, topology);
      ok := at.Some?;
      assert ClaimViews(newNodeClaims) == before.claims;
      if ok {
        assert NodesRefuse(before, pod, at.value) && PutOnNode(before, pod, at.value, View());
      }
    }

    method TryOpen(pod: Pod) returns (ok: bool)
      requires Sound() && pod.spec.Valid()
      requires forall c :: c in newNodeClaims ==> WellFormed(c.requirements) && Keyed(c.requirements)
      modifies this, ClaimObjects(newNodeClaims), topology.Repr()
      ensures Sound() && existingNodes == old(existingNodes)
      ensures topology.Repr() == old(topology.Repr()) && ClaimObjects(newNodeClaims) == old(ClaimObjects(newNodeClaims))
      ensures nodeId == old(nodeId)
      ensures ok ==> PlacedOnClaim(old(View()), pod, View())
      ensures !ok ==> Reordered(old(View()), View()) && forall c :: c in View().claims ==> Refused(c, View().topo, pod)
    {
      hide Added, Refused, Topology.View, Topology.Valid, ValidTemplate, Physical, DistinctNodes, NodeObjects,
        ClaimObjects, NodeViews, ClaimViews, Topology.Repr, WellFormed, Keyed;
      ghost var before := View();
      Sort();
      ghost var sorted := View();
      assert allocated(NodeObjects(existingNodes)) && forall c :: c in newNodeClaims ==> c in old(newNodeClaims);
      var at := TryClaims(newNodeClaims, pod, topology);
      ok := at.Some?;
      assert NodeViews(existingNodes) == before.nodes;
      if ok {
        assert ClaimsRefuse(sorted, pod, at.value) && PutOnClaim(sorted, pod, at.value, View());
      }
    }

    method Sort()
      requires Sound()
      modifies this
      ensures Sound() && existingNodes == old(existingNodes) && nodeId == old(nodeId) &&
        ClaimObjects(newNodeClaims) == old(ClaimObjects(newNodeClaims))
      ensures multiset(newNodeClaims) == multiset(old(newNodeClaims)) && FewestPodsFirst(newNodeClaims)
      ensures forall c :: c in newNodeClaims ==> c in old(newNodeClaims)
      ensures Reordered(old(View()), View()) && FewestFirst(View().claims)
    {
      hide Topology.View, Topology.Valid, ValidTemplate, Physical, DistinctNodes, NodeObjects, NodeViews, ClaimViews,
        Topology.Repr, FewestPodsFirst, FewestFirst;
      ghost var before, claims := View(), newNodeClaims;
      assert allocated(NodeObjects(existingNodes)) && allocated(topology.Repr()) && allocated(ClaimObjects(claims));
      newNodeClaims := SortClaims(newNodeClaims);
      PermutationMembers(newNodeClaims, claims);
      PermutationNoDuplicates(claims, newNodeClaims);
      ViewsPermuted(newNodeClaims, claims);
      SameClaimObjects(newNodeClaims, claims);
      assert ClaimViews(claims) == before.claims && NodeViews(existingNodes) == before.nodes &&
        topology.View() == before.topo;
      ViewsFewestFirst(newNodeClaims);
    }

    /** Open a claim for the pod from one template, if its limits leave an instance type and the pod can go on it. */
    method TryTemplate(t: Template, pod: Pod) returns (ok: bool, hostname: string)
      requires Sound() && t in templates && pod.spec.Valid() && AllNumbered(View().claims, nodeId)
      modifies this, topology.Repr()
      ensures Sound() && existingNodes == old(existingNodes)
      ensures topology.Repr() == old(topology.Repr()) &&
        fresh(ClaimObjects(newNodeClaims) - old(ClaimObjects(newNodeClaims)))
      ensures ok ==>
        FreshName(old(View()), hostname) && PutOnNew(old(View()), pod, t, hostname, TypesOf(catalog, t.pool), View())
      ensures AllNumbered(View().claims, nodeId)
      ensures !ok ==> newNodeClaims == old(newNodeClaims)
      ensures !ok ==> View() == old(View()) || View() == Named(old(View()), hostname)
      ensures !ok ==> Declines(old(View()), pod, t, hostname, TypesOf(catalog, t.pool))
    {
      hide Added, Refused, Topology.View, Topology.Valid, ValidTemplate, Physical, Opened, Affordable, SubtractMax,
        Registered, DistinctNodes, DistinctClaims, NodeObjects, ClaimObjects, NodeViews, ClaimViews, Topology.Repr,
        AllNumbered, FreshName, Placeholder, PutOnNew;
      ghost var before, used := View(), nodeId;
      NextIsFresh(before, used);
      NumberedMore(before.claims, used, used + 1);
      assert allocated(NodeObjects(existingNodes)) && allocated(ClaimObjects(newNodeClaims)) &&
        allocated(topology.Repr());
      ok, hostname := false, "";
      var its := TypesOf(catalog, t.pool);
      if t.pool in remainingResources {
        its := FilterByRemainingResources(its, remainingResources[t.pool]);
        if its == [] {
          return;
        }
      }
      nodeId := nodeId + 1;
      hostname := Placeholder(nodeId);
      var c;
      assert topology.View() == before.topo;
      c, ok := OpenAndAdd(t, topology, hostname, its, pod);
      assert NodeViews(existingNodes) == before.nodes && ClaimViews(newNodeClaims) == before.claims;
      if ok {
        var left := ReserveLargest(if t.pool in remainingResources then remainingResources[t.pool] else map[],
          c.options);
        assert c.View().options == c.options;
        Accept(c, t.pool, left);
        OpenedPlan(before, pod, t, hostname, TypesOf(catalog, t.pool), c.View(), View());
        NewNumbered(before, pod, t, used + 1, TypesOf(catalog, t.pool), View(), used);
      }
    }

    /** Try the templates in order until one yields a claim the pod can go on. */
    method TryNew(pod: Pod)
      returns (ok: bool, ghost p1: Plan, ghost at: nat, ghost hostname: string, ghost hostnames: seq<string>)
      requires Sound() && pod.spec.Valid() && AllNumbered(View().claims, nodeId)
      modifies this, topology.Repr()
      ensures Sound() && existingNodes == old(existingNodes) && AllNumbered(View().claims, nodeId)
      ensures topology.Repr() == old(topology.Repr()) &&
        fresh(ClaimObjects(newNodeClaims) - old(ClaimObjects(newNodeClaims)))
      ensures ok ==> FreshName(p1, hostname)
      ensures p1 == NamedAll(old(View()), hostnames)
      ensures at <= |templates| && AllDeclined(old(View()), pod, templates[..at], catalog)
      ensures ok ==>
        at < |templates| && PutOnNew(p1, pod, templates[at], hostname, TypesOf(catalog, templates[at].pool), View())
      ensures !ok ==> View() == p1 && at == |templates|
    {
      hide PutOnNew, Declines, AllDeclined, ValidTemplate, Physical, Topology.Valid, View, Topology.Repr, NodeObjects,
        Named, DistinctNodes, DistinctClaims, AllNumbered, FreshName;
      hostnames := [];
      p1 := View();
      at := 0;
      hostname := *;
      assert allocated(topology.Repr());
      NoneDeclined(p1, pod, catalog);
      for i := 0 to |templates|
        invariant at == i && AllDeclined(old(View()), pod, templates[..at], catalog)
        invariant Sound() && existingNodes == old(existingNodes) && newNodeClaims == old(newNodeClaims)
        invariant topology.Repr() == old(topology.Repr())
        invariant View() == p1 == NamedAll(old(View()), hostnames) && AllNumbered(View().claims, nodeId)
      {
        var name;
        ok, name := TryTemplate(templates[i], pod);
        assert fresh(ClaimObjects(newNodeClaims) - ClaimObjects(old(newNodeClaims)));
        if ok {
          hostname := name;
          return;
        }
        OneMoreDeclined(old(View()), pod, templates, catalog, i, hostnames, name);
        at := i + 1;
        if View() != p1 {
          hostnames := hostnames + [name];
          p1 := View();
        }
      }
      ok := false;
    }

    /**
     Place the pod on the first node that takes it, else on the open claim with the fewest
     pods that does, else on a new claim.  With no template at all the attempt counts as a
     success although the pod went nowhere.
     */
    method Add(pod: Pod) returns (ok: bool)
      requires Valid() && pod.spec.Valid()
      modifies Repr()
      ensures Sound() && fresh(Repr() - old(Repr())) && topology.Repr() == old(topology.Repr())
      ensures Attempted(ok, old(View()), pod, templates, catalog, View()) && AllNumbered(View().claims, nodeId)
    {
      hide AllNumbered, FreshName, AllDeclined, PlacedOnNode, PlacedOnClaim, PutOnNew, NodeRefused, Refused,
        Topology.Valid, View, Topology.Repr, NodeObjects, ValidTemplate, Physical, NamedAll, PlanInv, DistinctNodes,
        DistinctClaims, WellFormed, Keyed;
      ghost var p := View();
      ok := TryExisting(pod);
      if ok {
        PlacedNumbered(p, pod, View(), nodeId);
        return;
      }
      ClaimsAreKeyed(this);
      ok := TryOpen(pod);
      if ok {
        PlacedNumbered(p, pod, View(), nodeId);
        return;
      }
      ghost var p1 := View();
      ReorderedNumbered(p, p1, nodeId);
      PermutationMembers(p.claims, p1.claims);
      assert NoRoom(p, pod);
      ghost var p2, at, hostname, hostnames;
      ok, p2, at, hostname, hostnames := TryNew(pod);
      assert Untouched(p, p2);
      DeclinedBefore(p, p1, pod, templates[..at], catalog);
      assert templates[..|templates|] == templates;
      assert ok ==> PlacedOnNew(p, pod, templates, catalog, View());
      if !ok && templates == [] {
        ok := true;
      }
    }

    /** Register the groups of a pod whose spec has changed. */
    method UpdateTopology(pod: Pod) returns (ok: bool, ghost antiFirst: bool)
      requires Sound() && pod.spec.Valid()
      modifies topology.Repr()
      ensures Sound() && fresh(Repr() - old(Repr())) && nodeId == old(nodeId)
      ensures var (topo, updated) := Updated(old(View()).topo, pod, antiFirst, topology.universe, topology.lookup);
        View() == old(View()).(topo := topo) && ok == updated
    {
      hide Topology.View, Topology.Valid, ValidTemplate, Physical, DistinctNodes, DistinctClaims, Updated, NodeViews,
        ClaimViews, Topology.Repr;
      ghost var before := View();
      assert allocated(NodeObjects(existingNodes)) && allocated(ClaimObjects(newNodeClaims));
      ok, antiFirst := topology.Update(pod);
      assert NodeViews(existingNodes) == before.nodes && ClaimViews(newNodeClaims) == before.claims;
    }

    method Accept(c: NodeClaim, pool: string, left: ResourceList)
      requires Sound() && c.topology == topology
      requires {c, c.hostPortUsage} !! {this} + topology.Repr() + NodeObjects(existingNodes) +
        ClaimObjects(newNodeClaims)
      modifies this
      ensures Sound() && existingNodes == old(existingNodes) && newNodeClaims == old(newNodeClaims) + [c] &&
        nodeId == old(nodeId)
      ensures remainingResources == old(remainingResources)[pool := left]
      ensures ClaimObjects(newNodeClaims) == old(ClaimObjects(newNodeClaims)) + {c, c.hostPortUsage}
      ensures View() == old(View()).(claims := old(View()).claims + [c.View()], remaining := remainingResources)
    {
      hide Topology.View, Topology.Valid, ValidTemplate, Physical, Topology.Repr, NodeObjects, NodeViews,
        DistinctNodes;
      ghost var before := View();
      assert allocated(NodeObjects(existingNodes)) && allocated(ClaimObjects(newNodeClaims)) &&
        allocated(topology.Repr());
      ClaimObjectsGrow(newNodeClaims, c);
      newNodeClaims := newNodeClaims + [c];
      remainingResources := remainingResources[pool := left];
      assert NodeViews(existingNodes) == before.nodes;
      assert ClaimViews(newNodeClaims) == before.claims + [c.View()];
      assert topology.View() == before.topo;
    }
  }

  /** The outcome of one attempt. */
  ghost predicate Attempted(ok: bool, p: Plan, pod: Pod, templates: seq<Template>, catalog: Catalog, p': Plan)
    requires pod.spec.Valid()
  {
    if ok && !(templates == [] && Untouched(p, p') && NoRoom(p, pod)) then
      || PlacedOnNode(p, pod, p')
      || (NoNode(p, pod) && PlacedOnClaim(p, pod, p'))
      || (NoRoom(p, pod) && PlacedOnNew(p, pod, templates, catalog, p'))
    else
      (ok <==> templates == []) && Untouched(p, p') && NoRoom(p, pod) && (ok || AllDeclined(p, pod, templates, catalog))
  }

  lemma NoneDeclined(p: Plan, pod: Pod, catalog: Catalog)
    requires pod.spec.Valid()
    ensures forall templates: seq<Template> :: AllDeclined(p, pod, templates[..0], catalog)
  {}

  lemma OneMoreDeclined(
    p: Plan, pod: Pod, templates: seq<Template>, catalog: Catalog, i: nat, hostnames: seq<string>, hostname: string)
    requires pod.spec.Valid() && i < |templates| && AllDeclined(p, pod, templates[..i], catalog)
    requires Declines(NamedAll(p, hostnames), pod, templates[i], hostname, TypesOf(catalog, templates[i].pool))
    ensures AllDeclined(p, pod, templates[..i + 1], catalog)
  {
    hide NamedAll, Declines;
    assert Reordered(p, p);
    assert Untouched(p, NamedAll(p, hostnames));
    assert templates[..i + 1] == templates[..i] + [templates[i]];
  }

  /** Reordering the claims first makes no difference to what a template is asked. */
  lemma DeclinedBefore(p: Plan, p1: Plan, pod: Pod, templates: seq<Template>, catalog: Catalog)
    requires pod.spec.Valid() && Reordered(p, p1) && AllDeclined(p1, pod, templates, catalog)
    ensures AllDeclined(p, pod, templates, catalog)
  {
    hide NamedAll, Declines;
    forall t | t in templates ensures Declined(p, pod, t, catalog) {
      var p2, hostname :| Untouched(p1, p2) && Declines(p2, pod, t, hostname, TypesOf(catalog, t.pool));
      var p3, hostnames :| Reordered(p1, p3) && p2 == NamedAll(p3, hostnames);
      assert Reordered(p, p3);
      assert Untouched(p, p2);
    }
  }

  lemma ClaimsAreKeyed(s: Scheduler)
    requires s.Valid()
    ensures forall c :: c in s.newNodeClaims ==> WellFormed(c.requirements) && Keyed(c.requirements)
  {
    forall c | c in s.newNodeClaims ensures WellFormed(c.requirements) && Keyed(c.requirements) {
      var i :| 0 <= i < |s.newNodeClaims| && s.newNodeClaims[i] == c;
      assert s.View().claims[i] == c.View() && s.View().claims[i] in s.View().claims;
    }
  }

  lemma SameClaimObjects(xs: seq<NodeClaim>, ys: seq<NodeClaim>)
    requires forall c :: c in xs <==> c in ys
    ensures ClaimObjects(xs) == ClaimObjects(ys)
  {
    forall o | o in ClaimObjects(xs) ensures o in ClaimObjects(ys) {
      var i :| 0 <= i < |xs| && (o == xs[i] || o == xs[i].hostPortUsage);
      assert xs[i] in ys;
    }
    forall o | o in ClaimObjects(ys) ensures o in ClaimObjects(xs) {
      var i :| 0 <= i < |ys| && (o == ys[i] || o == ys[i].hostPortUsage);
      assert ys[i] in xs;
    }
  }

  lemma ClaimObjectsGrow(claims: seq<NodeClaim>, c: NodeClaim)
    ensures ClaimObjects(claims + [c]) == ClaimObjects(claims) + {c, c.hostPortUsage}
  {
    var more := claims + [c];
    assert more[|claims|] == c;
    forall o | o in ClaimObjects(claims) ensures o in ClaimObjects(more) {
      var i :| 0 <= i < |claims| && (o == claims[i] || o == claims[i].hostPortUsage);
      assert more[i] == claims[i];
    }
  }

  lemma OpenedPlan(p: Plan, pod: Pod, t: Template, hostname: string, its: seq<InstanceType>, c: Claim, p': Plan)
    requires pod.spec.Valid()
    requires Added(Opened(t, hostname, OnOffer(p, t.pool, its)), Registered(p.topo, HOSTNAME, hostname), pod, c,
      p'.topo)
    requires p' == p.(claims := p.claims + [c], topo := p'.topo,
      remaining :=
        p.remaining[t.pool := SubtractMax(if t.pool in p.remaining then p.remaining[t.pool] else map[], c.options)])
    ensures PutOnNew(p, pod, t, hostname, its, p')
  {
    hide Added, SubtractMax, Registered;
    SamePool(Opened(t, hostname, OnOffer(p, t.pool, its)), Registered(p.topo, HOSTNAME, hostname), pod, c, p'.topo);
  }

  // ----- Host names

  const PREFIX := "hostname-placeholder-"

  /** The number in at least four digits. */
  function Placeholder(id: nat): string {
    PREFIX + (Zeros(if |Digits(id)| < 4 then 4 - |Digits(id)| else 0) + Digits(id))
  }

  lemma PlaceholdersDiffer(i: nat, j: nat)
    requires Placeholder(i) == Placeholder(j)
    ensures i == j
  {
    hide Zeros, Digits;
    var a, b := Placeholder(i)[|PREFIX|..], Placeholder(j)[|PREFIX|..];
    MagnitudePadded(if |Digits(i)| < 4 then 4 - |Digits(i)| else 0, Digits(i));
    MagnitudePadded(if |Digits(j)| < 4 then 4 - |Digits(j)| else 0, Digits(j));
    DigitsSpell(i);
    DigitsSpell(j);
    assert a == b;
  }

  /** The host may go by placeholders up to the number only. */
  ghost predicate NumberedBy(reqs: Requirements, n: nat) {
    forall v :: Allows(reqs, HOSTNAME, v) ==> exists i: nat :: i <= n && v == Placeholder(i)
  }

  ghost predicate AllNumbered(claims: seq<Claim>, n: nat) {
    forall c :: c in claims ==> NumberedBy(c.requirements, n)
  }

  lemma NextIsFresh(p: Plan, n: nat)
    requires AllNumbered(p.claims, n)
    ensures FreshName(p, Placeholder(n + 1))
  {
    hide Placeholder;
    forall c | c in p.claims ensures !Allows(c.requirements, HOSTNAME, Placeholder(n + 1)) {
      if Allows(c.requirements, HOSTNAME, Placeholder(n + 1)) {
        var i: nat :| i <= n && Placeholder(n + 1) == Placeholder(i);
        PlaceholdersDiffer(n + 1, i);
      }
    }
  }

  lemma NumberedMore(claims: seq<Claim>, n: nat, m: nat)
    requires AllNumbered(claims, n) && n <= m
    ensures AllNumbered(claims, m)
  {}

  lemma NarrowerNumbered(c: Claim, c': Claim, n: nat)
    requires NumberedBy(c.requirements, n) && Narrows(c'.requirements, c.requirements)
    ensures NumberedBy(c'.requirements, n)
  {}

  lemma ReorderedNumbered(p: Plan, p': Plan, n: nat)
    requires Reordered(p, p') && AllNumbered(p.claims, n)
    ensures AllNumbered(p'.claims, n)
  {
    hide NumberedBy;
    PermutationMembers(p.claims, p'.claims);
  }

  lemma AddedNarrows(c: Claim, topo: Topo, pod: Pod, c': Claim, topo': Topo)
    requires pod.spec.Valid() && Added(c, topo, pod, c', topo')
    ensures Narrows(c'.requirements, c.requirements)
  {
    hide Demanded, Admits, Remaining, Meet, PodRequirements, RecordPod, Narrows;
    var out :| AddedWith(c, topo, pod, out, c', topo');
    AddNarrows(c, pod, out);
  }

  lemma PlacedNumbered(p: Plan, pod: Pod, p': Plan, n: nat)
    requires pod.spec.Valid() && AllNumbered(p.claims, n) && (PlacedOnNode(p, pod, p') || PlacedOnClaim(p, pod, p'))
    ensures AllNumbered(p'.claims, n)
  {
    hide NumberedBy, Added, NodeAdded, Narrows, NodesRefuse, ClaimsRefuse;
    if PlacedOnNode(p, pod, p') {
      var i: nat :| NodesRefuse(p, pod, i) && PutOnNode(p, pod, i, p');
    } else {
      var p1, i: nat :|
        Reordered(p, p1) && FewestFirst(p1.claims) && ClaimsRefuse(p1, pod, i) && PutOnClaim(p1, pod, i, p');
      ReorderedNumbered(p, p1, n);
      assert p1.claims[i] in p1.claims;
      AddedNarrows(p1.claims[i], p1.topo, pod, p'.claims[i], p'.topo);
      NarrowerNumbered(p1.claims[i], p'.claims[i], n);
      forall c | c in p'.claims ensures NumberedBy(c.requirements, n) {
        var j :| 0 <= j < |p'.claims| && p'.claims[j] == c;
        assert j != i ==> p1.claims[j] == c && c in p1.claims;
      }
    }
  }

  lemma OpenedNumbered(t: Template, id: nat, its: seq<InstanceType>)
    requires ValidTemplate(t)
    ensures NumberedBy(Opened(t, Placeholder(id), its).requirements, id)
  {
    hide Placeholder;
    HostnameIsCanonical();
    var name := Placeholder(id);
    forall v | Allows(Opened(t, name, its).requirements, HOSTNAME, v) ensures v == name {
      AddAllows(t.requirements, Exactly(HOSTNAME, name), HOSTNAME, v);
      assert Elements([name]) == {name};
    }
  }

  lemma NewNumbered(p: Plan, pod: Pod, t: Template, id: nat, its: seq<InstanceType>, p': Plan, n: nat)
    requires pod.spec.Valid() && ValidTemplate(t) && AllNumbered(p.claims, n) && n <= id
    requires PutOnNew(p, pod, t, Placeholder(id), its, p')
    ensures AllNumbered(p'.claims, id)
  {
    hide NumberedBy, Added, Narrows, Opened, Registered, SubtractMax, Placeholder, ValidTemplate;
    var c, c' := Opened(t, Placeholder(id), OnOffer(p, t.pool, its)), p'.claims[|p.claims|];
    NumberedMore(p.claims, n, id);
    OpenedNumbered(t, id, OnOffer(p, t.pool, its));
    AddedNarrows(c, Registered(p.topo, HOSTNAME, Placeholder(id)), pod, c', p'.topo);
    NarrowerNumbered(c, c', id);
  }


  /** A new claim, and the attempt to place the pod on it. */
  method OpenAndAdd(t: Template, topology: Topology, hostname: string, its: seq<InstanceType>, pod: Pod)
    returns (c: NodeClaim, ok: bool)
    requires topology.Valid() && ValidTemplate(t) && pod.spec.Valid()
    modifies topology.Repr()
    ensures fresh(c) && fresh(c.hostPortUsage) && c.topology == topology
    ensures topology.Valid() && topology.Repr() == old(topology.Repr())
    ensures ok ==>
      Added(Opened(t, hostname, its), Registered(old(topology.View()), HOSTNAME, hostname), pod, c.View(),
        topology.View())
    ensures !ok ==> topology.View() == Registered(old(topology.View()), HOSTNAME, hostname)
    ensures !ok ==> Refused(Opened(t, hostname, its), topology.View(), pod)
  {
    hide Added, Refused, Topology.View, Topology.Valid, Registered, Accounted, Holds, Suits;
    c := new NodeClaim(t, topology, hostname, its);
    OpenedInv(t, hostname, its);
    ok := c.Add(pod);
  }

  /** Try one node; the others are not affected. */
  method TryNode(nodes: seq<ExistingNode>, i: nat, pod: Pod, topology: Topology) returns (ok: bool)
    requires DistinctNodes(nodes) && i < |nodes| && nodes[i].topology == topology && topology.Valid() &&
      pod.spec.Valid()
    modifies nodes[i], nodes[i].hostPortUsage, nodes[i].volumeUsage, topology.Repr()
    ensures topology.Valid() && topology.Repr() == old(topology.Repr())
    ensures ok ==> NodeAdded(old(nodes[i].View()), old(topology.View()), pod, nodes[i].View(), topology.View())
    ensures !ok ==> nodes[i].View() == old(nodes[i].View()) && topology.View() == old(topology.View())
    ensures !ok ==> NodeRefused(nodes[i].View(), topology.View(), pod)
    ensures NodeViews(nodes) == old(NodeViews(nodes))[i := nodes[i].View()]
  {
    hide NodeAdded, NodeRefused, Topology.View, Topology.Valid;
    ghost var before := NodeViews(nodes);
    ok := nodes[i].Add(pod);
    forall j | 0 <= j < |nodes| && j != i ensures nodes[j].View() == before[j] {}
  }

  method TryClaim(claims: seq<NodeClaim>, i: nat, pod: Pod, topology: Topology) returns (ok: bool)
    requires DistinctClaims(claims) && i < |claims| && claims[i].topology == topology && topology.Valid() &&
      pod.spec.Valid()
    requires WellFormed(claims[i].requirements) && Keyed(claims[i].requirements)
    modifies claims[i], claims[i].hostPortUsage, topology.Repr()
    ensures topology.Valid() && topology.Repr() == old(topology.Repr())
    ensures ok ==> Added(old(claims[i].View()), old(topology.View()), pod, claims[i].View(), topology.View())
    ensures !ok ==> claims[i].View() == old(claims[i].View()) && topology.View() == old(topology.View())
    ensures !ok ==> Refused(claims[i].View(), topology.View(), pod)
    ensures ClaimViews(claims) == old(ClaimViews(claims))[i := claims[i].View()]
  {
    hide Added, Refused, Topology.View, Topology.Valid;
    ghost var before := ClaimViews(claims);
    ok := claims[i].Add(pod);
    forall j | 0 <= j < |claims| && j != i ensures claims[j].View() == before[j] {}
  }

  /** The first node that takes the pod gets it; if none does, all refused and nothing changed. */
  ghost predicate NodesTried(
    at: Option<nat>, before: seq<Existing>, topo: Topo, after: seq<Existing>, topo': Topo, pod: Pod)
    requires pod.spec.Valid()
  {
    && |before| == |after|
    && match at
       case Some(i) =>
         i < |before| && NodeAdded(before[i], topo, pod, after[i], topo') && after == before[i := after[i]] &&
         forall j :: 0 <= j < i ==> NodeRefused(before[j], topo, pod)
       case None =>
         after == before && topo' == topo && forall j :: 0 <= j < |before| ==> NodeRefused(before[j], topo, pod)
  }

  ghost predicate ClaimsTried(at: Option<nat>, before: seq<Claim>, topo: Topo, after: seq<Claim>, topo': Topo, pod: Pod)
    requires pod.spec.Valid()
  {
    && |before| == |after|
    && match at
       case Some(i) =>
         i < |before| && Added(before[i], topo, pod, after[i], topo') && after == before[i := after[i]] &&
         forall j :: 0 <= j < i ==> Refused(before[j], topo, pod)
       case None => after == before && topo' == topo && forall j :: 0 <= j < |before| ==> Refused(before[j], topo, pod)
  }

  /** Try the nodes in order until one takes the pod. */
  method TryNodes(nodes: seq<ExistingNode>, pod: Pod, topology: Topology) returns (at: Option<nat>)
    requires DistinctNodes(nodes) && topology.Valid() && pod.spec.Valid()
    requires forall n :: n in nodes ==> n.topology == topology
    modifies NodeObjects(nodes), topology.Repr()
    ensures topology.Valid() && topology.Repr() == old(topology.Repr())
    ensures NodesTried(at, old(NodeViews(nodes)), old(topology.View()), NodeViews(nodes), topology.View(), pod)
  {
    hide NodeAdded, NodeRefused, Topology.View, Topology.Valid;
    ghost var views, topo := NodeViews(nodes), topology.View();
    for i := 0 to |nodes|
      invariant topology.Valid() && topology.Repr() == old(topology.Repr())
      invariant NodeViews(nodes) == views && topology.View() == topo
      invariant forall j :: 0 <= j < i ==> NodeRefused(views[j], topo, pod)
    {
      assert nodes[i].View() == views[i];
      var ok := TryNode(nodes, i, pod, topology);
      if ok {
        return Some(i);
      }
    }
    at := None;
  }

  method TryClaims(claims: seq<NodeClaim>, pod: Pod, topology: Topology) returns (at: Option<nat>)
    requires DistinctClaims(claims) && topology.Valid() && pod.spec.Valid()
    requires forall c :: c in claims ==> c.topology == topology && WellFormed(c.requirements) && Keyed(c.requirements)
    modifies ClaimObjects(claims), topology.Repr()
    ensures topology.Valid() && topology.Repr() == old(topology.Repr())
    ensures ClaimsTried(at, old(ClaimViews(claims)), old(topology.View()), ClaimViews(claims), topology.View(), pod)
  {
    hide Added, Refused, Topology.View, Topology.Valid, WellFormed, Keyed;
    ghost var views, topo := ClaimViews(claims), topology.View();
    for i := 0 to |claims|
      invariant topology.Valid() && topology.Repr() == old(topology.Repr())
      invariant ClaimViews(claims) == views && topology.View() == topo
      invariant forall j :: 0 <= j < i ==> Refused(views[j], topo, pod)
    {
      assert claims[i].View() == views[i];
      assert WellFormed(views[i].requirements) && Keyed(views[i].requirements);
      var ok := TryClaim(claims, i, pod, topology);
      if ok {
        return Some(i);
      }
    }
    at := None;
  }

  ghost predicate FewestPodsFirst(claims: seq<NodeClaim>) reads claims {
    forall i, j :: 0 <= i < j < |claims| ==> |claims[i].pods| <= |claims[j].pods|
  }

  lemma ViewsFewestFirst(claims: seq<NodeClaim>)
    requires FewestPodsFirst(claims)
    ensures FewestFirst(ClaimViews(claims))
  {}

  /** The claims with the fewest pods first. */
  method SortClaims(claims: seq<NodeClaim>) returns (sorted: seq<NodeClaim>)
    ensures multiset(sorted) == multiset(claims) && FewestPodsFirst(sorted)
  {
    hide FewestPodsFirst;
    sorted := [];
    assert FewestPodsFirst(sorted) by { FewestTrivially(sorted); }
    for i := 0 to |claims|
      invariant multiset(sorted) == multiset(claims[..i]) && FewestPodsFirst(sorted)
    {
      assert claims[..i + 1] == claims[..i] + [claims[i]];
      sorted := InsertClaim(sorted, claims[i]);
    }
    assert claims[..|claims|] == claims;
  }

  lemma FewestTrivially(claims: seq<NodeClaim>)
    ensures |claims| == 0 ==> FewestPodsFirst(claims)
  {}

  method InsertClaim(claims: seq<NodeClaim>, c: NodeClaim) returns (sorted: seq<NodeClaim>)
    requires FewestPodsFirst(claims)
    ensures multiset(sorted) == multiset(claims) + multiset{c} && FewestPodsFirst(sorted)
  {
    hide FewestPodsFirst;
    var k := 0;
    while k < |claims| && |claims[k].pods| <= |c.pods|
      invariant k <= |claims| && forall j :: 0 <= j < k ==> |claims[j].pods| <= |c.pods|
    {
      k := k + 1;
    }
    sorted := claims[..k] + [c] + claims[k..];
    InsertedInOrder(claims, c, k);
    InsertedOnce(claims, c, k);
  }

  lemma InsertedInOrder(claims: seq<NodeClaim>, c: NodeClaim, k: nat)
    requires FewestPodsFirst(claims) && k <= |claims| && (forall j :: 0 <= j < k ==> |claims[j].pods| <= |c.pods|)
    requires k < |claims| ==> |c.pods| <= |claims[k].pods|
    ensures FewestPodsFirst(claims[..k] + [c] + claims[k..])
  {}

  lemma {:induction false} ViewsPermuted(xs: seq<NodeClaim>, ys: seq<NodeClaim>)
    requires multiset(xs) == multiset(ys)
    ensures multiset(ClaimViews(xs)) == multiset(ClaimViews(ys))
    decreases |xs|
  {
    if xs == [] {
      PermutationMembers(xs, ys);
    } else {
      var i := PermutationHead(xs, ys);
      ViewsPermuted(xs[1..], Without(ys, i));
      assert ClaimViews(xs) == [xs[0].View()] + ClaimViews(xs[1..]);
      WithoutMultiset(ClaimViews(ys), i);
      assert Without(ClaimViews(ys), i) == ClaimViews(Without(ys, i));
    }
  }
}
