/**
 The scheduler's working state as a value, and the steps by which one pod is placed:
 on an existing node, on a claim already opened, or on a claim opened for it.
 */
module Plans {
  import opened Common
  import opened Labels
  import opened RequirementSets
  import opened InstanceTypes
  import opened Pods
  import opened Topologies
  import opened AntiAffinitySafety
  import opened AffinityDemands
  import opened NodeClaims
  import opened ExistingNodes
  import opened NodePoolLimits

  datatype Plan = Plan(nodes: seq<Existing>, claims: seq<Claim>, remaining: Budgets, topo: Topo)

  function NodeHost(n: Existing): Host { Host(n.requirements, n.pods) }

  function ClaimHost(c: Claim): Host { Host(c.requirements, c.pods) }

  function Hosts(p: Plan): seq<Host> {
    seq(|p.nodes|, i requires 0 <= i < |p.nodes| => NodeHost(p.nodes[i])) +
    seq(|p.claims|, i requires 0 <= i < |p.claims| => ClaimHost(p.claims[i]))
  }

  lemma HostsMembers(p: Plan, h: Host)
    ensures h in Hosts(p) <==>
      (exists n :: n in p.nodes && NodeHost(n) == h) || (exists c :: c in p.claims && ClaimHost(c) == h)
  {
    var k := |p.nodes|;
    if h in Hosts(p) {
      var i :| 0 <= i < |Hosts(p)| && Hosts(p)[i] == h;
      if i < k {
        assert NodeHost(p.nodes[i]) == h;
      } else {
        assert ClaimHost(p.claims[i - k]) == h;
      }
    }
    forall n | n in p.nodes && NodeHost(n) == h ensures h in Hosts(p) {
      var i :| 0 <= i < k && p.nodes[i] == n;
      assert Hosts(p)[i] == h;
    }
    forall c | c in p.claims && ClaimHost(c) == h ensures h in Hosts(p) {
      var i :| 0 <= i < |p.claims| && p.claims[i] == c;
      assert Hosts(p)[k + i] == h;
    }
  }

  // ----- Steps

  ghost predicate PutOnNode(p: Plan, pod: Pod, i: nat, p': Plan)
    requires pod.spec.Valid()
  {
    && i < |p.nodes| == |p'.nodes|
    && NodeAdded(p.nodes[i], p.topo, pod, p'.nodes[i], p'.topo)
    && p' == p.(nodes := p.nodes[i := p'.nodes[i]], topo := p'.topo)
  }

  ghost predicate PutOnClaim(p: Plan, pod: Pod, i: nat, p': Plan)
    requires pod.spec.Valid()
  {
    && i < |p.claims| == |p'.claims|
    && Added(p.claims[i], p.topo, pod, p'.claims[i], p'.topo)
    && p' == p.(claims := p.claims[i := p'.claims[i]], topo := p'.topo)
  }

  /** The instance types of a pool that its limits still allow. */
  function OnOffer(p: Plan, pool: string, its: seq<InstanceType>): seq<InstanceType> {
    if pool in p.remaining then Affordable(its, p.remaining[pool]) else its
  }

  function Reserved(p: Plan, c: Claim): Budgets {
    p.remaining[c.pool := SubtractMax(if c.pool in p.remaining then p.remaining[c.pool] else map[], c.options)]
  }

  ghost predicate PutOnNew(p: Plan, pod: Pod, t: Template, hostname: string, its: seq<InstanceType>, p': Plan)
    requires pod.spec.Valid()
  {
    && |p'.claims| == |p.claims| + 1
    && var c := p'.claims[|p.claims|];
    && Added(Opened(t, hostname, OnOffer(p, t.pool, its)), Registered(p.topo, HOSTNAME, hostname), pod, c, p'.topo)
    && p' == p.(claims := p.claims + [c], remaining := Reserved(p, c), topo := p'.topo)
  }

  predicate Reordered(p: Plan, p': Plan) {
    multiset(p.claims) == multiset(p'.claims) && p' == p.(claims := p'.claims)
  }

  function Named(p: Plan, hostname: string): Plan { p.(topo := Registered(p.topo, HOSTNAME, hostname)) }

  // ----- What every plan satisfies

  ghost predicate PlanInv(p: Plan, start: Budgets) {
    && (forall n :: n in p.nodes ==> NodeInv(n))
    && (forall c :: c in p.claims ==> ClaimInv(c) && c.pods != [])
    && LimitInv(p.claims, p.remaining, start)
  }

  lemma PutOnNodeKeepsPlan(p: Plan, pod: Pod, i: nat, p': Plan, start: Budgets)
    requires pod.spec.Valid() && PlanInv(p, start) && PutOnNode(p, pod, i, p')
    ensures PlanInv(p', start) && p'.nodes[i].pods == p.nodes[i].pods + [pod]
  {
    hide NodeInv, ClaimInv, LimitInv, NodeAdded;
    AddKeepsNode(p.nodes[i], p.topo, pod, p'.nodes[i], p'.topo);
  }

  lemma PutOnClaimKeepsPlan(p: Plan, pod: Pod, i: nat, p': Plan, start: Budgets)
    requires pod.spec.Valid() && PlanInv(p, start) && PutOnClaim(p, pod, i, p')
    ensures PlanInv(p', start) && p'.claims[i].pods == p.claims[i].pods + [pod]
  {
    hide NodeInv, LimitInv, Added, Accounted, Suits, Holds;
    var c, c' := p.claims[i], p'.claims[i];
    assert c in p.claims;
    AddKeepsClaim(c, p.topo, pod, c', p'.topo);
    SamePool(c, p.topo, pod, c', p'.topo);
    assert Launchable([c']) by { LaunchableOptions(p.claims, p.remaining, start, c, c'); }
    ShrinkKeepsLimits(p.claims, i, c', p.remaining, start);
  }

  lemma SamePool(c: Claim, topo: Topo, pod: Pod, c': Claim, topo': Topo)
    requires pod.spec.Valid() && Added(c, topo, pod, c', topo')
    ensures c'.pool == c.pool
  {}

  lemma LaunchableOptions(claims: seq<Claim>, remaining: Budgets, start: Budgets, c: Claim, c': Claim)
    requires LimitInv(claims, remaining, start) && c in claims && c'.options != [] &&
      forall it :: it in c'.options ==> it in c.options
    ensures Launchable([c'])
  {}

  lemma PutOnNewKeepsPlan(
    p: Plan, pod: Pod, t: Template, hostname: string, its: seq<InstanceType>, p': Plan, start: Budgets)
    requires pod.spec.Valid() && PlanInv(p, start) && ValidTemplate(t) && Physical(its) &&
      PutOnNew(p, pod, t, hostname, its, p')
    ensures PlanInv(p', start) && p'.claims[|p.claims|].pods == [pod] && p'.claims[|p.claims|].pool == t.pool
  {
    hide NodeInv, LimitInv, Added, Accounted, Suits, Holds, SubtractMax;
    var empty, c := Opened(t, hostname, OnOffer(p, t.pool, its)), p'.claims[|p.claims|];
    OpenedInv(t, hostname, OnOffer(p, t.pool, its));
    AddKeepsClaim(empty, Registered(p.topo, HOSTNAME, hostname), pod, c, p'.topo);
    SamePool(empty, Registered(p.topo, HOSTNAME, hostname), pod, c, p'.topo);
    assert forall it :: it in c.options ==> it in its;
    if t.pool in p.remaining {
      OpenKeepsLimits(p.claims, c, p.remaining, start);
    } else {
      OpenUnlimited(p.claims, c, p.remaining, start, SubtractMax(map[], c.options));
    }
  }

  /** A pool that is over one of its limits from the start gets no claim. */
  lemma OverLimitPoolStaysEmpty(p: Plan, start: Budgets, pool: string, r: string)
    requires PlanInv(p, start) && pool in start && r in start[pool] && start[pool][r] < 0
    ensures forall c :: c in p.claims ==> c.pool != pool
  {
    hide NodeInv, ClaimInv, Load, Physical;
    assert WithinBudget(p.claims, p.remaining, start, pool, r);
    LoadNonNegative(p.claims, pool, r);
  }

  lemma ReorderKeepsPlan(p: Plan, p': Plan, start: Budgets)
    requires PlanInv(p, start) && Reordered(p, p')
    ensures PlanInv(p', start)
  {
    hide NodeInv, ClaimInv, LimitInv;
    PermutationMembers(p.claims, p'.claims);
    ReorderKeepsLimits(p.claims, p'.claims, p.remaining, start);
  }

  // ----- Anti-affinity over a plan

  ghost predicate Separated(p: Plan, batch: seq<Pod>) { Inv(Hosts(p), p.topo, batch) }

  /**
   The pod goes to one host, whose requirements come to stay clear of occupied domains; the
   topology records it there.
   */
  ghost predicate Placement(hosts: seq<Host>, topo: Topo, pod: Pod, hosts': seq<Host>, topo': Topo)
    requires pod.spec.Valid()
  {
    exists h, reqs, allow :: PlacementOn(hosts, topo, pod, h, reqs, allow, hosts', topo')
  }

  ghost predicate PlacementOn(
    hosts: seq<Host>, topo: Topo, pod: Pod, h: Host, reqs: Requirements, allow: set<string>, hosts': seq<Host>,
      topo': Topo)
    requires pod.spec.Valid()
  {
    && Clears(topo, pod, h.reqs, reqs) && JoinsAll(topo, pod, StrictPodRequirements(pod.spec), reqs)
    && Placed(hosts, hosts', h, Host(reqs, h.pods + [pod]))
    && topo' == RecordPod(topo, pod, reqs, allow)
  }

  lemma PlacementSeparates(p: Plan, pod: Pod, p': Plan, batch: seq<Pod>)
    requires pod.spec.Valid() && Separated(p, batch) && Placement(Hosts(p), p.topo, pod, Hosts(p'), p'.topo)
    ensures Separated(p', batch)
  {
    hide Inv, Clears, JoinsAll, Placed, Hosts;
    var h, reqs, allow :| PlacementOn(Hosts(p), p.topo, pod, h, reqs, allow, Hosts(p'), p'.topo);
    PlacementKeepsInv(Hosts(p), Hosts(p'), h, reqs, pod, p.topo, allow, batch);
  }

  /** The requirements a host ends up with when the topology answers for a pod. */
  function After(reqs: Requirements, pod: Pod, out: Requirements): Requirements
    requires pod.spec.Valid()
  {
    Meet(Meet(reqs, PodRequirements(pod.spec)), out)
  }

  lemma AnswerPlaces(
    hosts: seq<Host>, topo: Topo, pod: Pod, h: Host, allow: set<string>, out: Requirements, hosts': seq<Host>,
      topo': Topo)
    requires pod.spec.Valid() && WellFormed(h.reqs) && TopoInv(topo, [])
    requires Tightened(topo, pod, StrictPodRequirements(pod.spec), Meet(h.reqs, PodRequirements(pod.spec)), allow, out)
    requires Placed(hosts, hosts', h, Host(After(h.reqs, pod, out), h.pods + [pod]))
    requires topo' == RecordPod(topo, pod, After(h.reqs, pod, out), allow)
    ensures Placement(hosts, topo, pod, hosts', topo')
  {
    hide TopoInv, Clears, JoinsAll, Tightened, Placed, RecordPod, StrictPodRequirements, PodRequirements, Meet;
    HostStep(topo, h.reqs, pod, allow, out);
    assert PlacementOn(hosts, topo, pod, h, After(h.reqs, pod, out), allow, hosts', topo');
  }

  lemma NodeAddedAs(n: Existing, topo: Topo, pod: Pod, n': Existing, topo': Topo) returns (out: Requirements)
    requires pod.spec.Valid() && NodeAdded(n, topo, pod, n', topo')
    ensures Tightened(topo, pod, StrictPodRequirements(pod.spec), Meet(n.requirements, PodRequirements(pod.spec)), {},
      out)
    ensures NodeHost(n') == Host(After(n.requirements, pod, out), n.pods + [pod])
    ensures topo' == RecordPod(topo, pod, After(n.requirements, pod, out), {})
  {
    hide Tightened, RecordPod, StrictPodRequirements, PodRequirements, Meet;
    out :| NodeAddedWith(n, topo, pod, out, n', topo');
  }

  lemma AddedAs(c: Claim, topo: Topo, pod: Pod, c': Claim, topo': Topo) returns (out: Requirements)
    requires pod.spec.Valid() && Added(c, topo, pod, c', topo')
    ensures
      Tightened(topo, pod, StrictPodRequirements(pod.spec), Meet(c.requirements, PodRequirements(pod.spec)),
        WELL_KNOWN, out)
    ensures ClaimHost(c') == Host(After(c.requirements, pod, out), c.pods + [pod])
    ensures topo' == RecordPod(topo, pod, After(c.requirements, pod, out), WELL_KNOWN)
  {
    hide Tightened, RecordPod, StrictPodRequirements, PodRequirements, Meet;
    out :| AddedWith(c, topo, pod, out, c', topo');
  }

  lemma PutOnNodePlaces(p: Plan, pod: Pod, i: nat, p': Plan, start: Budgets)
    requires pod.spec.Valid() && PlanInv(p, start) && TopoInv(p.topo, []) && PutOnNode(p, pod, i, p')
    ensures Placement(Hosts(p), p.topo, pod, Hosts(p'), p'.topo)
  {
    hide TopoInv, NodeInv, ClaimInv, LimitInv, Placement, Placed, Hosts, NodeAdded, Tightened, After;
    var n, n' := p.nodes[i], p'.nodes[i];
    assert n in p.nodes;
    NodeIsWellFormed(n);
    var out := NodeAddedAs(n, p.topo, pod, n', p'.topo);
    OneNodeChanges(p, p', i);
    ReplacedIsPlaced(Hosts(p), i, NodeHost(n'));
    AnswerPlaces(Hosts(p), p.topo, pod, NodeHost(n), {}, out, Hosts(p'), p'.topo);
  }

  lemma OneNodeChanges(p: Plan, p': Plan, i: nat)
    requires i < |p.nodes| == |p'.nodes| && p'.nodes == p.nodes[i := p'.nodes[i]] && p'.claims == p.claims
    ensures i < |Hosts(p)| && Hosts(p)[i] == NodeHost(p.nodes[i]) && Hosts(p') == Hosts(p)[i := NodeHost(p'.nodes[i])]
  {}

  lemma OneClaimChanges(p: Plan, p': Plan, i: nat)
    requires i < |p.claims| == |p'.claims| && p'.claims == p.claims[i := p'.claims[i]] && p'.nodes == p.nodes
    ensures var k := |p.nodes| + i;
      k < |Hosts(p)| && Hosts(p)[k] == ClaimHost(p.claims[i]) && Hosts(p') == Hosts(p)[k := ClaimHost(p'.claims[i])]
  {}

  lemma ReplacedIsPlaced(hosts: seq<Host>, k: nat, h: Host)
    requires k < |hosts|
    ensures Placed(hosts, hosts[k := h], hosts[k], h)
  {
    var after := hosts[k := h];
    assert after[k] == h;
    forall x | x in hosts ensures x in after || x == hosts[k] {
      var i :| 0 <= i < |hosts| && hosts[i] == x;
      assert i != k ==> after[i] == x;
    }
  }

  lemma AddedIsPlaced(hosts: seq<Host>, h: Host, h': Host)
    requires h.pods == [] && WellFormed(h.reqs)
    ensures Placed(hosts, hosts + [h'], h, h')
  {}

  lemma SeparatedTopo(p: Plan, batch: seq<Pod>)
    requires Separated(p, batch)
    ensures TopoInv(p.topo, [])
  {}

  lemma PutOnNodeSeparates(p: Plan, pod: Pod, i: nat, p': Plan, start: Budgets, batch: seq<Pod>)
    requires pod.spec.Valid() && PlanInv(p, start) && Separated(p, batch) && PutOnNode(p, pod, i, p')
    ensures Separated(p', batch)
  {
    hide Separated, PlanInv, PutOnNode, Hosts, Placement;
    SeparatedTopo(p, batch);
    PutOnNodePlaces(p, pod, i, p', start);
    PlacementSeparates(p, pod, p', batch);
  }

  lemma NodeIsWellFormed(n: Existing)
    requires NodeInv(n)
    ensures WellFormed(n.requirements)
  {}

  lemma ClaimIsWellFormed(c: Claim)
    requires ClaimInv(c)
    ensures WellFormed(c.requirements)
  {}

  /** The requirements a placement computes stay clear of the occupied domains. */
  lemma HostStep(topo: Topo, reqs: Requirements, pod: Pod, allow: set<string>, out: Requirements)
    requires pod.spec.Valid() && WellFormed(reqs) && TopoInv(topo, [])
    requires Tightened(topo, pod, StrictPodRequirements(pod.spec), Meet(reqs, PodRequirements(pod.spec)), allow, out)
    ensures var after := Meet(Meet(reqs, PodRequirements(pod.spec)), out);
      Clears(topo, pod, reqs, after) && JoinsAll(topo, pod, StrictPodRequirements(pod.spec), after)
  {
    hide Clears, JoinsAll, Tightened, Meet, PodRequirements, StrictPodRequirements;
    PodRequirementsPlain(pod.spec);
    PlacementJoins(topo, pod, reqs, PodRequirements(pod.spec), StrictPodRequirements(pod.spec), allow, out);
    PlacementClears(topo, pod, reqs, PodRequirements(pod.spec), StrictPodRequirements(pod.spec), allow, out);
  }

  lemma PutOnClaimPlaces(p: Plan, pod: Pod, i: nat, p': Plan, start: Budgets)
    requires pod.spec.Valid() && PlanInv(p, start) && TopoInv(p.topo, []) && PutOnClaim(p, pod, i, p')
    ensures Placement(Hosts(p), p.topo, pod, Hosts(p'), p'.topo)
  {
    hide TopoInv, NodeInv, ClaimInv, LimitInv, Placement, Placed, Hosts, Added, Tightened, After;
    var c, c' := p.claims[i], p'.claims[i];
    assert c in p.claims;
    ClaimIsWellFormed(c);
    var out := AddedAs(c, p.topo, pod, c', p'.topo);
    OneClaimChanges(p, p', i);
    ReplacedIsPlaced(Hosts(p), |p.nodes| + i, ClaimHost(c'));
    AnswerPlaces(Hosts(p), p.topo, pod, ClaimHost(c), WELL_KNOWN, out, Hosts(p'), p'.topo);
  }

  lemma PutOnClaimSeparates(p: Plan, pod: Pod, i: nat, p': Plan, start: Budgets, batch: seq<Pod>)
    requires pod.spec.Valid() && PlanInv(p, start) && Separated(p, batch) && PutOnClaim(p, pod, i, p')
    ensures Separated(p', batch)
  {
    hide Separated, PlanInv, PutOnClaim, Hosts, Placement;
    SeparatedTopo(p, batch);
    PutOnClaimPlaces(p, pod, i, p', start);
    PlacementSeparates(p, pod, p', batch);
  }

  lemma NamedSeparates(p: Plan, hostname: string, batch: seq<Pod>)
    requires Separated(p, batch)
    ensures Separated(Named(p, hostname), batch)
  {
    hide Inv;
    assert Hosts(Named(p, hostname)) == Hosts(p);
    HostnameIsCanonical();
    RegisterKeepsInv(Hosts(p), p.topo, HOSTNAME, hostname, batch);
  }

  lemma OneMoreHost(p: Plan, p': Plan, c: Claim)
    requires p'.nodes == p.nodes && p'.claims == p.claims + [c]
    ensures Hosts(p') == Hosts(p) + [ClaimHost(c)]
  {}

  lemma PutOnNewPlaces(p: Plan, pod: Pod, t: Template, hostname: string, its: seq<InstanceType>, p': Plan)
    requires pod.spec.Valid() && ValidTemplate(t) && TopoInv(Named(p, hostname).topo, []) &&
      PutOnNew(p, pod, t, hostname, its, p')
    ensures Placement(Hosts(p), Named(p, hostname).topo, pod, Hosts(p'), p'.topo)
  {
    hide TopoInv, ClaimInv, Placement, Placed, Hosts, Added, Tightened, After, SubtractMax, Registered;
    var topo := Named(p, hostname).topo;
    var c, c' := Opened(t, hostname, OnOffer(p, t.pool, its)), p'.claims[|p.claims|];
    OpenedInv(t, hostname, OnOffer(p, t.pool, its));
    ClaimIsWellFormed(c);
    var out := AddedAs(c, topo, pod, c', p'.topo);
    OneMoreHost(p, p', c');
    AddedIsPlaced(Hosts(p), ClaimHost(c), ClaimHost(c'));
    AnswerPlaces(Hosts(p), topo, pod, ClaimHost(c), WELL_KNOWN, out, Hosts(p'), p'.topo);
  }

  lemma PutOnNewSeparates(
    p: Plan, pod: Pod, t: Template, hostname: string, its: seq<InstanceType>, p': Plan, batch: seq<Pod>)
    requires pod.spec.Valid() && ValidTemplate(t) && Separated(p, batch)
    requires PutOnNew(p, pod, t, hostname, its, p')
    ensures Separated(p', batch)
  {
    hide Separated, PutOnNew, ValidTemplate, Hosts, Placement, Registered;
    var p0 := Named(p, hostname);
    NamedSeparates(p, hostname, batch);
    SeparatedTopo(p0, batch);
    PutOnNewPlaces(p, pod, t, hostname, its, p');
    assert Hosts(p0) == Hosts(p) by { SameHosts(p, p0); }
    PlacementSeparates(p0, pod, p', batch);
  }

  lemma SameHosts(p: Plan, p': Plan)
    requires p'.nodes == p.nodes && p'.claims == p.claims
    ensures Hosts(p') == Hosts(p)
  {}

  lemma ReorderSeparates(p: Plan, p': Plan, batch: seq<Pod>)
    requires Separated(p, batch) && Reordered(p, p')
    ensures Separated(p', batch)
  {
    hide HostInv, TopoInv, Hosts;
    PermutationMembers(p.claims, p'.claims);
    forall h | h in Hosts(p') ensures h in Hosts(p) {
      HostsMembers(p, h);
      HostsMembers(p', h);
    }
  }
}
