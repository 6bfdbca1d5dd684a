/**
 What a run means for the pods it was given.  A pod may be relaxed before it is placed,
 but what is placed is one of the given pods with everything that pod insists on.
 */
module GivenPods {
  import opened RequirementSets
  import opened Pods
  import opened PreferenceRelaxation
  import opened TopologyGroups
  import opened Topologies
  import opened AntiAffinitySafety
  import opened NodeClaims
  import opened ExistingNodes
  import opened NodePoolLimits
  import opened Plans
  import opened Scheduling
  import opened SchedulerSetup
  import opened Solving

  /** The placed pod is the given one, relaxed in what it does not insist on. */
  ghost predicate StandsFor(placed: Pod, given: Pod) {
    placed == given.(spec := placed.spec) && KeepsHardTerms(given.spec, placed.spec)
  }

  /** Every placed pod comes from one of the given ones. */
  ghost predicate AllPlacedFrom(hosts: seq<Host>, given: seq<Pod>, tolerate: bool) {
    forall h, v :: h in hosts && v in h.pods ==> From(given, v, tolerate)
  }

  lemma FromStandsFor(given: seq<Pod>, v: Pod, tolerate: bool) returns (o: Pod)
    requires AllSpecsValid(given) && From(given, v, tolerate)
    ensures o in given && Reaches(o.spec, v.spec, tolerate) && StandsFor(v, o) && v.spec.Valid()
  {
    hide KeepsHardTerms, Reaches, PodSpec.Valid;
    o :| o in given && v == o.(spec := v.spec) && Reaches(o.spec, v.spec, tolerate);
    ReachedKeepsHardTerms(o.spec, v.spec, tolerate);
  }

  lemma SameIdentity(given: seq<Pod>, a: Pod, b: Pod)
    requires DistinctPods(given) && a in given && b in given && a.uid == b.uid
    ensures a == b
  {
    var i, j :| 0 <= i < |given| && given[i] == a && 0 <= j < |given| && given[j] == b;
    assert given[i].uid == given[j].uid;
  }

  predicate IsOn(h: Host, uid: UID) { exists v :: v in h.pods && v.uid == uid }

  /** A given pod that is on a host is there as itself. */
  lemma OnAsItself(h: Host, o: Pod, given: seq<Pod>, tolerate: bool) returns (v: Pod)
    requires AllSpecsValid(given) && DistinctPods(given) && o in given && IsOn(h, o.uid) &&
      AllPlacedFrom([h], given, tolerate)
    ensures v in h.pods && StandsFor(v, o) && v.spec.Valid()
  {
    hide KeepsHardTerms, PodSpec.Valid;
    v :| v in h.pods && v.uid == o.uid;
    assert h in [h];
    var g := FromStandsFor(given, v, tolerate);
    assert g == o by { SameIdentity(given, g, o); }
  }

  // ----- Anti-affinity between the given pods

  /** If one of two given pods repels the other, no label value is left to the hosts of both. */
  ghost predicate KeptApart(hosts: seq<Host>, given: seq<Pod>) {
    forall a, b, p, q, t ::
      a in hosts && b in hosts && p in given && q in given && p.uid != q.uid && IsOn(a, p.uid) && IsOn(b, q.uid) &&
      Carries(p, t) && AntiId(t).Selects(q) ==>
        Apart(a, b, t.topologyKey)
  }

  lemma SafeKeepsApart(hosts: seq<Host>, batch: seq<Pod>, given: seq<Pod>, tolerate: bool)
    requires Safe(hosts, batch) && AllPlacedFrom(hosts, given, tolerate)
    requires AllSpecsValid(given) && DistinctPods(given) && forall b :: b in batch ==> b in given
    ensures KeptApart(hosts, batch)
  {
    hide Apart, GroupId.Selects, PodSpec.Valid, From, DistinctPods;
    forall a, b, p, q, t |
      a in hosts && b in hosts && p in batch && q in batch && p.uid != q.uid && IsOn(a, p.uid) && IsOn(b, q.uid) &&
      Carries(p, t) && AntiId(t).Selects(q)
      ensures Apart(a, b, t.topologyKey)
    {
      var p' := OnAsItself(a, p, given, tolerate);
      var q' := OnAsItself(b, q, given, tolerate);
      assert InBatch(batch, p') && InBatch(batch, q') && Carries(p', t);
      SameSelection(AntiId(t), q, q');
    }
  }

  lemma SameSelection(id: GroupId, o: Pod, v: Pod)
    requires v == o.(spec := v.spec)
    ensures id.Selects(v) == id.Selects(o)
  {}

  // ----- Nodes for the given pods

  /**
   Labels within the requirements satisfy the pod's node selector and one of its required
   terms, and it tolerates the taints.
   */
  ghost predicate Serves(reqs: Requirements, taints: seq<Taint>, o: Pod)
    requires o.spec.Valid()
  {
    && ToleratesAll(taints, o.spec.tolerations + [PREFER_NO_SCHEDULE])
    && Narrows(reqs, LabelRequirements(o.spec.nodeSelector))
    && (o.spec.required.Some? && o.spec.required.value != [] ==>
          exists i :: 0 <= i < |o.spec.required.value| && Narrows(reqs, Folded(o.spec.required.value[i])))
  }

  lemma MoreTolerations(taints: seq<Taint>, some: seq<Toleration>, more: seq<Toleration>)
    requires ToleratesAll(taints, some) && forall t :: t in some ==> t in more
    ensures ToleratesAll(taints, more)
  {
    forall i | 0 <= i < |taints| ensures Tolerated(taints[i], more) {
      var j :| 0 <= j < |some| && some[j].Tolerates(taints[i]);
      assert some[j] in more;
    }
  }

  lemma PodRequirementsNarrowSelector(spec: PodSpec)
    requires spec.Valid()
    ensures Narrows(PodRequirements(spec), LabelRequirements(spec.nodeSelector))
  {
    hide HeaviestPreference, Folded, LabelRequirements, Meet;
    var base, preference := LabelRequirements(spec.nodeSelector), HeaviestPreference(spec);
    forall k, v | Allows(PodRequirements(spec), k, v) ensures Allows(base, k, v) {
      var wanted := if preference.Some? then Meet(base, Folded(preference.value)) else base;
      if spec.required.Some? && spec.required.value != [] {
        MeetAllows(wanted, Folded(spec.required.value[0]), k, v);
      }
      if preference.Some? {
        MeetAllows(base, Folded(preference.value), k, v);
      }
    }
  }

  lemma PlacedIsServed(reqs: Requirements, taints: seq<Taint>, v: Pod, o: Pod)
    requires o.spec.Valid() && v.spec.Valid() && StandsFor(v, o)
    requires ToleratesAll(taints, v.spec.tolerations) && Narrows(reqs, PodRequirements(v.spec))
    ensures Serves(reqs, taints, o)
  {
    hide PodRequirements, LabelRequirements, Folded, ToleratesAll, PodSpec.Valid, Narrows;
    MoreTolerations(taints, v.spec.tolerations, o.spec.tolerations + [PREFER_NO_SCHEDULE]);
    PodRequirementsNarrowSelector(v.spec);
    NarrowsFurther(reqs, PodRequirements(v.spec), LabelRequirements(o.spec.nodeSelector));
    if o.spec.required.Some? && o.spec.required.value != [] {
      var t := v.spec.required.value[0];
      assert t in v.spec.required.value && t in o.spec.required.value;
      var i :| 0 <= i < |o.spec.required.value| && o.spec.required.value[i] == t;
      FirstTermNarrows(v.spec);
      TermIsPlain(o.spec, i);
      NarrowsFurther(reqs, PodRequirements(v.spec), Folded(t));
      assert Narrows(reqs, Folded(o.spec.required.value[i]));
    }
  }

  lemma TermIsPlain(spec: PodSpec, i: nat)
    requires spec.Valid() && spec.required.Some? && i < |spec.required.value|
    ensures PlainTerm(spec.required.value[i])
  {}

  lemma FirstTermNarrows(spec: PodSpec)
    requires spec.Valid() && spec.required.Some? && spec.required.value != []
    ensures PlainTerm(spec.required.value[0]) && Narrows(PodRequirements(spec), Folded(spec.required.value[0]))
  {
    hide HeaviestPreference;
    RequirementsWithNarrows(spec, HeaviestPreference(spec));
  }

  /** Wherever a given pod is, the node or claim serves it. */
  ghost predicate AllServed(p: Plan, given: seq<Pod>)
    requires AllSpecsValid(given)
  {
    && (forall n, o :: n in p.nodes && o in given && IsOn(NodeHost(n), o.uid) ==>
      Serves(n.requirements, n.node.taints, o))
    && (forall c, o :: c in p.claims && o in given && IsOn(ClaimHost(c), o.uid) ==> Serves(c.requirements, c.taints, o))
  }

  lemma PlanServes(p: Plan, start: Budgets, given: seq<Pod>, tolerate: bool)
    requires PlanInv(p, start) && AllSpecsValid(given) && DistinctPods(given) &&
      AllPlacedFrom(Hosts(p), given, tolerate)
    ensures AllServed(p, given)
  {
    hide Hosts, From, LimitInv, Serves, Narrows, PodRequirements, ToleratesAll, PodSpec.Valid, DistinctPods, IsOn,
      StandsFor, Accounted, NodeAccounted, Suits, WithinAllocatable, WellFormed, Reserves, DistinctKeys;
    forall n, o | n in p.nodes && o in given && IsOn(NodeHost(n), o.uid)
      ensures Serves(n.requirements, n.node.taints, o) {
      HostsMembers(p, NodeHost(n));
      var v := OnAsItself(NodeHost(n), o, given, tolerate);
      assert NodeHolds(n, v);
      PlacedIsServed(n.requirements, n.node.taints, v, o);
    }
    forall c, o | c in p.claims && o in given && IsOn(ClaimHost(c), o.uid) ensures Serves(c.requirements, c.taints, o) {
      HostsMembers(p, ClaimHost(c));
      var v := OnAsItself(ClaimHost(c), o, given, tolerate);
      assert Holds(c, v);
      PlacedIsServed(c.requirements, c.taints, v, o);
    }
  }

  // ----- The pods of a plan

  lemma {:induction false} OnSomeNode(nodes: seq<Existing>, n: Existing, v: Pod)
    requires n in nodes && v in n.pods
    ensures v in PodsOnNodes(nodes)
  {
    if n != nodes[0] {
      OnSomeNode(nodes[1..], n, v);
    }
  }

  lemma {:induction false} OnSomeClaim(claims: seq<Claim>, c: Claim, v: Pod)
    requires c in claims && v in c.pods
    ensures v in PodsOnClaims(claims)
  {
    if c != claims[0] {
      OnSomeClaim(claims[1..], c, v);
    }
  }

  lemma HostedIsPlaced(p: Plan, h: Host, v: Pod)
    requires h in Hosts(p) && v in h.pods
    ensures v in PlacedPods(p)
  {
    hide Hosts, PodsOnNodes, PodsOnClaims;
    HostsMembers(p, h);
    if n :| n in p.nodes && NodeHost(n) == h {
      OnSomeNode(p.nodes, n, v);
    } else {
      var c :| c in p.claims && ClaimHost(c) == h;
      OnSomeClaim(p.claims, c, v);
    }
  }

  // ----- Runs

  /** The plan a run starts with: nothing placed, and the topology just built. */
  ghost predicate Begins(
    p: Plan, start: Budgets, batch: seq<Pod>, orders: seq<bool>, running: seq<Running>, around: Circumstances,
      nodes: seq<NodeSnapshot>)
  {
    && AllSpecsValid(batch) && DistinctPods(batch) && |orders| == |batch|
    && InitialTopo(batch, orders, running, around.universe, around.lookup).1
    && p.topo == RegisteredNodes(InitialTopo(batch, orders, running, around.universe, around.lookup).0, nodes)
    && PlanInv(p, start) && Separated(p, batch) && (forall h :: h in Hosts(p) ==> h.pods == [])
    && (forall t :: t in around.templates ==> ValidTemplate(t))
    && (forall pool :: pool in around.catalog ==> Physical(around.catalog[pool]))
  }

  /** The run tries the given pods, and ends with some of them placed. */
  ghost predicate RunOf(plans: seq<Plan>, steps: seq<Step>, around: Circumstances, given: seq<Pod>) {
    && |plans| == |steps| + 1 && Traced(plans, steps, around) && AllSpecsValid(given) && DistinctPods(given)
    && (forall i :: 0 <= i < |steps| ==> From(given, steps[i].pod, around.tolerate))
    && AllPlacedFrom(Hosts(plans[|steps|]), given, around.tolerate)
  }
}
