/**
 Required anti-affinity between the pods of a run and those that run already.  A domain
 that a running pod's term guards, or that holds a pod which a term of the batch repels,
 is marked from the start; a mark never goes away, and no pod it concerns ends up on a
 host that still allows the domain.
 */
module RunningPodSafety {
  import opened Common
  import opened Labels
  import opened RequirementSets
  import opened Pods
  import opened PreferenceRelaxation
  import opened TopologyGroups
  import opened Topologies
  import opened AntiAffinitySafety
  import opened AffinityDemands
  import opened RelaxedLookups
  import opened NodeClaims
  import opened ExistingNodes
  import opened NodePoolLimits
  import opened Plans
  import opened Scheduling
  import opened SchedulerSetup
  import opened Solving
  import opened PlanMoves
  import opened GivenPods

  // ----- Marks

  /** A domain of an anti-affinity group that holds a pod already. */
  datatype Mark = Mark(ref: Ref, domain: string)

  predicate MarkHolds(topo: Topo, m: Mark) {
    && m.ref.id.kind.PodAntiAffinity? && m.ref.id.nodeFilter == {}
    && Present(topo, m.ref) && At(topo, m.ref).Count(m.domain) > 0
  }

  /** An inverse group concerns the pods it selects, a group the batch pods whose term it stands for. */
  predicate Concerns(m: Mark, pod: Pod, batch: seq<Pod>) {
    match m.ref
    case Inverse(id) => id.Selects(pod)
    case Direct(id) => InBatch(batch, pod) && exists t :: t in pod.spec.podAntiAffinity && AntiId(t) == id
  }

  /** No pod that the mark concerns is on a host that allows the domain. */
  ghost predicate Avoids(hosts: seq<Host>, m: Mark, batch: seq<Pod>) {
    forall h, q :: h in hosts && q in h.pods && Concerns(m, q, batch) ==> !Allows(h.reqs, m.ref.id.key, m.domain)
  }

  lemma GrowsKeepsMark(topo: Topo, topo': Topo, m: Mark)
    requires Grows(topo.topologies, topo'.topologies) && Grows(topo.inverse, topo'.inverse) && MarkHolds(topo, m)
    ensures MarkHolds(topo', m)
  {}

  /** A pod that the mark concerns is placed clear of the domain. */
  lemma ClearedAvoids(topo: Topo, pod: Pod, before: Requirements, after: Requirements, m: Mark, batch: seq<Pod>)
    requires TopoInv(topo, batch) && Clears(topo, pod, before, after) && MarkHolds(topo, m) && Concerns(m, pod, batch)
    ensures !Allows(after, m.ref.id.key, m.domain)
  {
    hide Narrows, GroupId.Selects, WellFormed;
    if m.ref.Direct? {
      var b :| b in batch && SamePod(b, pod);
      assert Owns(topo, b);
      assert OwnedIn(topo.topologies, m.ref.id, pod.uid);
    }
    assert ClearOf(after, At(topo, m.ref));
  }

  lemma PlacementAvoids(
    hosts: seq<Host>, topo: Topo, pod: Pod, hosts': seq<Host>, topo': Topo, m: Mark, batch: seq<Pod>)
    requires pod.spec.Valid() && TopoInv(topo, batch) && Placement(hosts, topo, pod, hosts', topo')
    requires MarkHolds(topo, m) && Avoids(hosts, m, batch)
    ensures MarkHolds(topo', m) && Avoids(hosts', m, batch)
  {
    hide Clears, JoinsAll, Concerns, MarkHolds, RecordPod, PodSpec.Valid;
    var h, reqs, allow :| PlacementOn(hosts, topo, pod, h, reqs, allow, hosts', topo');
    RecordGrows(topo, pod, reqs, allow);
    GrowsKeepsMark(topo, topo', m);
    ClearsNarrows(topo, pod, h.reqs, reqs);
    forall x, q | x in hosts' && q in x.pods && Concerns(m, q, batch) ensures !Allows(x.reqs, m.ref.id.key, m.domain) {
      if x !in hosts {
        assert x == Host(reqs, h.pods + [pod]);
        if q !in h.pods {
          ClearedAvoids(topo, pod, h.reqs, reqs, m, batch);
        }
      }
    }
  }

  // ----- One attempt

  lemma MovesAvoid(p: Plan, pod: Pod, p': Plan, m: Mark, batch: seq<Pod>)
    requires pod.spec.Valid() && Moves(p, pod, p') && TopoInv(p.topo, batch)
    requires MarkHolds(p.topo, m) && Avoids(Hosts(p), m, batch)
    ensures MarkHolds(p'.topo, m) && Avoids(Hosts(p'), m, batch)
  {
    hide TopoInv, Grows, MarkHolds, Concerns, Untouched, Placement, Hosts;
    if Untouched(p, p') {
      UntouchedKeepsTopo(p, p', batch);
      GrowsKeepsMark(p.topo, p'.topo, m);
    } else {
      var p1 :| Untouched(p, p1) && Placement(Hosts(p1), p1.topo, pod, Hosts(p'), p'.topo);
      UntouchedKeepsTopo(p, p1, batch);
      GrowsKeepsMark(p.topo, p1.topo, m);
      PlacementAvoids(Hosts(p1), p1.topo, pod, Hosts(p'), p'.topo, m, batch);
    }
  }

  // ----- Over a run

  /** The step is about a pod that can be followed, and that is the batch pod of the same identity if there is one. */
  ghost predicate Followed(step: Step, around: Circumstances, batch: seq<Pod>) {
    Identified(batch, step.pod) && Follows(step.pod, batch, around.tolerate, around.lookup)
  }

  lemma StepAvoids(p: Plan, step: Step, p': Plan, around: Circumstances, start: Budgets, m: Mark, batch: seq<Pod>)
    requires Leads(p, step, p', around) && Followed(step, around, batch) && DistinctPods(batch)
    requires forall t :: t in around.templates ==> ValidTemplate(t)
    requires forall pool :: pool in around.catalog ==> Physical(around.catalog[pool])
    requires PlanInv(p, start) && Separated(p, batch) && MarkHolds(p.topo, m) && Avoids(Hosts(p), m, batch)
    ensures PlanInv(p', start) && Separated(p', batch) && MarkHolds(p'.topo, m) && Avoids(Hosts(p'), m, batch)
  {
    hide Attempted, PlanInv, Updated, Relaxed, ValidTemplate, Physical, PodSpec.Valid, Separated, PlacedPods,
      MarkHolds, Avoids, Hosts, Follows, Identified, DistinctPods, Moves;
    var ok, tried := step.outcome.Done?, step.tried;
    AttemptKeeps(ok, p, step.pod, around.templates, around.catalog, tried, start, batch);
    SeparatedTopo(p, batch);
    AttemptMoves(ok, p, step.pod, around.templates, around.catalog, tried, start);
    assert TopoInv(p.topo, batch) by { SeparatedMeans(p, batch); }
    MovesAvoid(p, step.pod, tried, m, batch);
    if step.outcome.Relaxing? {
      var relaxed := step.pod.(spec := Relaxed(step.pod.spec, around.tolerate).value);
      RelaxedStaysIdentified(step.pod, around.tolerate, batch);
      RelaxedFollows(step.pod, batch, around.tolerate, around.lookup);
      FollowingCanOwn(tried.topo.topologies, relaxed, batch, around.tolerate, around.lookup);
      UpdatedPlanKeeps(tried, relaxed, step.antiFirst, around.universe, around.lookup, start, batch);
      SeparatedMeans(tried, batch);
      UpdateKeepsMark(tried.topo, relaxed, step.antiFirst, around.universe, around.lookup, m);
      assert Hosts(p') == Hosts(tried) by { SameHosts(tried, p'); }
    }
  }

  lemma SeparatedMeans(p: Plan, batch: seq<Pod>)
    requires Separated(p, batch)
    ensures TopoInv(p.topo, batch) && AllConsistent(p.topo.topologies) && AllConsistent(p.topo.inverse)
  {}

  lemma UpdateKeepsMark(topo: Topo, pod: Pod, antiFirst: bool, universe: Universe, lookup: Lookup, m: Mark)
    requires pod.spec.Valid() && AllConsistent(topo.topologies) && AllConsistent(topo.inverse) && MarkHolds(topo, m)
    ensures MarkHolds(Updated(topo, pod, antiFirst, universe, lookup).0, m)
  {
    hide Updated, AllConsistent, KeepsGroups, Grows, MarkHolds, Owns, RequiredCanOwn;
    var topo' := Updated(topo, pod, antiFirst, universe, lookup).0;
    UpdateKeeps(topo, pod, antiFirst, universe, lookup);
    KeepsGrowsBoth(topo, topo', pod.uid);
    GrowsKeepsMark(topo, topo', m);
  }

  /** Over a whole run a marked domain stays marked, and the pods it concerns stay clear of it. */
  lemma {:induction false} RunAvoids(
    plans: seq<Plan>, steps: seq<Step>, around: Circumstances, start: Budgets, m: Mark, batch: seq<Pod>, n: nat)
    requires |plans| == |steps| + 1 && Traced(plans, steps, around) && n < |plans| && DistinctPods(batch)
    requires forall t :: t in around.templates ==> ValidTemplate(t)
    requires forall pool :: pool in around.catalog ==> Physical(around.catalog[pool])
    requires PlanInv(plans[0], start) && Separated(plans[0], batch) && MarkHolds(plans[0].topo, m) &&
      Avoids(Hosts(plans[0]), m, batch)
    requires forall i :: 0 <= i < |steps| ==> Followed(steps[i], around, batch)
    ensures PlanInv(plans[n], start) && Separated(plans[n], batch) && MarkHolds(plans[n].topo, m) &&
      Avoids(Hosts(plans[n]), m, batch)
  {
    hide Leads, PlanInv, Separated, MarkHolds, Avoids, Followed, ValidTemplate, Physical, Hosts, DistinctPods;
    if n > 0 {
      RunAvoids(plans, steps, around, start, m, batch, n - 1);
      assert Leads(plans[n - 1], steps[n - 1], plans[n - 1 + 1], around);
      StepAvoids(plans[n - 1], steps[n - 1], plans[n], around, start, m, batch);
    }
  }

  // ----- The marks a run starts with

  /** Every term of a pod that runs on a labelled node leaves its mark. */
  lemma {:induction false} OwnInverseMarks(
    gs: Groups, terms: seq<PodTerm>, uid: UID, universe: Universe, labels: map<string, string>)
    requires AllConsistent(gs)
    ensures Grows(gs, OwnInverse(gs, terms, uid, universe, labels))
    ensures forall t :: t in terms && t.topologyKey in labels ==>
              var gs' := OwnInverse(gs, terms, uid, universe, labels);
              AntiId(t) in gs' && gs'[AntiId(t)].Count(labels[t.topologyKey]) > 0
  {
    hide OwnInverseOne, AllConsistent, Group.Count;
    if terms != [] {
      var n := |terms| - 1;
      var before := OwnInverse(gs, terms[..n], uid, universe, labels);
      OwnInverseMarks(gs, terms[..n], uid, universe, labels);
      OwnInverseKeeps(gs, terms[..n], uid, universe, labels);
      OwnInverseOneMarks(before, terms[n], uid, universe, labels);
      assert forall t :: t in terms ==> t in terms[..n] || t == terms[n];
    }
  }

  lemma OwnInverseOneMarks(gs: Groups, t: PodTerm, uid: UID, universe: Universe, labels: map<string, string>)
    requires AllConsistent(gs)
    ensures var gs' := OwnInverseOne(gs, AntiId(t), uid, universe, labels);
      && Grows(gs, gs') && AntiId(t) in gs'
      && (t.topologyKey in labels ==> gs'[AntiId(t)].Count(labels[t.topologyKey]) > 0)
  {}

  lemma {:induction false} TrackedMarks(
    gs: Groups, running: seq<Running>, excluded: set<UID>, universe: Universe, r: Running, t: PodTerm)
    requires AllConsistent(gs) && r in running && r.pod.uid !in excluded
    requires t in r.pod.spec.podAntiAffinity && t.topologyKey in r.labels
    ensures var gs' := TrackRunning(gs, running, excluded, universe);
      AntiId(t) in gs' && gs'[AntiId(t)].Count(r.labels[t.topologyKey]) > 0
    decreases |running|
  {
    hide OwnInverse, AllConsistent, Group.Count;
    var n := |running| - 1;
    var before, last := TrackRunning(gs, running[..n], excluded, universe), running[n];
    TrackRunningIsConsistent(gs, running[..n], excluded, universe);
    OwnInverseMarks(before, last.pod.spec.podAntiAffinity, last.pod.uid, universe, last.labels);
    if r != last {
      assert r in running[..n];
      TrackedMarks(gs, running[..n], excluded, universe, r, t);
    }
  }

  /** The term is one of a running pod that is not about to be scheduled again, and guards the domain. */
  predicate Guards(r: Running, excluded: set<UID>, id: GroupId, d: string) {
    r.pod.uid !in excluded &&
    exists t :: t in r.pod.spec.podAntiAffinity && AntiId(t) == id && t.topologyKey in r.labels &&
                r.labels[t.topologyKey] == d
  }

  lemma {:induction false} OwnInverseMarksOnly(
    gs: Groups, terms: seq<PodTerm>, uid: UID, universe: Universe, labels: map<string, string>, id: GroupId, d: string)
    requires WellKeyed(gs)
    ensures var gs' := OwnInverse(gs, terms, uid, universe, labels);
      && WellKeyed(gs')
      && (id in gs' && gs'[id].Count(d) > 0 ==>
            || (id in gs && gs[id].Count(d) > 0)
            || exists t :: t in terms && AntiId(t) == id && t.topologyKey in labels && labels[t.topologyKey] == d)
  {
    hide CanonicalUniverse;
    if terms != [] {
      var n := |terms| - 1;
      OwnInverseMarksOnly(gs, terms[..n], uid, universe, labels, id, d);
      assert terms[n] in terms && forall t :: t in terms[..n] ==> t in terms;
    }
  }

  /** A domain of an inverse group is marked at the start only if such a term guards it. */
  lemma {:induction false} MarkedByRunning(
    running: seq<Running>, excluded: set<UID>, universe: Universe, id: GroupId, d: string)
    ensures var gs := TrackRunning(map[], running, excluded, universe);
      && WellKeyed(gs)
      && (id in gs && gs[id].Count(d) > 0 ==> exists r :: r in running && Guards(r, excluded, id, d))
  {
    hide OwnInverse, Group.Count;
    if running != [] {
      var n := |running| - 1;
      var before, r := TrackRunning(map[], running[..n], excluded, universe), running[n];
      MarkedByRunning(running[..n], excluded, universe, id, d);
      OwnInverseMarksOnly(before, r.pod.spec.podAntiAffinity, r.pod.uid, universe, r.labels, id, d);
      assert forall x :: x in running[..n] ==> x in running;
      assert r in running;
    }
  }

  /** Every count of a group is the number of times its domain was listed. */
  ghost predicate CountsListed(gs: Groups, lookup: Lookup) {
    forall id :: id in gs ==> lookup(id).Some? && forall d :: gs[id].Count(d) == multiset(lookup(id).value)[d]
  }

  lemma OwnOneCounts(gs: Groups, a: Ask, uid: UID, universe: Universe, lookup: Lookup)
    requires CountsListed(gs, lookup)
    ensures CountsListed(OwnOne(gs, a, uid, universe, lookup).0, lookup)
  {
    hide RecordEach;
    var gs' := OwnOne(gs, a, uid, universe, lookup).0;
    if a.id !in gs && lookup(a.id).Some? {
      var g, ds := NewGroup(a.id, a.minDomains, DomainsOf(universe, a.id.key)), lookup(a.id).value;
      forall d ensures gs'[a.id].Count(d) == multiset(ds)[d] {
        RecordEachCounts(g, ds, d);
        assert g.Count(d) == 0;
      }
    }
  }

  lemma {:induction false} OwnAskedCounts(gs: Groups, asks: seq<Ask>, uid: UID, universe: Universe, lookup: Lookup)
    requires CountsListed(gs, lookup)
    ensures CountsListed(OwnAsked(gs, asks, uid, universe, lookup).0, lookup)
  {
    hide OwnOne, CountsListed;
    if asks != [] {
      var n := |asks| - 1;
      OwnAskedCounts(gs, asks[..n], uid, universe, lookup);
      OwnOneCounts(OwnAsked(gs, asks[..n], uid, universe, lookup).0, asks[n], uid, universe, lookup);
    }
  }

  lemma DisownCounts(gs: Groups, uid: UID, lookup: Lookup)
    requires CountsListed(gs, lookup)
    ensures CountsListed(Disown(gs, uid), lookup)
  {}

  lemma {:induction false} UpdatedEachCounts(
    t: Topo, pods: seq<Pod>, orders: seq<bool>, universe: Universe, lookup: Lookup)
    requires AllSpecsValid(pods) && |orders| == |pods|
    requires AllConsistent(t.topologies) && AllConsistent(t.inverse) && CountsListed(t.topologies, lookup)
    ensures var t' := UpdatedEach(t, pods, orders, universe, lookup).0;
      && AllConsistent(t'.topologies) && AllConsistent(t'.inverse) && CountsListed(t'.topologies, lookup)
      && (forall m :: MarkHolds(t, m) ==> MarkHolds(t', m))
    decreases |pods|
  {
    hide OwnAsked, OwnInverse, CountsListed, Asks, AllConsistent, MarkHolds, Disown;
    if pods != [] {
      var n := |pods| - 1;
      var before := UpdatedEach(t, pods[..n], orders[..n], universe, lookup).0;
      UpdatedEachCounts(t, pods[..n], orders[..n], universe, lookup);
      UpdateKeeps(before, pods[n], orders[n], universe, lookup);
      DisownCounts(before.topologies, pods[n].uid, lookup);
      OwnAskedCounts(Disown(before.topologies, pods[n].uid), Asks(pods[n], orders[n]), pods[n].uid, universe, lookup);
      forall m | MarkHolds(before, m) ensures MarkHolds(Updated(before, pods[n], orders[n], universe, lookup).0, m) {
        UpdateKeepsMark(before, pods[n], orders[n], universe, lookup, m);
      }
    }
  }

  /** A run starts with the counts of the pods that were listed, and with the marks of those that are tracked. */
  lemma StartCounts(
    batch: seq<Pod>, orders: seq<bool>, running: seq<Running>, universe: Universe, lookup: Lookup,
      nodes: seq<NodeSnapshot>)
    requires AllSpecsValid(batch) && |orders| == |batch|
    ensures var excluded := set p | p in batch :: p.uid;
      var start := Topo(map[], TrackRunning(map[], running, excluded, universe));
      var topo := RegisteredNodes(InitialTopo(batch, orders, running, universe, lookup).0, nodes);
      && AllConsistent(topo.topologies) && AllConsistent(topo.inverse)
      && CountsListed(topo.topologies, lookup) && (forall m :: MarkHolds(start, m) ==> MarkHolds(topo, m))
  {
    hide UpdatedEach, TrackRunning, CountsListed, AllConsistent, MarkHolds;
    var excluded := set p | p in batch :: p.uid;
    var start := Topo(map[], TrackRunning(map[], running, excluded, universe));
    TrackRunningIsConsistent(map[], running, excluded, universe) by { NoGroups(lookup); }
    NoGroups(lookup);
    UpdatedEachCounts(start, batch, orders, universe, lookup);
    RegisteredCounts(InitialTopo(batch, orders, running, universe, lookup).0, nodes, lookup);
  }

  lemma NoGroups(lookup: Lookup)
    ensures AllConsistent(map[]) && CountsListed(map[], lookup)
  {}

  lemma {:induction false} RegisteredCounts(topo: Topo, nodes: seq<NodeSnapshot>, lookup: Lookup)
    requires AllConsistent(topo.topologies) && AllConsistent(topo.inverse) && CountsListed(topo.topologies, lookup)
    ensures var topo' := RegisteredNodes(topo, nodes);
      && AllConsistent(topo'.topologies) && AllConsistent(topo'.inverse) && CountsListed(topo'.topologies, lookup)
      && (forall m :: MarkHolds(topo, m) ==> MarkHolds(topo', m))
  {
    hide AllConsistent, CountsListed, MarkHolds, RegisterIn;
    if nodes != [] {
      var n := |nodes| - 1;
      RegisteredCounts(topo, nodes[..n], lookup);
      var before := RegisteredNodes(topo, nodes[..n]);
      HostnameIsCanonical();
      RegisterGrows(before.topologies, HOSTNAME, nodes[n].hostname);
      RegisterGrows(before.inverse, HOSTNAME, nodes[n].hostname);
      RegisterCounts(before.topologies, HOSTNAME, nodes[n].hostname, lookup);
      forall m | MarkHolds(before, m) ensures MarkHolds(Registered(before, HOSTNAME, nodes[n].hostname), m) {
        GrowsKeepsMark(before, Registered(before, HOSTNAME, nodes[n].hostname), m);
      }
    }
  }

  lemma RegisterCounts(gs: Groups, key: string, domain: string, lookup: Lookup)
    requires CountsListed(gs, lookup)
    ensures CountsListed(RegisterIn(gs, key, domain), lookup)
  {}

  // ----- What that means for the given pods

  /** No given pod is where the term of a running pod guards the domain against it. */
  ghost predicate ClearOfRunning(hosts: seq<Host>, given: seq<Pod>, running: seq<Running>, excluded: set<UID>) {
    forall h, q, r, t ::
      h in hosts && q in given && IsOn(h, q.uid) && r in running && r.pod.uid !in excluded && Carries(r.pod, t) &&
      t.topologyKey in r.labels && AntiId(t).Selects(q) ==>
        !Allows(h.reqs, t.topologyKey, r.labels[t.topologyKey])
  }

  /** No pod of the batch is where a pod that one of its terms repels was listed. */
  ghost predicate ClearOfListed(hosts: seq<Host>, batch: seq<Pod>, listing: Listing) {
    forall h, p, t, l, d ::
      h in hosts && p in batch && IsOn(h, p.uid) && Carries(p, t) && listing.list(AntiId(t)).Some? &&
      l in listing.list(AntiId(t)).value && CountsIn(l, AntiId(t), listing.excluded, d) ==>
        !Allows(h.reqs, t.topologyKey, d)
  }

  lemma SeparatedForNone(p: Plan, batch: seq<Pod>)
    requires Separated(p, batch)
    ensures Separated(p, [])
  {}

  lemma NothingAvoids(hosts: seq<Host>, m: Mark, batch: seq<Pod>)
    requires forall h :: h in hosts ==> h.pods == []
    ensures Avoids(hosts, m, batch)
  {}

  /** The mark of a running pod's term is there from the start, so the run avoids it. */
  lemma RunningIsAvoided(
    plans: seq<Plan>, steps: seq<Step>, around: Circumstances, start: Budgets,
    batch: seq<Pod>, orders: seq<bool>, running: seq<Running>, nodes: seq<NodeSnapshot>, r: Running, t: PodTerm)
    requires |plans| == |steps| + 1 && Traced(plans, steps, around)
    requires Begins(plans[0], start, batch, orders, running, around, nodes)
    requires r in running && (forall p :: p in batch ==> p.uid != r.pod.uid)
    requires Carries(r.pod, t) && t.topologyKey in r.labels
    ensures Avoids(Hosts(plans[|steps|]), Mark(Inverse(AntiId(t)), r.labels[t.topologyKey]), [])
  {
    hide Hosts, PlanInv, Separated, InitialTopo, RegisteredNodes, ValidTemplate, Physical, GroupId.Selects, Leads,
      PodSpec.Valid, TrackRunning, AllConsistent, CountsListed, Avoids;
    var excluded, m := set p | p in batch :: p.uid, Mark(Inverse(AntiId(t)), r.labels[t.topologyKey]);
    NoGroups(around.lookup);
    TrackedMarks(map[], running, excluded, around.universe, r, t);
    StartCounts(batch, orders, running, around.universe, around.lookup, nodes);
    SeparatedForNone(plans[0], batch);
    NothingAvoids(Hosts(plans[0]), m, []);
    forall i | 0 <= i < |steps| ensures Followed(steps[i], around, []) {
      NoneFollowed(plans[i], steps[i], plans[i + 1], around);
    }
    RunAvoids(plans, steps, around, start, m, [], |steps|);
  }

  /** The pods of a run stay clear of the domains that the terms of running pods guard against them. */
  lemma RunIsClearOfRunning(
    plans: seq<Plan>, steps: seq<Step>, around: Circumstances, start: Budgets, given: seq<Pod>,
    batch: seq<Pod>, orders: seq<bool>, running: seq<Running>, nodes: seq<NodeSnapshot>)
    requires RunOf(plans, steps, around, given) && Begins(plans[0], start, batch, orders, running, around, nodes)
    ensures ClearOfRunning(Hosts(plans[|steps|]), given, running, set p | p in batch :: p.uid)
  {
    hide Hosts, Begins, Traced, GroupId.Selects, From, PodSpec.Valid, Avoids;
    var last, excluded := plans[|steps|], set p | p in batch :: p.uid;
    forall h, q, r, t |
      h in Hosts(last) && q in given && IsOn(h, q.uid) && r in running && r.pod.uid !in excluded &&
      Carries(r.pod, t) && t.topologyKey in r.labels && AntiId(t).Selects(q)
      ensures !Allows(h.reqs, t.topologyKey, r.labels[t.topologyKey])
    {
      RunningIsAvoided(plans, steps, around, start, batch, orders, running, nodes, r, t);
      var v := OnAsItself(h, q, given, around.tolerate);
      SameSelection(AntiId(t), q, v);
      AvoidsMeans(Hosts(last), Mark(Inverse(AntiId(t)), r.labels[t.topologyKey]), [], h, v);
    }
  }

  lemma AvoidsMeans(hosts: seq<Host>, m: Mark, batch: seq<Pod>, h: Host, v: Pod)
    requires Avoids(hosts, m, batch) && h in hosts && v in h.pods && Concerns(m, v, batch)
    ensures !Allows(h.reqs, m.ref.id.key, m.domain)
  {}

  lemma NoneFollowed(p: Plan, step: Step, p': Plan, around: Circumstances)
    requires Leads(p, step, p', around)
    ensures Followed(step, around, [])
  {}

  lemma {:induction false} ReachedFollows(o: Pod, spec: PodSpec, batch: seq<Pod>, tolerate: bool, lookup: Lookup)
    requires Follows(o, batch, tolerate, lookup) && Reaches(o.spec, spec, tolerate)
    ensures Follows(o.(spec := spec), batch, tolerate, lookup)
    decreases Potential(o.spec, tolerate)
  {
    hide Relaxed, Potential, Followable, InBatch, PodSpec.Valid;
    if o.spec != spec {
      var next := Relaxed(o.spec, tolerate).value;
      RelaxedDropsPotential(o.spec, tolerate);
      RelaxedFollows(o, batch, tolerate, lookup);
      ReachedFollows(o.(spec := next), spec, batch, tolerate, lookup);
    } else {
      assert o.(spec := spec) == o;
    }
  }

  lemma FromIsFollowed(step: Step, around: Circumstances, given: seq<Pod>, batch: seq<Pod>)
    requires AllSpecsValid(given) && DistinctPods(given) && From(given, step.pod, around.tolerate) &&
      forall b :: b in batch ==> b in given
    requires forall o :: o in given ==> Follows(o, batch, around.tolerate, around.lookup)
    ensures Followed(step, around, batch)
  {
    hide Follows, Reaches, PodSpec.Valid;
    var o := FromStandsFor(given, step.pod, around.tolerate);
    ReachedFollows(o, step.pod.spec, batch, around.tolerate, around.lookup);
    forall b | b in batch && b.uid == step.pod.uid ensures SamePod(b, step.pod) {
      assert b == o by { SameIdentity(given, b, o); }
    }
  }

  /** Counted pods are listed once each. */
  lemma CountedIsListed(listing: Listing, id: GroupId, l: Listed, d: string)
    requires LookupOf(listing)(id).Some? && listing.list(id).Some? && l in listing.list(id).value &&
      CountsIn(l, id, listing.excluded, d)
    ensures multiset(LookupOf(listing)(id).value)[d] > 0
  {
    hide CountsIn, DomainsListed;
    var pods := listing.list(id).value;
    ListedAre(id, pods, listing.excluded, d);
    var i :| 0 <= i < |pods| && pods[i] == l;
    assert i in CountingIn(pods, id, listing.excluded, d);
  }

  /** The pods of the batch stay clear of the domains where a pod that one of their terms repels was listed. */
  lemma RunIsClearOfListed(
    plans: seq<Plan>, steps: seq<Step>, around: Circumstances, start: Budgets, given: seq<Pod>,
    batch: seq<Pod>, orders: seq<bool>, running: seq<Running>, nodes: seq<NodeSnapshot>, listing: Listing)
    requires RunOf(plans, steps, around, given) && Begins(plans[0], start, batch, orders, running, around, nodes)
    requires around.lookup == LookupOf(listing) && forall b :: b in batch ==> b in given
    requires forall o :: o in given ==> Follows(o, batch, around.tolerate, around.lookup)
    ensures ClearOfListed(Hosts(plans[|steps|]), batch, listing)
  {
    hide Hosts, PlanInv, Separated, InitialTopo, RegisteredNodes, ValidTemplate, Physical, GroupId.Selects, Leads,
      From, PodSpec.Valid, AllConsistent, CountsIn, Avoids, Followed, Follows, LookupOf;
    var last := plans[|steps|];
    forall i | 0 <= i < |steps|
      ensures Followed(steps[i], around, batch) { FromIsFollowed(steps[i], around, given, batch); }
    forall h, p, t, l, d |
      h in Hosts(last) && p in batch && IsOn(h, p.uid) && Carries(p, t) && listing.list(AntiId(t)).Some? &&
      l in listing.list(AntiId(t)).value && CountsIn(l, AntiId(t), listing.excluded, d)
      ensures !Allows(h.reqs, t.topologyKey, d)
    {
      var m := Mark(Direct(AntiId(t)), d);
      StartCounts(batch, orders, running, around.universe, around.lookup, nodes);
      BatchOwns(plans[0], batch, p, t);
      CountedIsListed(listing, AntiId(t), l, d);
      NothingAvoids(Hosts(plans[0]), m, batch);
      RunAvoids(plans, steps, around, start, m, batch, |steps|);
      var v := OnAsItself(h, p, given, around.tolerate);
      assert SamePod(p, v) && t in v.spec.podAntiAffinity;
      AvoidsMeans(Hosts(last), m, batch, h, v);
    }
  }

  lemma BatchOwns(p: Plan, batch: seq<Pod>, b: Pod, t: PodTerm)
    requires Separated(p, batch) && b in batch && Carries(b, t)
    ensures OwnedIn(p.topo.topologies, AntiId(t), b.uid)
  {}
}
