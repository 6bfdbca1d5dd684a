/**
 What the domain counts of a run stand for, and where its pods are.  The count of a domain
 is what it was when the group was built plus the pods that went there since, and a pod
 that went to a host is still on it when the run ends, whatever the host has narrowed to.
 */
module RunCounts {
  import opened Common
  import opened RequirementAlgebra
  import opened RequirementSets
  import opened Pods
  import opened PreferenceRelaxation
  import opened TopologyGroups
  import opened Topologies
  import opened AntiAffinitySafety
  import opened AffinityDemands
  import opened NodeClaims
  import opened ExistingNodes
  import opened NodePoolLimits
  import opened Plans
  import opened Scheduling
  import opened Solving
  import opened PlanMoves
  import opened RunningPodSafety

  // ----- Where a pod lands

  /** The pod goes to a host, which then has the requirements `reqs`. */
  ghost predicate LandsOn(p: Plan, pod: Pod, p': Plan, h: Host, reqs: Requirements, allow: set<string>)
    requires pod.spec.Valid()
  {
    exists p1 :: Untouched(p, p1) && PlacementOn(Hosts(p1), p1.topo, pod, h, reqs, allow, Hosts(p'), p'.topo)
  }

  /** Only the one value is left. */
  predicate Sole(reqs: Requirements, key: string, d: string) { Finite(reqs, key) && reqs[key].values == {d} }

  /**
   The domains a pod takes up for the group: the one it must end up in, if there is only one
   left; for an anti-affinity all that it may end up in.
   */
  predicate Takes(id: GroupId, reqs: Requirements, d: string) {
    if id.kind.PodAntiAffinity? then d in Get(reqs, id.key).values else Sole(reqs, id.key, d)
  }

  /** The pod lands where the group counts it in the domain. */
  ghost predicate LandsIn(p: Plan, pod: Pod, p': Plan, id: GroupId, d: string)
    requires pod.spec.Valid()
  {
    exists h, reqs, allow :: LandsOn(p, pod, p', h, reqs, allow) && id.Counts(pod, reqs, allow) && Takes(id, reqs, d)
  }

  ghost predicate Landed(plans: seq<Plan>, steps: seq<Step>, i: int, id: GroupId, d: string)
    requires |plans| == |steps| + 1 && 0 <= i < |steps|
  {
    steps[i].outcome.Done? && steps[i].pod.spec.Valid() && LandsIn(plans[i], steps[i].pod, plans[i + 1], id, d)
  }

  // ----- One step

  function CountIn(topo: Topo, id: GroupId, d: string): nat {
    if id in topo.topologies then topo.topologies[id].Count(d) else 0
  }

  lemma RecordCounts(topo: Topo, pod: Pod, reqs: Requirements, allow: set<string>, id: GroupId, d: string)
    requires WellKeyed(topo.topologies) && id in topo.topologies
    ensures var topo' := RecordPod(topo, pod, reqs, allow);
      && id in topo'.topologies && WellKeyed(topo'.topologies)
      && CountIn(topo', id, d) ==
         CountIn(topo, id, d) + (if id.Counts(pod, reqs, allow) && Takes(id, reqs, d) then 1 else 0)
  {
    hide GroupId.Counts;
    var values := Get(reqs, id.key).values;
    if |values| == 1 && d in values {
      SingletonIs(values, d);
    }
  }

  lemma SingletonIs(s: set<string>, d: string)
    requires |s| == 1 && d in s
    ensures s == {d}
  {
    var rest := s - {d};
    assert |rest| == 0;
    assert s == rest + {d};
  }

  lemma {:induction false} NamedCounts(p: Plan, hostnames: seq<string>, id: GroupId, d: string)
    requires WellKeyed(p.topo.topologies)
    ensures var topo' := NamedAll(p, hostnames).topo;
      && WellKeyed(topo'.topologies) && topo'.topologies.Keys == p.topo.topologies.Keys
      && CountIn(topo', id, d) == CountIn(p.topo, id, d)
  {
    if hostnames != [] {
      NamedCounts(p, hostnames[..|hostnames| - 1], id, d);
    }
  }

  /** Host names that are only registered count nothing. */
  lemma UntouchedCounts(p: Plan, p': Plan, id: GroupId, d: string)
    requires WellKeyed(p.topo.topologies) && Untouched(p, p')
    ensures WellKeyed(p'.topo.topologies) && p'.topo.topologies.Keys == p.topo.topologies.Keys
    ensures CountIn(p'.topo, id, d) == CountIn(p.topo, id, d)
  {
    hide NamedAll, WellKeyed, CountIn;
    var p1, hostnames :| Reordered(p, p1) && p' == NamedAll(p1, hostnames);
    NamedCounts(p1, hostnames, id, d);
  }

  lemma LandingCounts(
    p: Plan, pod: Pod, p': Plan, h: Host, reqs: Requirements, allow: set<string>, id: GroupId, d: string)
    requires pod.spec.Valid() && WellKeyed(p.topo.topologies) && id in p.topo.topologies
    requires LandsOn(p, pod, p', h, reqs, allow)
    ensures id in p'.topo.topologies && WellKeyed(p'.topo.topologies)
    ensures CountIn(p'.topo, id, d) ==
            CountIn(p.topo, id, d) + (if id.Counts(pod, reqs, allow) && Takes(id, reqs, d) then 1 else 0)
  {
    hide WellKeyed, CountIn, GroupId.Counts, Takes, Untouched, Clears, JoinsAll, Placed, RecordPod, PodSpec.Valid,
      Hosts;
    var p1 :| Untouched(p, p1) && PlacementOn(Hosts(p1), p1.topo, pod, h, reqs, allow, Hosts(p'), p'.topo);
    UntouchedCounts(p, p1, id, d);
    RecordCounts(p1.topo, pod, reqs, allow, id, d);
  }

  /** An attempt adds one to the domain its pod landed in, and changes no other count. */
  lemma MovesCount(p: Plan, pod: Pod, p': Plan, id: GroupId, d: string)
    requires pod.spec.Valid() && WellKeyed(p.topo.topologies) && id in p.topo.topologies && Moves(p, pod, p')
    ensures id in p'.topo.topologies && WellKeyed(p'.topo.topologies)
    ensures CountIn(p'.topo, id, d) == CountIn(p.topo, id, d) + (if LandsIn(p, pod, p', id, d) then 1 else 0)
  {
    hide WellKeyed, CountIn, GroupId.Counts, Takes, Untouched, PlacementOn, PodSpec.Valid, Hosts;
    if LandsIn(p, pod, p', id, d) {
      var h, reqs, allow :| LandsOn(p, pod, p', h, reqs, allow) && id.Counts(pod, reqs, allow) && Takes(id, reqs, d);
      LandingCounts(p, pod, p', h, reqs, allow, id, d);
    } else if Untouched(p, p') {
      UntouchedCounts(p, p', id, d);
    } else {
      var p1 :| Untouched(p, p1) && Placement(Hosts(p1), p1.topo, pod, Hosts(p'), p'.topo);
      var h, reqs, allow :| PlacementOn(Hosts(p1), p1.topo, pod, h, reqs, allow, Hosts(p'), p'.topo);
      assert LandsOn(p, pod, p', h, reqs, allow);
      LandingCounts(p, pod, p', h, reqs, allow, id, d);
    }
  }

  lemma UpdateCounts(
    topo: Topo, pod: Pod, antiFirst: bool, universe: Universe, lookup: Lookup, id: GroupId, d: string)
    requires pod.spec.Valid() && AllConsistent(topo.topologies) && AllConsistent(topo.inverse) && id in topo.topologies
    ensures var topo' := Updated(topo, pod, antiFirst, universe, lookup).0;
      id in topo'.topologies && CountIn(topo', id, d) == CountIn(topo, id, d)
  {
    hide Updated, AllConsistent, Owns, RequiredCanOwn;
    UpdateKeeps(topo, pod, antiFirst, universe, lookup);
  }

  /** What the circumstances of a run must be like, and what every plan of it is like. */
  ghost predicate Sound(around: Circumstances) {
    && (forall t :: t in around.templates ==> ValidTemplate(t))
    && (forall pool :: pool in around.catalog ==> Physical(around.catalog[pool]))
  }

  ghost predicate Orderly(p: Plan, start: Budgets) { PlanInv(p, start) && Separated(p, []) }

  lemma OrderlyMeans(p: Plan, start: Budgets)
    requires Orderly(p, start)
    ensures PlanInv(p, start) && TopoInv(p.topo, []) && AllConsistent(p.topo.topologies) &&
      AllConsistent(p.topo.inverse) && WellKeyed(p.topo.topologies)
  {
    hide PlanInv, Hosts, HostInv, Safe;
  }

  /** The attempt of a step, and what it leaves before the topology is updated. */
  lemma StepMoves(p: Plan, step: Step, p': Plan, around: Circumstances, start: Budgets)
    requires Leads(p, step, p', around) && Sound(around) && Orderly(p, start)
    ensures Orderly(step.tried, start) && Orderly(p', start) && Moves(p, step.pod, step.tried)
    ensures !step.outcome.Done? ==> Untouched(p, step.tried)
    ensures Hosts(p') == Hosts(step.tried)
  {
    hide PlanInv, Updated, Relaxed, ValidTemplate, Physical, PodSpec.Valid, Separated, PlacedPods, Hosts, Moves,
      Identified, DistinctPods, NoRoom, AllDeclined, Untouched;
    var ok, tried := step.outcome.Done?, step.tried;
    AttemptKeeps(ok, p, step.pod, around.templates, around.catalog, tried, start, []);
    OrderlyMeans(p, start);
    AttemptMoves(ok, p, step.pod, around.templates, around.catalog, tried, start);
    if step.outcome.Relaxing? {
      var relaxed := step.pod.(spec := Relaxed(step.pod.spec, around.tolerate).value);
      NobodyIdentified(relaxed);
      UpdatedPlanKeeps(tried, relaxed, step.antiFirst, around.universe, around.lookup, start, []);
      SameHosts(tried, p');
    }
  }

  lemma NobodyIdentified(pod: Pod)
    ensures Identified([], pod) && DistinctPods([]) && !InBatch([], pod)
  {}

  lemma UntouchedLandsNowhere(p: Plan, pod: Pod, p': Plan, id: GroupId, d: string)
    requires pod.spec.Valid() && WellKeyed(p.topo.topologies) && id in p.topo.topologies && Untouched(p, p')
    ensures !LandsIn(p, pod, p', id, d)
  {
    hide WellKeyed, CountIn, GroupId.Counts, Takes, Untouched, LandsOn, PodSpec.Valid;
    if LandsIn(p, pod, p', id, d) {
      var h, reqs, allow :| LandsOn(p, pod, p', h, reqs, allow) && id.Counts(pod, reqs, allow) && Takes(id, reqs, d);
      LandingCounts(p, pod, p', h, reqs, allow, id, d);
      UntouchedCounts(p, p', id, d);
    }
  }

  lemma StepCounts(
    plans: seq<Plan>, steps: seq<Step>, i: nat, around: Circumstances, start: Budgets, id: GroupId, d: string)
    requires |plans| == |steps| + 1 && i < |steps| && Leads(plans[i], steps[i], plans[i + 1], around)
    requires Sound(around) && Orderly(plans[i], start) && id in plans[i].topo.topologies
    ensures id in plans[i + 1].topo.topologies
    ensures CountIn(plans[i + 1].topo, id, d) ==
            CountIn(plans[i].topo, id, d) + (if Landed(plans, steps, i, id, d) then 1 else 0)
  {
    hide Attempted, Updated, Relaxed, PodSpec.Valid, Orderly, Moves, LandsIn, WellKeyed, CountIn, Hosts, AllConsistent,
      TopoInv, PlanInv, Untouched, Sound;
    var p, step, p' := plans[i], steps[i], plans[i + 1];
    StepMoves(p, step, p', around, start);
    OrderlyMeans(p, start);
    OrderlyMeans(step.tried, start);
    MovesCount(p, step.pod, step.tried, id, d);
    if !step.outcome.Done? {
      UntouchedLandsNowhere(p, step.pod, step.tried, id, d);
    }
    if step.outcome.Relaxing? {
      var relaxed := step.pod.(spec := Relaxed(step.pod.spec, around.tolerate).value);
      UpdateCounts(step.tried.topo, relaxed, step.antiFirst, around.universe, around.lookup, id, d);
    }
  }

  // ----- Over a run

  ghost predicate OrderlyRun(plans: seq<Plan>, steps: seq<Step>, around: Circumstances, start: Budgets) {
    |plans| == |steps| + 1 && Traced(plans, steps, around) && Sound(around) && Orderly(plans[0], start)
  }

  lemma {:induction false} StaysOrderly(
    plans: seq<Plan>, steps: seq<Step>, around: Circumstances, start: Budgets, n: nat)
    requires OrderlyRun(plans, steps, around, start) && n < |plans|
    ensures Orderly(plans[n], start)
  {
    hide Leads, Orderly, Sound, Moves, Hosts, Untouched;
    if n > 0 {
      StaysOrderly(plans, steps, around, start, n - 1);
      assert Leads(plans[n - 1], steps[n - 1], plans[n - 1 + 1], around);
      StepMoves(plans[n - 1], steps[n - 1], plans[n], around, start);
    }
  }

  ghost function Landings(plans: seq<Plan>, steps: seq<Step>, n: nat, id: GroupId, d: string): set<int>
    requires |plans| == |steps| + 1 && n <= |steps|
  {
    set i: int | 0 <= i < n && Landed(plans, steps, i, id, d)
  }

  /** The count of a domain is what it was at the start plus the pods that have landed there. */
  lemma {:induction false} RunTally(
    plans: seq<Plan>, steps: seq<Step>, around: Circumstances, start: Budgets, n: nat, id: GroupId, d: string)
    requires OrderlyRun(plans, steps, around, start) && n <= |steps| && id in plans[0].topo.topologies
    ensures id in plans[n].topo.topologies
    ensures CountIn(plans[n].topo, id, d) == CountIn(plans[0].topo, id, d) + |Landings(plans, steps, n, id, d)|
  {
    hide Leads, Orderly, Sound, CountIn, Landed;
    if n == 0 {
      assert Landings(plans, steps, 0, id, d) == {};
    } else {
      var i := n - 1;
      RunTally(plans, steps, around, start, i, id, d);
      StaysOrderly(plans, steps, around, start, i);
      assert Leads(plans[i], steps[i], plans[i + 1], around);
      StepCounts(plans, steps, i, around, start, id, d);
      assert Landings(plans, steps, n, id, d) ==
             Landings(plans, steps, i, id, d) + if Landed(plans, steps, i, id, d) then {i} else {};
    }
  }

  /** The count of the domain after so many steps is that of the pods listed there and those landed there since. */
  ghost predicate CountReal(plans: seq<Plan>, steps: seq<Step>, n: nat, id: GroupId, d: string, lookup: Lookup)
    requires |plans| == |steps| + 1 && n <= |steps|
  {
    && lookup(id).Some?
    && CountIn(plans[n].topo, id, d) == multiset(lookup(id).value)[d] + |Landings(plans, steps, n, id, d)|
  }

  /** So it is for every group that was there from the start. */
  ghost predicate CountsReal(plans: seq<Plan>, steps: seq<Step>, lookup: Lookup)
    requires |plans| == |steps| + 1
  {
    forall id, d, n: nat :: n <= |steps| && id in plans[0].topo.topologies ==> CountReal(plans, steps, n, id, d, lookup)
  }

  lemma RunCountsReal(plans: seq<Plan>, steps: seq<Step>, around: Circumstances, start: Budgets)
    requires OrderlyRun(plans, steps, around, start) && CountsListed(plans[0].topo.topologies, around.lookup)
    ensures CountsReal(plans, steps, around.lookup)
  {
    hide Traced, Orderly, Sound, CountIn, Landings, CountsListed;
    forall id, d, n: nat | n <= |steps| && id in plans[0].topo.topologies
      ensures CountReal(plans, steps, n, id, d, around.lookup)
    {
      RunTally(plans, steps, around, start, n, id, d);
      ListedCount(plans[0].topo, around.lookup, id, d);
    }
  }

  lemma ListedCount(topo: Topo, lookup: Lookup, id: GroupId, d: string)
    requires CountsListed(topo.topologies, lookup) && id in topo.topologies
    ensures lookup(id).Some? && CountIn(topo, id, d) == multiset(lookup(id).value)[d]
  {}

  // ----- Hosts only fill up and narrow

  /** The host later on: its pods are still there, and it allows no more than before. */
  ghost predicate Becomes(h: Host, h': Host) {
    && (forall v :: v in h.pods ==> v in h'.pods) && Narrows(h'.reqs, h.reqs)
    && forall k :: Finite(h.reqs, k) ==> Finite(h'.reqs, k)
  }

  lemma BecomesItself(h: Host)
    ensures Becomes(h, h)
  {}

  lemma BecomesTwice(a: Host, b: Host, c: Host)
    requires Becomes(a, b) && Becomes(b, c)
    ensures Becomes(a, c)
  {}

  lemma PlacedBecomes(topo: Topo, pod: Pod, h: Host, reqs: Requirements)
    requires Clears(topo, pod, h.reqs, reqs)
    ensures Becomes(h, Host(reqs, h.pods + [pod]))
  {}

  lemma UntouchedHosts(p: Plan, p': Plan, h: Host)
    requires Untouched(p, p')
    ensures h in Hosts(p') <==> h in Hosts(p)
  {
    hide Hosts, NamedAll;
    var p1, hostnames :| Reordered(p, p1) && p' == NamedAll(p1, hostnames);
    NamedSameParts(p1, hostnames);
    PermutationMembers(p.claims, p1.claims);
    HostsMembers(p, h);
    HostsMembers(p', h);
  }

  lemma {:induction false} NamedSameParts(p: Plan, hostnames: seq<string>)
    ensures NamedAll(p, hostnames) == p.(topo := NamedAll(p, hostnames).topo)
  {
    if hostnames != [] {
      NamedSameParts(p, hostnames[..|hostnames| - 1]);
    }
  }

  /** After an attempt every host is still there. */
  lemma MovesKeepsHost(p: Plan, pod: Pod, p': Plan, h: Host) returns (h': Host)
    requires pod.spec.Valid() && Moves(p, pod, p') && h in Hosts(p)
    ensures h' in Hosts(p') && Becomes(h, h')
  {
    hide Untouched, Clears, JoinsAll, RecordPod, Hosts, PodSpec.Valid, StrictPodRequirements, Becomes;
    h' := h;
    BecomesItself(h);
    if Untouched(p, p') {
      UntouchedHosts(p, p', h);
    } else {
      var p1 :| Untouched(p, p1) && Placement(Hosts(p1), p1.topo, pod, Hosts(p'), p'.topo);
      var g, reqs, allow :| PlacementOn(Hosts(p1), p1.topo, pod, g, reqs, allow, Hosts(p'), p'.topo);
      UntouchedHosts(p, p1, h);
      if h !in Hosts(p') {
        h' := Host(reqs, g.pods + [pod]);
        PlacedBecomes(p1.topo, pod, g, reqs);
      }
    }
  }

  lemma {:induction false} RunKeepsHost(
    plans: seq<Plan>, steps: seq<Step>, around: Circumstances, start: Budgets, i: nat, n: nat, h: Host)
    returns (h': Host)
    requires OrderlyRun(plans, steps, around, start) && i <= n <= |steps| && h in Hosts(plans[i])
    ensures h' in Hosts(plans[n]) && Becomes(h, h')
    decreases n - i
  {
    hide Leads, Orderly, Sound, Moves, Hosts, Untouched, Becomes;
    if i == n {
      h' := h;
      BecomesItself(h);
    } else {
      StaysOrderly(plans, steps, around, start, i);
      assert Leads(plans[i], steps[i], plans[i + 1], around);
      StepMoves(plans[i], steps[i], plans[i + 1], around, start);
      LeadsValid(plans[i], steps[i], plans[i + 1], around);
      var g := MovesKeepsHost(plans[i], steps[i].pod, steps[i].tried, h);
      h' := RunKeepsHost(plans, steps, around, start, i + 1, n, g);
      BecomesTwice(h, g, h');
    }
  }

  lemma LeadsValid(p: Plan, step: Step, p': Plan, around: Circumstances)
    requires Leads(p, step, p', around)
    ensures step.pod.spec.Valid()
  {}

  // ----- Every pod on a host has landed there

  /** The step put the pod on a host that has since become `h`. */
  ghost predicate ArrivedAt(p: Plan, step: Step, v: Pod, h: Host, g: Host, reqs: Requirements, allow: set<string>) {
    && step.pod == v && step.outcome.Done? && v.spec.Valid()
    && LandsOn(p, v, step.tried, g, reqs, allow) && Becomes(Host(reqs, g.pods + [v]), h)
  }

  lemma {:induction false} Arrived(
    plans: seq<Plan>, steps: seq<Step>, around: Circumstances, start: Budgets, n: nat, h: Host, v: Pod)
    returns (i: nat, g: Host, reqs: Requirements, allow: set<string>)
    requires OrderlyRun(plans, steps, around, start) && n <= |steps| && h in Hosts(plans[n]) && v in h.pods
    requires forall x :: x in Hosts(plans[0]) ==> x.pods == []
    ensures i < n && ArrivedAt(plans[i], steps[i], v, h, g, reqs, allow)
    decreases n
  {
    hide Orderly, Sound, Hosts, Untouched, Becomes, Moves, Leads, LandsOn;
    var p, step, p' := plans[n - 1], steps[n - 1], plans[n - 1 + 1];
    assert Leads(p, step, p', around);
    StaysOrderly(plans, steps, around, start, n - 1);
    StepMoves(p, step, p', around, start);
    LeadsValid(p, step, p', around);
    var was: Host;
    was, g, reqs, allow := MovesFrom(p, step.pod, step.tried, h);
    if was in Hosts(p) && v in was.pods {
      i, g, reqs, allow := Arrived(plans, steps, around, start, n - 1, was, v);
      BecomesTwice(Host(reqs, g.pods + [v]), was, h);
    } else {
      i := n - 1;
      assert v == step.pod;
      BecomesItself(h);
      if !step.outcome.Done? {
        UntouchedHosts(p, step.tried, h);
      }
    }
  }

  /** A host after an attempt was there before, or has just taken the pod. */
  lemma MovesFrom(p: Plan, pod: Pod, p': Plan, h: Host)
    returns (was: Host, g: Host, reqs: Requirements, allow: set<string>)
    requires pod.spec.Valid() && Moves(p, pod, p') && h in Hosts(p')
    ensures Becomes(was, h)
    ensures was in Hosts(p) || was.pods == []
    ensures h in Hosts(p) ==> was == h
    ensures h !in Hosts(p) ==> h == Host(reqs, g.pods + [pod]) && LandsOn(p, pod, p', g, reqs, allow) && was == g
  {
    hide Untouched, Clears, JoinsAll, RecordPod, Hosts, PodSpec.Valid, StrictPodRequirements, Becomes;
    was, g, reqs, allow := h, h, h.reqs, {};
    BecomesItself(h);
    if h !in Hosts(p) {
      if Untouched(p, p') {
        UntouchedHosts(p, p', h);
      }
      var p1 :| Untouched(p, p1) && Placement(Hosts(p1), p1.topo, pod, Hosts(p'), p'.topo);
      g, reqs, allow :| PlacementOn(Hosts(p1), p1.topo, pod, g, reqs, allow, Hosts(p'), p'.topo);
      UntouchedHosts(p, p1, h);
      UntouchedHosts(p, p1, g);
      was := g;
      PlacedBecomes(p1.topo, pod, g, reqs);
    }
  }
}
