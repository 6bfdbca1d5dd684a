/**
 Pod affinity over a whole scheduling run.  When the run ends, every domain that the host of
 a pod still allows holds a pod that was there before or one that the run placed, which
 the term selects; unless the pod was the first of its kind, with no such pod in any
 domain open to it.  Likewise no domain that is left to it held a pod that one of its
 anti-affinity terms repels, preferred terms included, as long as they were not given up.
 */
module AffinitySafety {
  import opened Common
  import opened Labels
  import opened RequirementAlgebra
  import opened RequirementSets
  import opened Pods
  import opened PreferenceRelaxation
  import opened TopologyGroups
  import opened Topologies
  import opened AntiAffinitySafety
  import opened AffinityDemands
  import opened RelaxedLookups
  import opened NodeClaims
  import opened ExistingNodes
  import opened NodePoolLimits
  import opened Plans
  import opened Scheduling
  import opened SchedulerSetup
  import opened Solving
  import opened PlanMoves
  import opened GivenPods
  import opened RunningPodSafety
  import opened SpreadSafety
  import opened RunCounts

  // ----- A pod owns what it asks for

  /** Every group the pod asks for can be counted, now and after any relaxation. */
  predicate Resolved(o: Pod, lookup: Lookup)
    requires o.spec.Valid()
  {
    CanOwn(map[], Asks(o, false), lookup) && FiltersCountable(o, lookup)
  }

  lemma RelaxedResolved(o: Pod, tolerate: bool, lookup: Lookup)
    requires o.spec.Valid() && Resolved(o, lookup) && Relaxed(o.spec, tolerate).Some?
    ensures var r := o.(spec := Relaxed(o.spec, tolerate).value); r.spec.Valid() && Resolved(r, lookup)
  {
    hide CanOwn, FiltersCountable, SpreadCountable, TermsCountable, Relaxed, PodSpec.Valid, Asks;
    var r := o.(spec := Relaxed(o.spec, tolerate).value);
    RelaxedKeepsHardTerms(o.spec, tolerate);
    if CanDropRequired(o.spec) {
      DropsFirst(o.spec, tolerate);
      DroppedCountable(o, lookup);
      DroppedResolved(o, lookup);
    } else {
      OthersCountable(o, tolerate, lookup);
      NoFilters(r, lookup);
      FewerAsks(o, r.spec, lookup);
    }
  }

  /** Without its first required term a pod asks for its spread groups anew, and for the others as before. */
  lemma DroppedResolved(o: Pod, lookup: Lookup)
    requires o.spec.Valid() && CanDropRequired(o.spec) && CanOwn(map[], Asks(o, false), lookup)
    requires var r := o.(spec := DropRequired(o.spec)); r.spec.Valid() && SpreadCountable(r, lookup)
    ensures CanOwn(map[], Asks(o.(spec := DropRequired(o.spec)), false), lookup)
  {
    hide SpreadAsk, PodSpec.Valid;
    var r := o.(spec := DropRequired(o.spec));
    assert AffinityAsks(r) == AffinityAsks(o) && AntiAffinityAsks(r) == AntiAffinityAsks(o);
    forall a | a in Asks(r, false) ensures lookup(a.id).Some? {
      if a in SpreadAsks(r) {
        var i :| 0 <= i < |r.spec.spread| && SpreadAsks(r)[i] == a;
        assert r.spec.spread[i] in r.spec.spread;
      } else {
        assert a in Asks(o, false);
      }
    }
  }

  lemma {:induction false} ReachedResolved(o: Pod, spec: PodSpec, tolerate: bool, lookup: Lookup)
    requires o.spec.Valid() && Resolved(o, lookup) && Reaches(o.spec, spec, tolerate)
    ensures spec.Valid() && Resolved(o.(spec := spec), lookup)
    decreases Potential(o.spec, tolerate)
  {
    hide Relaxed, Potential, Resolved, PodSpec.Valid;
    if o.spec != spec {
      RelaxedDropsPotential(o.spec, tolerate);
      RelaxedResolved(o, tolerate, lookup);
      ReachedResolved(o.(spec := Relaxed(o.spec, tolerate).value), spec, tolerate, lookup);
    } else {
      assert o.(spec := spec) == o;
    }
  }

  predicate OwnsAsked(topo: Topo, v: Pod)
    requires v.spec.Valid()
  {
    forall a :: a in Asks(v, false) ==> OwnedIn(topo.topologies, a.id, v.uid)
  }

  lemma SameOwnersOwn(topo: Topo, topo': Topo, v: Pod)
    requires v.spec.Valid() && SameOwners(topo, topo') && OwnsAsked(topo, v)
    ensures OwnsAsked(topo', v)
  {
    hide Asks, PodSpec.Valid;
  }

  lemma UpdateOwnsAsked(topo: Topo, pod: Pod, antiFirst: bool, universe: Universe, lookup: Lookup, v: Pod)
    requires pod.spec.Valid() && v.spec.Valid() && AllConsistent(topo.topologies) && AllConsistent(topo.inverse)
    requires if pod.uid == v.uid then pod == v && Resolved(v, lookup) else OwnsAsked(topo, v)
    ensures OwnsAsked(Updated(topo, pod, antiFirst, universe, lookup).0, v)
  {
    hide Updated, AllConsistent, Asks, Owns, RequiredCanOwn, FiltersCountable, PodSpec.Valid, CanOwn;
    var topo' := Updated(topo, pod, antiFirst, universe, lookup).0;
    UpdateKeeps(topo, pod, antiFirst, universe, lookup);
    forall a | a in Asks(v, false) ensures OwnedIn(topo'.topologies, a.id, v.uid) {
      if pod.uid == v.uid {
        assert KeepsAsking(pod, a.id, lookup);
        StaysOwner(topo, pod, antiFirst, universe, lookup, a.id);
      }
    }
  }

  /** The step tries the given pod, as it is at that point, or another one. */
  lemma TriedIs(steps: seq<Step>, given: seq<Pod>, tolerate: bool, i: nat, o: Pod)
    requires TriedAsIs(steps, given, tolerate) && DistinctPods(given) && i < |steps| && o in given
    requires steps[i].pod.uid == o.uid
    ensures steps[i].pod == Current(o, steps[..i], tolerate)
  {
    hide Current;
    assert IsCurrent(steps[i].pod, given, steps[..i], tolerate);
    var g :| g in given && steps[i].pod == Current(g, steps[..i], tolerate);
    SameUID(g, steps[..i], tolerate);
    SameIdentity(given, g, o);
  }

  /** How a given pod changes in a step. */
  lemma CurrentNext(steps: seq<Step>, i: nat, o: Pod, tolerate: bool)
    requires i < |steps|
    ensures var now, step := Current(o, steps[..i], tolerate), steps[i];
      Current(o, steps[..i + 1], tolerate) ==
        if step.pod.uid == o.uid && step.outcome.Relaxing? && Relaxed(now.spec, tolerate).Some?
          then now.(spec := Relaxed(now.spec, tolerate).value) else now
  {
    hide Relaxed;
    assert steps[..i + 1][..i] == steps[..i] && steps[..i + 1][i] == steps[i];
  }

  lemma CurrentResolved(o: Pod, steps: seq<Step>, tolerate: bool, lookup: Lookup)
    requires o.spec.Valid() && Resolved(o, lookup)
    ensures var v := Current(o, steps, tolerate); v.spec.Valid() && Resolved(v, lookup) && v.uid == o.uid
  {
    hide Current, Reaches, Resolved, PodSpec.Valid;
    CurrentIsReached(o, steps, tolerate);
    ReachedResolved(o, Current(o, steps, tolerate).spec, tolerate, lookup);
  }

  ghost predicate OwnsCurrent(topo: Topo, o: Pod, steps: seq<Step>, tolerate: bool) {
    var v := Current(o, steps, tolerate); v.spec.Valid() && OwnsAsked(topo, v)
  }

  lemma StepOwnsAsked(
    plans: seq<Plan>, steps: seq<Step>, around: Circumstances, start: Budgets, given: seq<Pod>, i: nat, o: Pod)
    requires OrderlyRun(plans, steps, around, start) && i < |steps| && Orderly(plans[i], start)
    requires TriedAsIs(steps, given, around.tolerate) && DistinctPods(given)
    requires o in given && o.spec.Valid() && Resolved(o, around.lookup)
    requires OwnsCurrent(plans[i].topo, o, steps[..i], around.tolerate)
    ensures OwnsCurrent(plans[i + 1].topo, o, steps[..i + 1], around.tolerate)
  {
    hide Orderly, Sound, Attempted, Updated, Relaxed, PodSpec.Valid, Moves, Hosts, Current, Resolved, OwnsAsked,
      AllConsistent, TopoInv, PlanInv, SameOwners, TriedAsIs, Untouched, WellKeyed, DistinctPods;
    var step, tolerate := steps[i], around.tolerate;
    assert Leads(plans[i], step, plans[i + 1], around);
    var now, next := Current(o, steps[..i], tolerate), Current(o, steps[..i + 1], tolerate);
    CurrentResolved(o, steps[..i], tolerate, around.lookup);
    CurrentResolved(o, steps[..i + 1], tolerate, around.lookup);
    CurrentNext(steps, i, o, tolerate);
    StepMoves(plans[i], step, plans[i + 1], around, start);
    MovesSameOwners(plans[i], step.pod, step.tried);
    SameOwnersOwn(plans[i].topo, step.tried.topo, now);
    if step.outcome.Relaxing? {
      OrderlyMeans(step.tried, start);
      if step.pod.uid == o.uid {
        TriedIs(steps, given, tolerate, i, o);
      }
      var relaxed := step.pod.(spec := Relaxed(step.pod.spec, tolerate).value);
      UpdateOwnsAsked(step.tried.topo, relaxed, step.antiFirst, around.universe, around.lookup, next);
    }
  }

  /** A given pod owns what it asks for before every attempt, if it does when the run begins. */
  lemma {:induction false} RunOwnsAsked(
    plans: seq<Plan>, steps: seq<Step>, around: Circumstances, start: Budgets, given: seq<Pod>, i: nat, o: Pod)
    requires OrderlyRun(plans, steps, around, start) && i <= |steps|
    requires TriedAsIs(steps, given, around.tolerate) && DistinctPods(given)
    requires o in given && o.spec.Valid() && Resolved(o, around.lookup) && OwnsAsked(plans[0].topo, o)
    ensures OwnsCurrent(plans[i].topo, o, steps[..i], around.tolerate)
  {
    hide Orderly, Sound, Leads, PodSpec.Valid, Resolved, OwnsAsked, TriedAsIs, DistinctPods, OwnsCurrent;
    if i == 0 {
      OwnsAtStart(plans[0].topo, o, steps[..0], around.tolerate);
    } else {
      RunOwnsAsked(plans, steps, around, start, given, i - 1, o);
      StaysOrderly(plans, steps, around, start, i - 1);
      StepOwnsAsked(plans, steps, around, start, given, i - 1, o);
    }
  }

  lemma OwnsAtStart(topo: Topo, o: Pod, steps: seq<Step>, tolerate: bool)
    requires steps == [] && o.spec.Valid() && OwnsAsked(topo, o)
    ensures OwnsCurrent(topo, o, steps, tolerate)
  {
    hide OwnsAsked, PodSpec.Valid;
  }

  // ----- What an affinity term is promised

  /** The host goes to that domain. */
  ghost predicate Confined(reqs: Requirements, key: string, d: string) {
    Finite(reqs, key) && forall v :: Allows(reqs, key, v) ==> v == d
  }

  /** Another pod that the group selects is in the domain: one that was listed, or one that the run placed. */
  ghost predicate Accompanied(hosts: seq<Host>, id: GroupId, d: string, uid: UID, lookup: Lookup) {
    || (lookup(id).Some? && d in lookup(id).value)
    || exists h, q :: h in hosts && q in h.pods && q.uid != uid && id.Selects(q) && Confined(h.reqs, id.key, d)
  }

  /** Every domain the host may still go to has company for the pod. */
  ghost predicate InCompany(h: Host, hosts: seq<Host>, id: GroupId, uid: UID, lookup: Lookup) {
    && Finite(h.reqs, Normalize(id.key))
    && forall d :: Allows(h.reqs, Normalize(id.key), d) ==> Accompanied(hosts, id, d, uid, lookup)
  }

  /** No pod of the group was listed in the domain or landed there before the step. */
  ghost predicate VacantAt(plans: seq<Plan>, steps: seq<Step>, i: nat, id: GroupId, d: string, lookup: Lookup)
    requires |plans| == |steps| + 1 && i <= |steps|
  {
    lookup(id).Some? && d !in lookup(id).value && Landings(plans, steps, i, id, d) == {}
  }

  /** The pod is of the group itself and found no other pod of the group in any domain open to it. */
  ghost predicate StartsGroup(plans: seq<Plan>, steps: seq<Step>, i: nat, id: GroupId, lookup: Lookup)
    requires |plans| == |steps| + 1 && i < |steps|
  {
    var v := steps[i].pod;
    && v.spec.Valid() && id.Selects(v)
    && forall d :: Get(StrictPodRequirements(v.spec), id.key).Has(d) ==> VacantAt(plans, steps, i, id, d, lookup)
  }

  /** An anti-affinity group had no pod in any domain that is left to the host. */
  ghost predicate WasVacant(
    h: Host, plans: seq<Plan>, steps: seq<Step>, i: nat, id: GroupId, lookup: Lookup)
    requires |plans| == |steps| + 1 && i <= |steps|
  {
    forall d :: Allows(h.reqs, id.key, d) ==> VacantAt(plans, steps, i, id, d, lookup)
  }

  /** The affinity terms that count for a placed pod: those it insists on and those it has not given up. */
  predicate Wants(v: Pod, o: Pod, t: PodTerm) {
    t in o.spec.podAffinity || exists w :: w in v.spec.preferredPodAffinity && w.term == t
  }

  predicate Shuns(v: Pod, o: Pod, t: PodTerm) {
    t in o.spec.podAntiAffinity || exists w :: w in v.spec.preferredPodAntiAffinity && w.term == t
  }

  ghost predicate Joined(h: Host, plans: seq<Plan>, steps: seq<Step>, i: nat, id: GroupId, lookup: Lookup)
    requires |plans| == |steps| + 1 && i < |steps|
  {
    || InCompany(h, Hosts(plans[|steps|]), id, steps[i].pod.uid, lookup)
    || StartsGroup(plans, steps, i, id, lookup)
  }

  /** The step placed the pod `v`, which stands for `o`, on the host `h`, and all its terms are granted there. */
  ghost predicate Granted(h: Host, v: Pod, o: Pod, plans: seq<Plan>, steps: seq<Step>, i: nat, lookup: Lookup)
    requires |plans| == |steps| + 1 && i < |steps|
  {
    && steps[i].pod == v && steps[i].outcome.Done?
    && (forall t :: Wants(v, o, t) ==> Joined(h, plans, steps, i, AffinityId(t), lookup))
    && (forall t :: Shuns(v, o, t) ==> WasVacant(h, plans, steps, i, AntiId(t), lookup))
  }

  ghost predicate WasGranted(h: Host, v: Pod, o: Pod, plans: seq<Plan>, steps: seq<Step>, lookup: Lookup)
    requires |plans| == |steps| + 1
  {
    exists i: nat :: i < |steps| && Granted(h, v, o, plans, steps, i, lookup)
  }

  /** So it is for every pod of the batch, if its spread groups can be counted however it is relaxed. */
  ghost predicate AllGranted(plans: seq<Plan>, steps: seq<Step>, batch: seq<Pod>, lookup: Lookup)
    requires |plans| == |steps| + 1 && AllSpecsValid(batch)
  {
    forall h, v, o ::
      h in Hosts(plans[|steps|]) && v in h.pods && o in batch && v.uid == o.uid && FiltersCountable(o, lookup) ==>
        WasGranted(h, v, o, plans, steps, lookup)
  }

  // ----- Proof

  /** The domain count that a placement looked at is what was listed and what landed before. */
  lemma CountMeans(
    plans: seq<Plan>, steps: seq<Step>, around: Circumstances, start: Budgets, i: nat, p1: Plan, id: GroupId, d: string)
    requires OrderlyRun(plans, steps, around, start) && i < |steps| && Untouched(plans[i], p1)
    requires CountsListed(plans[0].topo.topologies, around.lookup) && id in plans[0].topo.topologies
    ensures CountIn(p1.topo, id, d) > 0 <==> !VacantAt(plans, steps, i, id, d, around.lookup)
  {
    hide Orderly, Sound, Leads, CountIn, Landings, Untouched, WellKeyed, AllConsistent, TopoInv, PlanInv;
    StaysOrderly(plans, steps, around, start, i);
    OrderlyMeans(plans[i], start);
    UntouchedCounts(plans[i], p1, id, d);
    RunTally(plans, steps, around, start, i, id, d);
    ListedCount(plans[0].topo, around.lookup, id, d);
  }

  /** A pod that landed in the domain is there when the run ends. */
  lemma LandedStays(
    plans: seq<Plan>, steps: seq<Step>, around: Circumstances, start: Budgets, j: nat, id: GroupId, d: string, uid: UID)
    requires OrderlyRun(plans, steps, around, start) && j < |steps| && Landed(plans, steps, j, id, d)
    requires steps[j].pod.uid != uid && id.kind.PodAffinity?
    ensures Accompanied(Hosts(plans[|steps|]), id, d, uid, around.lookup)
  {
    hide Orderly, Sound, Leads, Hosts, Clears, JoinsAll, RecordPod, PodSpec.Valid, StrictPodRequirements, FilterMatches,
      Untouched, Selected;
    var pod := steps[j].pod;
    var h, reqs, allow :| LandsOn(plans[j], pod, plans[j + 1], h, reqs, allow) && id.Counts(pod, reqs, allow) &&
      Takes(id, reqs, d);
    var h1 := Host(reqs, h.pods + [pod]);
    assert h1 in Hosts(plans[j + 1]);
    var h2 := RunKeepsHost(plans, steps, around, start, j + 1, |steps|, h1);
    assert pod in h2.pods && id.Selects(pod);
    SoleConfines(h1, h2, id.key, d);
  }

  lemma SoleConfines(h: Host, h': Host, key: string, d: string)
    requires Sole(h.reqs, key, d) && Becomes(h, h')
    ensures Confined(h'.reqs, key, d)
  {}

  lemma OccupiedIsAccompanied(
    plans: seq<Plan>, steps: seq<Step>, around: Circumstances, start: Budgets, i: nat, id: GroupId, d: string)
    requires OrderlyRun(plans, steps, around, start) && i < |steps| && OnceDone(steps) && id.kind.PodAffinity?
    requires around.lookup(id).Some? && !VacantAt(plans, steps, i, id, d, around.lookup)
    ensures Accompanied(Hosts(plans[|steps|]), id, d, steps[i].pod.uid, around.lookup)
  {
    hide Orderly, Sound, Leads, Hosts, LandsIn, Confined, GroupId.Selects;
    if d !in around.lookup(id).value {
      var j :| j in Landings(plans, steps, i, id, d);
      LandedStays(plans, steps, around, start, j, id, d, steps[i].pod.uid);
    }
  }

  /** What the placement of a pod grants it lasts until the end of the run. */
  lemma JoinedStays(
    plans: seq<Plan>, steps: seq<Step>, around: Circumstances, start: Budgets, i: nat, p1: Plan, reqs: Requirements,
    h: Host, was: Host, id: GroupId)
    requires OrderlyRun(plans, steps, around, start) && i < |steps| && OnceDone(steps) && Untouched(plans[i], p1)
    requires CountsListed(plans[0].topo.topologies, around.lookup) && id in plans[0].topo.topologies
    requires steps[i].pod.spec.Valid() && id.kind.PodAffinity? && id in p1.topo.topologies &&
      p1.topo.topologies[id].id == id
    requires Joins(reqs, p1.topo.topologies[id], steps[i].pod, Get(StrictPodRequirements(steps[i].pod.spec), id.key))
    requires was.reqs == reqs && Becomes(was, h)
    ensures Joined(h, plans, steps, i, id, around.lookup)
  {
    hide Traced, Orderly, Sound, Hosts, VacantAt, Untouched, Accompanied, PodSpec.Valid, StrictPodRequirements,
      Requirement.Has, GroupId.Selects, OnceDone, CountsListed, Group.Count;
    var v, g := steps[i].pod, p1.topo.topologies[id];
    var open := Get(StrictPodRequirements(v.spec), id.key);
    assert around.lookup(id).Some? by { ListedCount(plans[0].topo, around.lookup, id, ""); }
    if Bootstraps(g, v, open) {
      forall d | open.Has(d) ensures VacantAt(plans, steps, i, id, d, around.lookup) {
        CountMeans(plans, steps, around, start, i, p1, id, d);
      }
    } else {
      forall d | Allows(h.reqs, Normalize(id.key), d)
        ensures Accompanied(Hosts(plans[|steps|]), id, d, v.uid, around.lookup)
      {
        assert g.Count(d) > 0;
        CountMeans(plans, steps, around, start, i, p1, id, d);
        OccupiedIsAccompanied(plans, steps, around, start, i, id, d);
      }
    }
  }

  lemma ClearedStays(
    plans: seq<Plan>, steps: seq<Step>, around: Circumstances, start: Budgets, i: nat, p1: Plan, reqs: Requirements,
    h: Host, was: Host, id: GroupId)
    requires OrderlyRun(plans, steps, around, start) && i < |steps| && Untouched(plans[i], p1)
    requires CountsListed(plans[0].topo.topologies, around.lookup) && id in plans[0].topo.topologies
    requires id in p1.topo.topologies && p1.topo.topologies[id].id == id && ClearOf(reqs, p1.topo.topologies[id])
    requires was.reqs == reqs && Becomes(was, h)
    ensures WasVacant(h, plans, steps, i, id, around.lookup)
  {
    hide Traced, Orderly, Sound, VacantAt, Untouched, CountsListed, Group.Count;
    forall d | Allows(h.reqs, id.key, d) ensures VacantAt(plans, steps, i, id, d, around.lookup) {
      assert p1.topo.topologies[id].Count(d) == 0;
      CountMeans(plans, steps, around, start, i, p1, id, d);
    }
  }

  lemma WantedIsAsked(v: Pod, o: Pod, t: PodTerm)
    requires v.spec.Valid() && StandsFor(v, o) && Wants(v, o, t)
    ensures Ask(AffinityId(t), None) in AffinityAsks(v) && Ask(AffinityId(t), None) in AffinityAsks(o)
  {
    hide PodSpec.Valid;
    var a, hard, soft := Ask(AffinityId(t), None), v.spec.podAffinity, v.spec.preferredPodAffinity;
    if t in hard {
      var i :| 0 <= i < |hard| && hard[i] == t;
      assert AffinityAsks(v)[i] == a;
    } else {
      var w :| w in soft && w.term == t;
      var i :| 0 <= i < |soft| && soft[i] == w;
      assert AffinityAsks(v)[|hard| + i] == a;
    }
    FewerAffinity(o, v, a);
  }

  lemma ShunnedIsAsked(v: Pod, o: Pod, t: PodTerm)
    requires v.spec.Valid() && StandsFor(v, o) && Shuns(v, o, t)
    ensures Ask(AntiId(t), None) in AntiAffinityAsks(v) && Ask(AntiId(t), None) in AntiAffinityAsks(o)
  {
    hide PodSpec.Valid;
    var a, hard, soft := Ask(AntiId(t), None), v.spec.podAntiAffinity, v.spec.preferredPodAntiAffinity;
    if t in hard {
      var i :| 0 <= i < |hard| && hard[i] == t;
      assert AntiAffinityAsks(v)[i] == a;
    } else {
      var w :| w in soft && w.term == t;
      var i :| 0 <= i < |soft| && soft[i] == w;
      assert AntiAffinityAsks(v)[|hard| + i] == a;
    }
    FewerAntiAffinity(o, v, a);
  }

  lemma OwnsTerms(topo: Topo, v: Pod, a: Ask)
    requires v.spec.Valid() && OwnsAsked(topo, v) && (a in AffinityAsks(v) || a in AntiAffinityAsks(v))
    ensures OwnedIn(topo.topologies, a.id, v.uid)
  {
    hide AffinityAsks, AntiAffinityAsks, SpreadAsks, OwnedIn, PodSpec.Valid;
    assert a in Asks(v, false);
  }

  /** What a placement granted, seen from the end of the run. */
  lemma GrantedOnLanding(
    plans: seq<Plan>, steps: seq<Step>, around: Circumstances, start: Budgets, i: nat, v: Pod, o: Pod, h: Host,
    g: Host, reqs: Requirements, allow: set<string>)
    requires OrderlyRun(plans, steps, around, start) && i < |steps| && OnceDone(steps)
    requires CountsListed(plans[0].topo.topologies, around.lookup)
    requires ArrivedAt(plans[i], steps[i], v, h, g, reqs, allow) && Orderly(plans[i], start)
    requires o.spec.Valid() && StandsFor(v, o) && OwnsAsked(plans[0].topo, o) && OwnsAsked(plans[i].topo, v)
    ensures Granted(h, v, o, plans, steps, i, around.lookup)
  {
    hide Traced, Orderly, Sound, Hosts, Untouched, PodSpec.Valid, StrictPodRequirements, OnceDone, CountsListed,
      OwnsAsked, StandsFor, Wants, Shuns, Joined, WasVacant, Joins, ClearOf, Becomes, RecordPod, Placed, TopoInv,
      AllConsistent, PlanInv;
    var p1 :| Untouched(plans[i], p1) &&
      PlacementOn(Hosts(p1), p1.topo, v, g, reqs, allow, Hosts(steps[i].tried), steps[i].tried.topo);
    var was := Host(reqs, g.pods + [v]);
    OrderlyMeans(plans[i], start);
    UntouchedCounts(plans[i], p1, GroupId("", Spread, {}, None, 0, {}), "");
    UntouchedSameOwners(plans[i], p1);
    forall t | Wants(v, o, t) ensures Joined(h, plans, steps, i, AffinityId(t), around.lookup) {
      WantedIsAsked(v, o, t);
      OwnsTerms(plans[0].topo, o, Ask(AffinityId(t), None));
      OwnsTerms(plans[i].topo, v, Ask(AffinityId(t), None));
      JoinedStays(plans, steps, around, start, i, p1, reqs, h, was, AffinityId(t));
    }
    forall t | Shuns(v, o, t) ensures WasVacant(h, plans, steps, i, AntiId(t), around.lookup) {
      ShunnedIsAsked(v, o, t);
      OwnsTerms(plans[0].topo, o, Ask(AntiId(t), None));
      OwnsTerms(plans[i].topo, v, Ask(AntiId(t), None));
      ClearedStays(plans, steps, around, start, i, p1, reqs, h, was, AntiId(t));
    }
  }

  lemma GrantedToOne(
    plans: seq<Plan>, steps: seq<Step>, around: Circumstances, start: Budgets, given: seq<Pod>, o: Pod, h: Host, v: Pod)
    requires OrderlyRun(plans, steps, around, start) && OnceDone(steps)
    requires TriedAsIs(steps, given, around.tolerate) && DistinctPods(given) && o in given && o.spec.Valid()
    requires forall x :: x in Hosts(plans[0]) ==> x.pods == []
    requires CountsListed(plans[0].topo.topologies, around.lookup) && OwnsAsked(plans[0].topo, o)
    requires Resolved(o, around.lookup) && h in Hosts(plans[|steps|]) && v in h.pods && v.uid == o.uid
    ensures WasGranted(h, v, o, plans, steps, around.lookup)
  {
    hide Traced, Orderly, Sound, Hosts, PodSpec.Valid, OnceDone, CountsListed, OwnsAsked, Granted, Becomes, LandsOn,
      TriedAsIs, DistinctPods, Resolved, Current, Reaches, StandsFor;
    var i, g, reqs, allow := Arrived(plans, steps, around, start, |steps|, h, v);
    TriedIs(steps, given, around.tolerate, i, o);
    RunOwnsAsked(plans, steps, around, start, given, i, o);
    StaysOrderly(plans, steps, around, start, i);
    CurrentIsReached(o, steps[..i], around.tolerate);
    StandsForReached(o, v, around.tolerate);
    GrantedOnLanding(plans, steps, around, start, i, v, o, h, g, reqs, allow);
  }

  lemma StandsForReached(o: Pod, v: Pod, tolerate: bool)
    requires o.spec.Valid() && v == o.(spec := v.spec) && Reaches(o.spec, v.spec, tolerate)
    ensures StandsFor(v, o)
  {
    ReachedKeepsHardTerms(o.spec, v.spec, tolerate);
  }

  /** When a run begins every pod of the batch owns what it asks for. */
  lemma StartOwnsAsked(
    p: Plan, start: Budgets, batch: seq<Pod>, orders: seq<bool>, running: seq<Running>, around: Circumstances,
      nodes: seq<NodeSnapshot>, o: Pod)
    requires Begins(p, start, batch, orders, running, around, nodes) && o in batch
    ensures OwnsAsked(p.topo, o)
  {
    hide UpdatedEach, TrackRunning, RegisteredNodes, PlanInv, Separated, Hosts, OwnedIn, ValidTemplate, Physical, Asks,
      PodSpec.Valid;
    var excluded := set b | b in batch :: b.uid;
    var first := Topo(map[], TrackRunning(map[], running, excluded, around.universe));
    TrackRunningIsConsistent(map[], running, excluded, around.universe);
    forall a | a in Asks(o, false) ensures OwnedIn(p.topo.topologies, a.id, o.uid) {
      UpdatedEachOwnsAsked(first, batch, orders, around.universe, around.lookup, o, a.id);
      RegisteredNodesOwned(InitialTopo(batch, orders, running, around.universe, around.lookup).0, nodes, a.id, o.uid);
    }
  }

  /** A batch whose topology could be built asks for nothing that cannot be counted. */
  lemma BatchResolved(
    batch: seq<Pod>, orders: seq<bool>, running: seq<Running>, universe: Universe, lookup: Lookup, o: Pod)
    requires AllSpecsValid(batch) && |orders| == |batch| && InitialTopo(batch, orders, running, universe, lookup).1
    requires o in batch && FiltersCountable(o, lookup)
    ensures Resolved(o, lookup)
  {
    hide InitialTopo, CanOwn, Asks, FiltersCountable, PodSpec.Valid;
    InitialTopoSucceedsIff(batch, orders, running, universe, lookup);
  }

  /** A run grants every pod of the batch the terms that it insists on and those that it has not given up. */
  lemma RunGrantsAll(
    plans: seq<Plan>, steps: seq<Step>, around: Circumstances, start: Budgets, given: seq<Pod>,
    batch: seq<Pod>, orders: seq<bool>, running: seq<Running>, nodes: seq<NodeSnapshot>)
    requires RunOf(plans, steps, around, given) && Begins(plans[0], start, batch, orders, running, around, nodes)
    requires TriedAsIs(steps, given, around.tolerate) && OnceDone(steps) && forall b :: b in batch ==> b in given
    ensures AllGranted(plans, steps, batch, around.lookup)
  {
    hide Hosts, PlanInv, Separated, InitialTopo, RegisteredNodes, ValidTemplate, Physical, Traced, From, PodSpec.Valid,
      AllConsistent, OnceDone, CountsListed, OwnsAsked, TriedAsIs, DistinctPods, Resolved, WasGranted, FiltersCountable,
      MarkHolds, TrackRunning;
    StartCounts(batch, orders, running, around.universe, around.lookup, nodes);
    SeparatedForNone(plans[0], batch);
    forall h, v, o | h in Hosts(plans[|steps|]) && v in h.pods && o in batch && v.uid == o.uid &&
      FiltersCountable(o, around.lookup) ensures WasGranted(h, v, o, plans, steps, around.lookup)
    {
      StartOwnsAsked(plans[0], start, batch, orders, running, around, nodes, o);
      BatchResolved(batch, orders, running, around.universe, around.lookup, o);
      GrantedToOne(plans, steps, around, start, given, o, h, v);
    }
  }
}
