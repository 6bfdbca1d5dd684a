/**
 The scheduling loop: try the next pod; if it fails, relax one of its preferences if it
 has any and put it back, until the queue is empty or stops making progress.
 */
module Solving {
  import opened Common
  import opened Pods
  import opened PreferenceRelaxation
  import opened Topologies
  import opened AntiAffinitySafety
  import opened RelaxedLookups
  import opened NodeClaims
  import opened ExistingNodes
  import opened NodePoolLimits
  import opened Plans
  import opened Scheduling
  import opened SchedulerQueue

  // ----- One attempt

  /** What an attempt leaves: the plan's invariants, and the pod placed once or not at all. */
  lemma AttemptKeeps(
    ok: bool, p: Plan, pod: Pod, templates: seq<Template>, catalog: Catalog, p': Plan, start: Budgets, batch: seq<Pod>)
    requires pod.spec.Valid() && PlanInv(p, start) && Attempted(ok, p, pod, templates, catalog, p')
    requires (forall t :: t in templates ==> ValidTemplate(t)) &&
      (forall pool :: pool in catalog ==> Physical(catalog[pool]))
    ensures PlanInv(p', start) && (Separated(p, batch) ==> Separated(p', batch))
    ensures PlacedPods(p') == PlacedPods(p) || PlacedPods(p') == PlacedPods(p) + multiset{pod}
    ensures !ok ==> PlacedPods(p') == PlacedPods(p)
    ensures ok && templates != [] ==> PlacedPods(p') == PlacedPods(p) + multiset{pod}
    ensures ok && PlacedPods(p') == PlacedPods(p) ==> NoRoom(p, pod)
  {
    hide PlanInv, Separated, PlacedOnNode, PlacedOnClaim, PlacedOnNew, Untouched, NoRoom, PlacedPods, ValidTemplate,
      Physical;
    if Untouched(p, p') && NoRoom(p, pod) && (ok <==> templates == []) {
      UntouchedKeeps(p, p', start, batch);
      UntouchedKeepsPods(p, p', start);
    } else if PlacedOnNode(p, pod, p') {
      PlacedOnNodeProgress(p, pod, p', start, batch);
    } else if PlacedOnClaim(p, pod, p') {
      PlacedOnClaimProgress(p, pod, p', start, batch);
    } else {
      PlacedOnNewProgress(p, pod, templates, catalog, p', start, batch);
    }
  }

  /** Without templates an attempt that places nothing is still reported as a success, even on an empty cluster. */
  lemma NoTemplateDropsPod(pod: Pod, topo: Topo)
    requires pod.spec.Valid()
    ensures var p := Plan([], [], map[], topo); Attempted(true, p, pod, [], map[], p) && PlacedPods(p) == multiset{}
  {
    var p := Plan([], [], map[], topo);
    assert Reordered(p, p) && p == NamedAll(p, []);
  }

  // ----- How long the loop can run

  /** Relaxations left in the queue. */
  ghost function Relaxations(pods: seq<LivePod>, tolerate: bool): nat reads pods {
    if pods == [] then 0 else Potential(pods[0].spec, tolerate) + Relaxations(pods[1..], tolerate)
  }

  lemma {:induction false} RelaxationsAppend(pods: seq<LivePod>, p: LivePod, tolerate: bool)
    ensures Relaxations(pods + [p], tolerate) == Relaxations(pods, tolerate) + Potential(p.spec, tolerate)
  {
    if pods == [] {
      assert [p][1..] == [];
    } else {
      assert (pods + [p])[1..] == pods[1..] + [p];
      RelaxationsAppend(pods[1..], p, tolerate);
    }
  }

  lemma RelaxationsHead(pods: seq<LivePod>, tolerate: bool)
    requires pods != []
    ensures Relaxations(pods, tolerate) == Potential(pods[0].spec, tolerate) + Relaxations(pods[1..], tolerate)
  {}

  /** Attempts that can still come: a full round per pod and relaxation left, and the rest of this round. */
  function AttemptsLeft(pods: nat, relaxations: nat, tried: nat, n: nat): int {
    (pods + relaxations) * (n + 1) + pods - tried
  }

  /** An attempt uses up at least one, whatever its outcome. */
  lemma AttemptCounts(pods: nat, relaxations: nat, tried: nat, n: nat, used: nat)
    requires tried < pods <= n && used <= relaxations
    ensures AttemptsLeft(pods, relaxations, tried + 1, n) == AttemptsLeft(pods, relaxations, tried, n) - 1 >= 0
    ensures AttemptsLeft(pods - 1, relaxations - used, 0, n) < AttemptsLeft(pods, relaxations, tried, n)
    ensures relaxations > 0 ==> AttemptsLeft(pods, relaxations - 1, 0, n) < AttemptsLeft(pods, relaxations, tried, n)
  {
    var m := n + 1;
    assert (pods - 1 + relaxations - used) * m == (pods + relaxations) * m - (1 + used) * m;
    assert (1 + used) * m == m + used * m;
    assert used * m >= 0;
    assert (pods + relaxations - 1) * m == (pods + relaxations) * m - m;
    assert (pods + relaxations) * m >= 0;
  }

  lemma AttemptsBound(n: nat, relaxations: nat)
    ensures AttemptsLeft(n, relaxations, 0, n) < (n + relaxations + 1) * (n + 1)
  {
    assert (n + relaxations + 1) * (n + 1) == (n + relaxations) * (n + 1) + (n + 1);
  }

  // ----- The history of a run

  datatype Outcome = Done | Relaxing | Failing

  datatype Attempt = Attempt(uid: UID, outcome: Outcome)

  /** The run ends with one failure of each of the pods, in queue order. */
  predicate EndsWithFailures(history: seq<Attempt>, uids: seq<UID>) {
    |uids| <= |history| &&
    forall i :: 0 <= i < |uids| ==> history[|history| - |uids| + i] == Attempt(uids[i], Failing)
  }

  /** The queue between two attempts, with the history and the errors that go with it. */
  predicate QueueState(uids: seq<UID>, lastLen: Lengths, tried: nat, history: seq<Attempt>, errors: set<UID>) {
    && Tried(uids, lastLen, tried)
    && EndsWithFailures(history, uids[|uids| - tried..])
    && (forall u :: u in errors ==> u in uids)
    && (forall i :: |uids| - tried <= i < |uids| ==> uids[i] in errors)
  }

  lemma DoneKeeps(uids: seq<UID>, lastLen: Lengths, tried: nat, history: seq<Attempt>, errors: set<UID>)
    requires QueueState(uids, lastLen, tried, history, errors) && uids != []
    ensures QueueState(uids[1..], lastLen, 0, history + [Attempt(uids[0], Done)], errors - {uids[0]})
  {
    PlacedResets(uids, lastLen, tried);
    forall u | u in errors - {uids[0]} ensures u in uids[1..] {
      var i :| 0 <= i < |uids| && uids[i] == u;
      assert uids[1..][i - 1] == u;
    }
  }

  lemma RelaxingKeeps(uids: seq<UID>, lastLen: Lengths, tried: nat, history: seq<Attempt>, errors: set<UID>)
    requires QueueState(uids, lastLen, tried, history, errors) && uids != []
    ensures QueueState(uids[1..] + [uids[0]], map[], 0, history + [Attempt(uids[0], Relaxing)], errors + {uids[0]})
  {
    RelaxedResets(uids);
    RotatedMembers(uids);
  }

  lemma RotatedMembers(uids: seq<UID>)
    requires uids != []
    ensures forall u :: u in uids <==> u in uids[1..] + [uids[0]]
  {
    assert uids == [uids[0]] + uids[1..];
  }

  lemma EndsWithOneMore(history: seq<Attempt>, uids: seq<UID>, u: UID)
    requires EndsWithFailures(history, uids)
    ensures EndsWithFailures(history + [Attempt(u, Failing)], uids + [u])
  {}

  lemma FailingKeeps(uids: seq<UID>, lastLen: Lengths, tried: nat, history: seq<Attempt>, errors: set<UID>)
    requires QueueState(uids, lastLen, tried, history, errors) && tried < |uids|
    ensures QueueState(uids[1..] + [uids[0]], lastLen[uids[0] := |uids|], tried + 1,
      history + [Attempt(uids[0], Failing)], errors + {uids[0]})
  {
    hide Tried, LastLen;
    assert Tried(uids[1..] + [uids[0]], lastLen[uids[0] := |uids|], tried + 1) by {
      FailedIsTried(uids, lastLen, tried);
    }
    RotatedMembers(uids);
    var uids', n := uids[1..] + [uids[0]], |uids|;
    assert uids'[n - tried - 1..] == uids[n - tried..] + [uids[0]];
    EndsWithOneMore(history, uids[n - tried..], uids[0]);
    forall i | n - (tried + 1) <= i < n ensures uids'[i] in errors + {uids[0]} {
      assert i < n - 1 ==> uids'[i] == uids[i + 1];
    }
  }

  /** When the queue gives up, every pod left failed after the last success and the last relaxation. */
  lemma GivingUpMeans(uids: seq<UID>, lastLen: Lengths, tried: nat, history: seq<Attempt>, errors: set<UID>)
    requires QueueState(uids, lastLen, tried, history, errors) && Stale(uids, lastLen)
    ensures EndsWithFailures(history, uids) && errors == Elements(uids)
  {
    hide Stale, Tried, EndsWithFailures;
    StaleIffAllTried(uids, lastLen, tried);
    assert uids[0..] == uids;
    forall u | u in uids ensures u in errors {
      var i :| 0 <= i < |uids| && uids[i] == u;
    }
  }

  // ----- The loop

  function PodUIDs(pods: seq<Pod>): seq<UID> { seq(|pods|, i requires 0 <= i < |pods| => pods[i].uid) }

  /** Every pod is placed, dropped or still waiting, exactly once. */
  predicate Partition(all: seq<UID>, placed: seq<Pod>, dropped: seq<UID>, waiting: seq<UID>) {
    multiset(all) == multiset(PodUIDs(placed)) + multiset(dropped) + multiset(waiting)
  }

  /** With distinct pods and nothing dropped, a partition leaves each pod in exactly one place. */
  lemma EveryPodOnce(all: seq<UID>, placed: seq<Pod>, waiting: seq<UID>, u: UID)
    requires NoDuplicates(all) && Partition(all, placed, [], waiting) && u in all
    ensures multiset(PodUIDs(placed))[u] + multiset(waiting)[u] == 1
  {
    var i :| 0 <= i < |all| && all[i] == u;
    WithoutMultiset(all, i);
    assert u !in Without(all, i) && multiset(all)[u] == 1;
    assert multiset(all) == multiset(PodUIDs(placed)) + multiset(waiting);
  }

  lemma PartitionPlaced(all: seq<UID>, placed: seq<Pod>, dropped: seq<UID>, waiting: seq<UID>, pod: Pod)
    requires Partition(all, placed, dropped, waiting) && waiting != [] && pod.uid == waiting[0]
    ensures Partition(all, placed + [pod], dropped, waiting[1..])
    ensures Partition(all, placed, dropped + [pod.uid], waiting[1..])
    ensures Partition(all, placed, dropped, waiting[1..] + [waiting[0]])
  {
    assert PodUIDs(placed + [pod]) == PodUIDs(placed) + [pod.uid];
    assert waiting == [waiting[0]] + waiting[1..];
  }

  /** Every pod of the queue can be scheduled by the scheduler it is given to. */
  ghost predicate Ready(pods: seq<LivePod>, batch: seq<Pod>) reads pods {
    forall p :: p in pods ==> p.spec.Valid() && Identified(batch, p.Value())
  }

  /** The pod did not move, and its spec changed as the outcome says. */
  ghost predicate Changed(outcome: Outcome, spec: PodSpec, spec': PodSpec, tolerate: bool) {
    match outcome
    case Done => spec' == spec
    case Relaxing => Relaxed(spec, tolerate) == Some(spec')
    case Failing => Relaxed(spec, tolerate).None? && spec' == spec
  }

  /** The pod was placed exactly if the attempt is done; without templates it may also have been dropped. */
  ghost predicate Moved(outcome: Outcome, p: Plan, pod: Pod, p': Plan, templates: seq<Template>) {
    || (outcome.Done? && PlacedPods(p') == PlacedPods(p) + multiset{pod})
    || ((outcome.Done? ==> templates == []) && PlacedPods(p') == PlacedPods(p))
  }

  /**
   If the pod is one of the batch, no relaxation of it runs into a failing lookup before its
   required terms are dealt with.
   */
  ghost predicate Follows(pod: Pod, batch: seq<Pod>, tolerate: bool, lookup: Lookup) {
    pod.spec.Valid() && (InBatch(batch, pod) ==> Followable(pod, tolerate, lookup))
  }

  ghost predicate AllFollow(pods: seq<LivePod>, batch: seq<Pod>, tolerate: bool, lookup: Lookup) reads pods {
    forall p :: p in pods ==> Follows(p.Value(), batch, tolerate, lookup)
  }

  // ----- Where pods come from

  function Values(pods: seq<LivePod>): seq<Pod> reads pods {
    seq(|pods|, i requires 0 <= i < |pods| reads pods => pods[i].Value())
  }

  // ----- Traces

  /** One attempt: the pod as it was tried, what came of it, and the plan before the topology was updated. */
  datatype Step = Step(pod: Pod, outcome: Outcome, tried: Plan, antiFirst: bool)

  /** What does not change during a run. */
  datatype Circumstances = Circumstances(
    templates: seq<Template>, catalog: Catalog, tolerate: bool, universe: Universe, lookup: Lookup)

  /** The step leads from one plan to the next. */
  ghost predicate Leads(p: Plan, step: Step, p': Plan, around: Circumstances) {
    && step.pod.spec.Valid()
    && Attempted(step.outcome.Done?, p, step.pod, around.templates, around.catalog, step.tried)
    && match step.outcome
       case Done => p' == step.tried
       case Failing => Relaxed(step.pod.spec, around.tolerate).None? && p' == step.tried
       case Relaxing =>
         && Relaxed(step.pod.spec, around.tolerate).Some?
         && var relaxed := step.pod.(spec := Relaxed(step.pod.spec, around.tolerate).value);
         && relaxed.spec.Valid()
         && p' == step.tried.(topo := Updated(step.tried.topo, relaxed, step.antiFirst, around.universe,
           around.lookup).0)
  }

  /** A given pod after the steps: relaxed once for each failed attempt that ended in a relaxation. */
  function Current(o: Pod, steps: seq<Step>, tolerate: bool): Pod {
    if steps == [] then o
    else
      var before, last := Current(o, steps[..|steps| - 1], tolerate), steps[|steps| - 1];
      if last.pod.uid == o.uid && last.outcome.Relaxing? && Relaxed(before.spec, tolerate).Some? then
        before.(spec := Relaxed(before.spec, tolerate).value)
      else before
  }

  /** However many steps there are, they only relax. */
  lemma {:induction false} CurrentIsReached(o: Pod, steps: seq<Step>, tolerate: bool)
    ensures var v := Current(o, steps, tolerate); v == o.(spec := v.spec) && Reaches(o.spec, v.spec, tolerate)
  {
    hide Relaxed, Potential, Reaches;
    if steps == [] {
      ReachesItself(o.spec, tolerate);
      assert o == o.(spec := o.spec);
    } else {
      var n := |steps| - 1;
      var before := Current(o, steps[..n], tolerate);
      CurrentIsReached(o, steps[..n], tolerate);
      if Relaxed(before.spec, tolerate).Some? {
        ReachesNext(o.spec, before.spec, tolerate);
      }
    }
  }

  lemma ReachesItself(spec: PodSpec, tolerate: bool)
    ensures Reaches(spec, spec, tolerate)
  {}

  ghost predicate IsCurrent(pod: Pod, given: seq<Pod>, steps: seq<Step>, tolerate: bool) {
    exists o :: o in given && pod == Current(o, steps, tolerate)
  }

  /** Every pod is tried as it is at that point: what was given, less what earlier failures cost it. */
  ghost predicate TriedAsIs(steps: seq<Step>, given: seq<Pod>, tolerate: bool) {
    forall i :: 0 <= i < |steps| ==> IsCurrent(steps[i].pod, given, steps[..i], tolerate)
  }

  lemma TriedComesFrom(steps: seq<Step>, given: seq<Pod>, tolerate: bool, i: nat)
    requires TriedAsIs(steps, given, tolerate) && i < |steps|
    ensures From(given, steps[i].pod, tolerate)
  {
    hide Relaxed, Potential, Reaches;
    assert IsCurrent(steps[i].pod, given, steps[..i], tolerate);
    var o :| o in given && steps[i].pod == Current(o, steps[..i], tolerate);
    CurrentIsReached(o, steps[..i], tolerate);
  }

  /** The pods are what the steps have made of the given ones. */
  ghost predicate UpToDate(pods: seq<Pod>, given: seq<Pod>, steps: seq<Step>, tolerate: bool) {
    |pods| == |given| && forall i :: 0 <= i < |pods| ==> pods[i] == Current(given[i], steps, tolerate)
  }

  /** A step changes the pod it tries, as its outcome says, and no other. */
  ghost predicate OnlyChanges(before: seq<Pod>, after: seq<Pod>, step: Step, tolerate: bool) {
    && |before| == |after| && step.pod in before
    && forall i :: 0 <= i < |before| ==>
         if before[i].uid != step.pod.uid then after[i] == before[i]
         else
           && before[i] == step.pod && after[i] == before[i].(spec := after[i].spec)
           && Changed(step.outcome, before[i].spec, after[i].spec, tolerate)
  }

  lemma StepStaysUpToDate(
    before: seq<Pod>, after: seq<Pod>, given: seq<Pod>, steps: seq<Step>, step: Step, tolerate: bool)
    requires UpToDate(before, given, steps, tolerate) && OnlyChanges(before, after, step, tolerate)
    ensures UpToDate(after, given, steps + [step], tolerate)
    ensures IsCurrent(step.pod, given, steps, tolerate)
  {
    hide Relaxed;
    assert (steps + [step])[..|steps|] == steps;
    var k :| 0 <= k < |before| && before[k] == step.pod;
    assert given[k] in given;
    forall i | 0 <= i < |after| ensures after[i] == Current(given[i], steps + [step], tolerate) {
      SameUID(given[i], steps, tolerate);
    }
  }

  lemma SameUID(o: Pod, steps: seq<Step>, tolerate: bool)
    ensures Current(o, steps, tolerate).uid == o.uid
  {
    hide Current;
    CurrentIsReached(o, steps, tolerate);
  }

  /** Pods with identities of their own, of which one has changed. */
  lemma OneHasChanged(pods: seq<LivePod>, pod: LivePod, before: seq<Pod>, step: Step, tolerate: bool)
    requires NoDuplicates(UIDs(pods)) && pod in pods && |before| == |pods|
    requires forall i ::
      0 <= i < |pods| ==> before[i].uid == pods[i].uid && (pods[i] != pod ==> pods[i].Value() == before[i])
    requires forall i ::
      0 <= i < |pods| && pods[i] == pod ==> before[i] == step.pod && pod.Value() == step.pod.(spec := pod.spec)
    requires Changed(step.outcome, step.pod.spec, pod.spec, tolerate)
    ensures OnlyChanges(before, Values(pods), step, tolerate)
  {
    hide Changed;
    var k :| 0 <= k < |pods| && pods[k] == pod;
    forall i | 0 <= i < |pods| && pods[i].uid == pod.uid ensures pods[i] == pod {
      assert UIDs(pods)[i] == UIDs(pods)[k];
    }
    assert before[k] in before;
  }

  /** The plans of a run, one more than its steps. */
  ghost predicate Traced(plans: seq<Plan>, steps: seq<Step>, around: Circumstances) {
    |plans| == |steps| + 1 && forall i :: 0 <= i < |steps| ==> Leads(plans[i], steps[i], plans[i + 1], around)
  }

  lemma NoSteps(p: Plan, around: Circumstances)
    ensures Traced([p], [], around) && Attempts([]) == []
  {}

  lemma OneMoreStep(plans: seq<Plan>, steps: seq<Step>, step: Step, p: Plan, around: Circumstances)
    requires |plans| == |steps| + 1 && Traced(plans, steps, around) && Leads(plans[|steps|], step, p, around)
    ensures Traced(plans + [p], steps + [step], around)
  {
    hide Leads;
    var plans', steps' := plans + [p], steps + [step];
    forall i | 0 <= i < |steps'| ensures Leads(plans'[i], steps'[i], plans'[i + 1], around) {
      if i < |steps| {
        assert Leads(plans[i], steps[i], plans[i + 1], around);
      }
    }
  }

  ghost function Around(s: Scheduler, preferences: Preferences): Circumstances {
    Circumstances(s.templates, s.catalog, preferences.toleratePreferNoSchedule, s.topology.universe, s.topology.lookup)
  }

  /**
   One attempt to place the pod, and its relaxation if that fails; a topology that could not
   be updated is used as it is.
   */
  method Try(s: Scheduler, preferences: Preferences, pod: LivePod, ghost batch: seq<Pod>)
    returns (outcome: Outcome, ghost step: Step)
    requires s.Valid() && pod.spec.Valid() && Identified(batch, pod.Value()) && DistinctPods(batch) && pod !in s.Repr()
    modifies s.Repr(), pod
    ensures s.Valid() && pod.spec.Valid() && Identified(batch, pod.Value())
    ensures forall o :: o in s.Repr() && o !in old(s.Repr()) ==> !old(allocated(o))
    ensures Changed(outcome, old(pod.spec), pod.spec, preferences.toleratePreferNoSchedule)
    ensures Moved(outcome, old(s.View()), old(pod.Value()), s.View(), s.templates)
    ensures step.pod == old(pod.Value()) && step.outcome == outcome &&
      Leads(old(s.View()), step, s.View(), Around(s, preferences))
    ensures old(Follows(pod.Value(), batch, preferences.toleratePreferNoSchedule, s.topology.lookup)) ==>
      && Follows(pod.Value(), batch, preferences.toleratePreferNoSchedule, s.topology.lookup)
      && (old(Separated(s.View(), batch)) ==> Separated(s.View(), batch))
  {
    hide Follows, PlanInv, Separated, Scheduler.View, Scheduler.Apart, PlacedPods, Attempted, Relaxed, Updated,
      ValidTemplate, Physical, PodSpec.Valid, Topology.Valid, Identified, DistinctPods, NodeObjects, ClaimObjects,
      Topology.Repr, AllNumbered;
    ghost var p := s.View();
    var value := pod.Value();
    var ok := s.Add(value);
    ghost var p1 := s.View();
    AttemptKeeps(ok, p, value, s.templates, s.catalog, p1, s.start, batch);
    step := Step(value, Failing, p1, false);
    if ok {
      outcome, step := Done, Step(value, Done, p1, false);
      return;
    }
    var relaxed := RelaxPod(s, preferences, pod);
    if !relaxed {
      outcome := Failing;
      return;
    }
    outcome := Relaxing;
    RelaxedStaysIdentified(value, preferences.toleratePreferNoSchedule, batch);
    RelaxedFollows(value, batch, preferences.toleratePreferNoSchedule, s.topology.lookup);
    FollowingCanOwn(p1.topo.topologies, pod.Value(), batch, preferences.toleratePreferNoSchedule, s.topology.lookup);
    var updated;
    ghost var antiFirst;
    updated, antiFirst := s.UpdateTopology(pod.Value());
    step := Step(value, Relaxing, p1, antiFirst);
    UpdatedPlanKeeps(p1, pod.Value(), antiFirst, s.topology.universe, s.topology.lookup, s.start, batch);
  }

  /** Relaxing a pod does not touch the scheduler. */
  method RelaxPod(s: Scheduler, preferences: Preferences, pod: LivePod) returns (relaxed: bool)
    requires s.Sound() && pod !in s.Repr()
    modifies pod
    ensures s.Sound() && s.Repr() == old(s.Repr()) && s.View() == old(s.View()) && s.nodeId == old(s.nodeId)
    ensures var r := Relaxed(old(pod.spec), preferences.toleratePreferNoSchedule);
      relaxed == r.Some? && pod.spec == if relaxed then r.value else old(pod.spec)
  {
    hide Scheduler.View, Scheduler.Apart, Scheduler.Sound, Relaxed, NodeObjects, ClaimObjects, Topology.Repr;
    assert allocated(s.Repr());
    relaxed := preferences.Relax(pod);
  }

  lemma RelaxedStaysIdentified(pod: Pod, tolerate: bool, batch: seq<Pod>)
    requires pod.spec.Valid() && Identified(batch, pod) && Relaxed(pod.spec, tolerate).Some?
    ensures var spec := Relaxed(pod.spec, tolerate).value; spec.Valid() && Identified(batch, pod.(spec := spec))
  {
    hide Relaxed;
    RelaxedKeepsHardTerms(pod.spec, tolerate);
  }

  lemma RelaxedFollows(pod: Pod, batch: seq<Pod>, tolerate: bool, lookup: Lookup)
    requires pod.spec.Valid() && Relaxed(pod.spec, tolerate).Some?
    ensures Follows(pod, batch, tolerate, lookup) ==>
      Follows(pod.(spec := Relaxed(pod.spec, tolerate).value), batch, tolerate, lookup)
  {
    hide Relaxed, RequiredCanOwn;
    RelaxedKeepsHardTerms(pod.spec, tolerate);
  }

  lemma FollowingCanOwn(gs: Groups, pod: Pod, batch: seq<Pod>, tolerate: bool, lookup: Lookup)
    requires pod.spec.Valid()
    ensures Follows(pod, batch, tolerate, lookup) && InBatch(batch, pod) ==>
            RequiredCanOwn(gs, pod, false, lookup) && RequiredCanOwn(gs, pod, true, lookup)
  {
    hide RequiredCanOwn, Relaxed;
    if Follows(pod, batch, tolerate, lookup) && InBatch(batch, pod) {
      CanOwnAnywhere(gs, pod, false, lookup);
      CanOwnAnywhere(gs, pod, true, lookup);
    }
  }

  /**
   Updating the topology keeps the plan, and keeps repelling pods apart if the pod's required
   terms can be dealt with.
   */
  lemma UpdatedPlanKeeps(
    p: Plan, pod: Pod, antiFirst: bool, universe: Universe, lookup: Lookup, start: Budgets, batch: seq<Pod>)
    requires pod.spec.Valid() && Identified(batch, pod) && DistinctPods(batch)
    ensures var p' := p.(topo := Updated(p.topo, pod, antiFirst, universe, lookup).0);
      && (PlanInv(p, start) ==> PlanInv(p', start)) && PlacedPods(p') == PlacedPods(p)
      && (Separated(p, batch) ==>
            (Separated(p', batch) <==> (InBatch(batch, pod) ==>
              RequiredCanOwn(p.topo.topologies, pod, antiFirst, lookup))))
  {
    hide NodeInv, ClaimInv, LimitInv, Inv, Updated, RequiredCanOwn;
    var p' := p.(topo := Updated(p.topo, pod, antiFirst, universe, lookup).0);
    assert Hosts(p') == Hosts(p);
    if Separated(p, batch) {
      UpdateKeepsInv(Hosts(p), p.topo, pod, antiFirst, universe, lookup, batch);
    }
  }

  ghost predicate Independent(pods: seq<LivePod>, s: Scheduler) reads s, s.topology {
    forall p :: p in pods ==> p !in s.Repr()
  }

  /** An upper bound on the attempts still to come. */
  ghost function LeftToTry(q: Queue, tried: nat, n: nat, tolerate: bool): int reads q, q.pods {
    AttemptsLeft(|q.pods|, Relaxations(q.pods, tolerate), tried, n)
  }

  /** A pod that is not done goes to the back of the queue. */
  ghost predicate Requeued(
    outcome: Outcome, queue: seq<LivePod>, lastLen: Lengths, queue': seq<LivePod>, lastLen': Lengths)
    requires queue != []
  {
    match outcome
    case Done => queue' == queue[1..] && lastLen' == lastLen
    case Relaxing => queue' == queue[1..] + [queue[0]] && lastLen' == map[]
    case Failing => queue' == queue[1..] + [queue[0]] && lastLen' == lastLen[queue[0].uid := |queue|]
  }

  /** Relaxing uses up one relaxation, placing a pod those it had left. */
  predicate Spent(outcome: Outcome, before: nat, after: nat) {
    match outcome
    case Done => after <= before
    case Relaxing => after == before - 1
    case Failing => after == before
  }

  /** The scheduler and the pods are fit for the next attempt. */
  ghost predicate Fit(s: Scheduler, q: Queue, pods: seq<LivePod>, batch: seq<Pod>)
    reads s, s.topology, s.Repr(), q, pods
  {
    && s.Valid() && Independent(pods, s) && q !in s.Repr() && Ready(pods, batch)
    && (forall p :: p in q.pods ==> p in pods) && NoDuplicates(UIDs(q.pods))
  }

  /** What one round did to the queue, the plan and the relaxations left. */
  ghost predicate Attended(
    outcome: Option<Outcome>, value: Pod, queue: seq<LivePod>, lastLen: Lengths, p: Plan, relaxations: nat,
    queue': seq<LivePod>, lastLen': Lengths, p': Plan, relaxations': nat, templates: seq<Template>)
  {
    match outcome
    case None =>
      Stale(UIDs(queue), lastLen) && queue' == queue && lastLen' == lastLen && p' == p && relaxations' == relaxations
    case Some(o) =>
      && !Stale(UIDs(queue), lastLen) && queue != [] && value.uid == queue[0].uid
      && Requeued(o, queue, lastLen, queue', lastLen') && Moved(o, p, value, p', templates) &&
        Spent(o, relaxations, relaxations')
  }

  /** One round of the loop, which ends it if the queue gives up. */
  method Attend(s: Scheduler, preferences: Preferences, q: Queue, pods: seq<LivePod>, ghost batch: seq<Pod>)
    returns (outcome: Option<Outcome>, value: Pod, ghost step: Step)
    requires Fit(s, q, pods, batch) && DistinctPods(batch) && NoDuplicates(UIDs(pods))
    modifies s.Repr(), pods, q
    ensures Fit(s, q, pods, batch) && forall o :: o in s.Repr() && o !in old(s.Repr()) ==> !old(allocated(o))
    ensures var tolerate := preferences.toleratePreferNoSchedule;
      Attended(outcome, value, old(q.pods), old(q.lastLen), old(s.View()), old(Relaxations(q.pods, tolerate)),
               q.pods, q.lastLen, s.View(), Relaxations(q.pods, tolerate), s.templates)
    ensures outcome.Some? ==>
      step.pod == value && step.outcome == outcome.value && Leads(old(s.View()), step, s.View(), Around(s, preferences))
    ensures outcome.None? ==> Values(pods) == old(Values(pods))
    ensures outcome.Some? ==>
      OnlyChanges(old(Values(pods)), Values(pods), step, preferences.toleratePreferNoSchedule)
    ensures old(AllFollow(pods, batch, preferences.toleratePreferNoSchedule, s.topology.lookup)) ==>
      && AllFollow(pods, batch, preferences.toleratePreferNoSchedule, s.topology.lookup)
      && (old(Separated(s.View(), batch)) ==> Separated(s.View(), batch))
  {
    hide OnlyChanges, Leads, AllFollow, Separated, PlacedPods, Scheduler.Valid, Scheduler.View, DistinctPods, Stale,
      PodSpec.Valid, Identified, UIDs, Moved, Potential, Changed, Relaxed, Scheduler.Repr, NodeObjects, ClaimObjects,
      Topology.Repr, NoDuplicates, Ready, Independent, Relaxations;
    ghost var tolerate, queue := preferences.toleratePreferNoSchedule, q.pods;
    outcome, value, step := None, *, *;
    var next := PopNext(s, q);
    if next.None? {
      return;
    }
    var pod := next.value;
    value := pod.Value();
    assert pod in queue;
    ghost var rest, spec := q.pods, pod.spec;
    QueueTail(queue);
    RelaxationsHead(queue, tolerate);
    var result;
    result, step := TryHead(s, preferences, q, pods, pod, batch);
    outcome := Some(result);
    if !result.Done? {
      PushBack(s, q, pod, result.Relaxing?);
      RelaxationsAppend(rest, pod, tolerate);
    }
    SpecSpends(result, spec, pod.spec, tolerate);
  }

  /** The attempt for a pod just taken from the queue leaves the other pods and the queue alone. */
  method TryHead(
    s: Scheduler, preferences: Preferences, q: Queue, pods: seq<LivePod>, pod: LivePod, ghost batch: seq<Pod>)
    returns (outcome: Outcome, ghost step: Step)
    requires s.Valid() && Independent(pods, s) && q !in s.Repr() && Ready(pods, batch) && DistinctPods(batch)
    requires NoDuplicates(UIDs(pods))
    requires pod in pods && pod !in q.pods && forall p :: p in q.pods ==> p in pods
    modifies s.Repr(), pod
    ensures s.Valid() && Independent(pods, s) && q !in s.Repr() && Ready(pods, batch)
    ensures forall o :: o in s.Repr() && o !in old(s.Repr()) ==> !old(allocated(o))
    ensures q.pods == old(q.pods) && q.lastLen == old(q.lastLen)
    ensures var tolerate := preferences.toleratePreferNoSchedule;
      && Relaxations(q.pods, tolerate) == old(Relaxations(q.pods, tolerate))
      && Changed(outcome, old(pod.spec), pod.spec, tolerate)
    ensures Moved(outcome, old(s.View()), old(pod.Value()), s.View(), s.templates)
    ensures step.pod == old(pod.Value()) && step.outcome == outcome &&
      Leads(old(s.View()), step, s.View(), Around(s, preferences))
    ensures OnlyChanges(old(Values(pods)), Values(pods), step, preferences.toleratePreferNoSchedule)
    ensures old(AllFollow(pods, batch, preferences.toleratePreferNoSchedule, s.topology.lookup)) ==>
      && AllFollow(pods, batch, preferences.toleratePreferNoSchedule, s.topology.lookup)
      && (old(Separated(s.View(), batch)) ==> Separated(s.View(), batch))
  {
    hide Leads, Follows, Separated, PlacedPods, Scheduler.Valid, Scheduler.View, DistinctPods, PodSpec.Valid,
      Identified, Moved, Potential, Relaxed, NodeObjects, ClaimObjects, Topology.Repr, Relaxations, Changed;
    ghost var before := Values(pods);
    outcome, step := Try(s, preferences, pod, batch);
    OneHasChanged(pods, pod, before, step, preferences.toleratePreferNoSchedule);
  }

  lemma SpecSpends(outcome: Outcome, spec: PodSpec, spec': PodSpec, tolerate: bool)
    requires Changed(outcome, spec, spec', tolerate)
    ensures Potential(spec', tolerate) == Potential(spec, tolerate) - (if outcome.Relaxing? then 1 else 0)
  {
    hide Relaxed, Potential;
    RelaxedDropsPotential(spec, tolerate);
  }

  /** The first pod does not occur again, and putting it last changes no identity. */
  lemma QueueTail(queue: seq<LivePod>)
    requires queue != [] && NoDuplicates(UIDs(queue))
    ensures queue[0] !in queue[1..] && NoDuplicates(UIDs(queue[1..])) && NoDuplicates(UIDs(queue[1..] + [queue[0]]))
  {
    HeadUID(queue);
    forall i | 1 <= i < |queue| ensures queue[i] != queue[0] {
      assert UIDs(queue)[i] == queue[i].uid;
    }
    RotateDistinct(UIDs(queue));
  }

  lemma NotAllTried(uids: seq<UID>, lastLen: Lengths, tried: nat, history: seq<Attempt>, errors: set<UID>)
    requires QueueState(uids, lastLen, tried, history, errors) && !Stale(uids, lastLen)
    ensures tried < |uids|
  {
    StaleIffAllTried(uids, lastLen, tried);
  }

  lemma HeadUID(queue: seq<LivePod>)
    requires queue != []
    ensures UIDs(queue) != [] && UIDs(queue)[0] == queue[0].uid && UIDs(queue[1..]) == UIDs(queue)[1..]
    ensures UIDs(queue[1..] + [queue[0]]) == UIDs(queue)[1..] + [UIDs(queue)[0]]
  {}

  method PushBack(s: Scheduler, q: Queue, pod: LivePod, relaxed: bool)
    requires s.Valid() && q !in s.Repr()
    modifies q
    ensures s.Valid() && s.Repr() == old(s.Repr()) && s.View() == old(s.View())
    ensures q.pods == old(q.pods) + [pod] && q.lastLen == if relaxed then map[] else old(q.lastLen)[pod.uid := |q.pods|]
  {
    hide Scheduler.View, Scheduler.Apart, Scheduler.Sound, Scheduler.Valid, NodeObjects, ClaimObjects, Topology.Repr;
    assert allocated(s.Repr());
    q.Push(pod, relaxed);
  }

  /** Taking the next pod does not touch the scheduler. */
  method PopNext(s: Scheduler, q: Queue) returns (next: Option<LivePod>)
    requires s.Valid() && q !in s.Repr()
    modifies q
    ensures s.Valid() && s.Repr() == old(s.Repr()) && s.View() == old(s.View())
    ensures next.None? <==> Stale(UIDs(old(q.pods)), old(q.lastLen))
    ensures q.lastLen == old(q.lastLen)
    ensures next.None? ==> q.pods == old(q.pods)
    ensures next.Some? ==> old(q.pods) != [] && next.value == old(q.pods)[0] && q.pods == old(q.pods)[1..]
  {
    hide Scheduler.View, Scheduler.Apart, Scheduler.Sound, Scheduler.Valid, NodeObjects, ClaimObjects, Topology.Repr;
    assert allocated(s.Repr());
    next := q.Pop();
  }

  // ----- Keeping the books

  /** Everything that happened so far. */
  datatype Book = Book(tried: nat, history: seq<Attempt>, errors: set<UID>, placed: seq<Pod>, dropped: seq<UID>)

  function Entered(b: Book, o: Outcome, value: Pod, wasPlaced: bool): Book {
    var history := b.history + [Attempt(value.uid, o)];
    match o
    case Done =>
      if wasPlaced then Book(0, history, b.errors - {value.uid}, b.placed + [value], b.dropped)
      else Book(0, history, b.errors - {value.uid}, b.placed, b.dropped + [value.uid])
    case Relaxing => Book(0, history, b.errors + {value.uid}, b.placed, b.dropped)
    case Failing => Book(b.tried + 1, history, b.errors + {value.uid}, b.placed, b.dropped)
  }

  /** The books agree with the queue and the plan. */
  predicate Balanced(b: Book, all: seq<UID>, uids: seq<UID>, lastLen: Lengths, p: Plan, templates: seq<Template>) {
    && QueueState(uids, lastLen, b.tried, b.history, b.errors)
    && Partition(all, b.placed, b.dropped, uids)
    && PlacedPods(p) == multiset(b.placed)
    && (templates != [] ==> b.dropped == [])
  }

  lemma EnteredBalances(
    b: Book, all: seq<UID>, o: Outcome, value: Pod, queue: seq<LivePod>, lastLen: Lengths, p: Plan,
    queue': seq<LivePod>, lastLen': Lengths, p': Plan, templates: seq<Template>)
    requires Balanced(b, all, UIDs(queue), lastLen, p, templates) && !Stale(UIDs(queue), lastLen)
    requires queue != [] && value.uid == queue[0].uid
    requires Requeued(o, queue, lastLen, queue', lastLen') && Moved(o, p, value, p', templates)
    ensures var wasPlaced := PlacedPods(p') == PlacedPods(p) + multiset{value};
      Balanced(Entered(b, o, value, wasPlaced), all, UIDs(queue'), lastLen', p', templates)
    ensures b.tried < |queue|
  {
    hide QueueState, Partition, PlacedPods, Stale;
    var uids := UIDs(queue);
    HeadUID(queue);
    NotAllTried(uids, lastLen, b.tried, b.history, b.errors);
    PartitionPlaced(all, b.placed, b.dropped, uids, value);
    match o {
      case Done => DoneKeeps(uids, lastLen, b.tried, b.history, b.errors);
      case Relaxing => RelaxingKeeps(uids, lastLen, b.tried, b.history, b.errors);
      case Failing => FailingKeeps(uids, lastLen, b.tried, b.history, b.errors);
    }
  }

  /** A round brings the end closer. */
  lemma RoundCounts(
    o: Outcome, queue: seq<LivePod>, lastLen: Lengths, relaxations: nat, tried: nat, queue': seq<LivePod>,
    lastLen': Lengths, relaxations': nat, n: nat)
    requires queue != [] && tried < |queue| <= n && Requeued(o, queue, lastLen, queue', lastLen') &&
      Spent(o, relaxations, relaxations')
    ensures |queue'| <= n
    ensures AttemptsLeft(|queue'|, relaxations', if o.Failing? then tried + 1 else 0, n) <
            AttemptsLeft(|queue|, relaxations, tried, n)
    ensures AttemptsLeft(|queue|, relaxations, tried, n) > 0
  {
    hide AttemptsLeft;
    AttemptCounts(|queue|, relaxations, tried, n, if o.Done? then relaxations - relaxations' else 0);
  }

  /** The step is about the head of the queue, which stays in the queue unless it is done. */
  ghost predicate TakesTurn(queue: seq<LivePod>, queue': seq<LivePod>, step: Step) {
    && queue != [] && step.pod.uid == queue[0].uid
    && queue' == queue[1..] + if step.outcome.Done? then [] else [queue[0]]
  }

  lemma RequeuedTakesTurn(
    queue: seq<LivePod>, lastLen: Lengths, queue': seq<LivePod>, lastLen': Lengths, step: Step)
    requires queue != [] && step.pod.uid == queue[0].uid && Requeued(step.outcome, queue, lastLen, queue', lastLen')
    ensures TakesTurn(queue, queue', step)
  {}

  /** A pod that is done is not tried again, and is not in the queue. */
  predicate OnceDone(steps: seq<Step>) {
    forall i, j :: 0 <= i < j < |steps| && steps[i].outcome.Done? ==> steps[j].pod.uid != steps[i].pod.uid
  }

  ghost predicate DoneAreOut(steps: seq<Step>, queue: seq<LivePod>) {
    OnceDone(steps) && forall i, p :: 0 <= i < |steps| && steps[i].outcome.Done? && p in queue ==>
      p.uid != steps[i].pod.uid
  }

  lemma NothingDone(queue: seq<LivePod>)
    ensures DoneAreOut([], queue)
  {}

  lemma TurnKeepsDoneOut(steps: seq<Step>, step: Step, queue: seq<LivePod>, queue': seq<LivePod>)
    requires DoneAreOut(steps, queue) && NoDuplicates(UIDs(queue)) && TakesTurn(queue, queue', step)
    ensures DoneAreOut(steps + [step], queue')
  {
    var steps' := steps + [step];
    assert queue[0] in queue;
    forall p | p in queue' ensures p in queue {}
    forall p | p in queue[1..] ensures p.uid != queue[0].uid {
      var k :| 0 <= k < |queue[1..]| && queue[1..][k] == p;
      assert UIDs(queue)[k + 1] == p.uid && UIDs(queue)[0] == queue[0].uid;
    }
  }

  /** One round of the loop, with its entry in the books. */
  method Round(
    s: Scheduler, preferences: Preferences, q: Queue, pods: seq<LivePod>, ghost batch: seq<Pod>, ghost book: Book,
      errors: set<UID>)
    returns (more: bool, errors': set<UID>, ghost book': Book, ghost step: Step)
    requires Fit(s, q, pods, batch) && DistinctPods(batch) && |q.pods| <= |pods| && NoDuplicates(UIDs(pods))
    requires Balanced(book, UIDs(pods), UIDs(q.pods), q.lastLen, s.View(), s.templates) && errors == book.errors
    modifies s.Repr(), pods, q
    ensures Fit(s, q, pods, batch) && |q.pods| <= |pods|
    ensures forall o :: o in s.Repr() && o !in old(s.Repr()) ==> !old(allocated(o))
    ensures Balanced(book', UIDs(pods), UIDs(q.pods), q.lastLen, s.View(), s.templates) && errors' == book'.errors
    ensures !more ==>
      book' == book && Stale(UIDs(q.pods), q.lastLen) && q.pods == old(q.pods) && s.View() == old(s.View())
    ensures more ==> book'.history == book.history + [Attempt(step.pod.uid, step.outcome)]
    ensures more ==> TakesTurn(old(q.pods), q.pods, step)
    ensures more ==> Leads(old(s.View()), step, s.View(), Around(s, preferences))
    ensures var tolerate := preferences.toleratePreferNoSchedule;
      && (!more ==> 0 <= LeftToTry(q, book'.tried, |pods|, tolerate) == old(LeftToTry(q, book.tried, |pods|, tolerate)))
      && (more ==> |book'.history| == |book.history| + 1 &&
                   0 <= LeftToTry(q, book'.tried, |pods|, tolerate) < old(LeftToTry(q, book.tried, |pods|, tolerate)))
    ensures more ==> OnlyChanges(old(Values(pods)), Values(pods), step, preferences.toleratePreferNoSchedule)
    ensures !more ==> Values(pods) == old(Values(pods))
    ensures more ==> forall v :: v in book'.placed ==> v in book.placed || (v == step.pod && step.outcome.Done?)
    ensures old(AllFollow(pods, batch, preferences.toleratePreferNoSchedule, s.topology.lookup)) ==>
      && AllFollow(pods, batch, preferences.toleratePreferNoSchedule, s.topology.lookup)
      && (old(Separated(s.View(), batch)) ==> Separated(s.View(), batch))
  {
    hide OnlyChanges, Leads, AllFollow, Separated, QueueState, Partition, PlacedPods, AttemptsLeft, Scheduler.Valid,
      Scheduler.View, Scheduler.Repr, Ready, DistinctPods, Relaxations, Stale, NoDuplicates, UIDs, Requeued, Moved,
      Spent, Independent, Balanced, TakesTurn;
    ghost var n, tolerate := |pods|, preferences.toleratePreferNoSchedule;
    ghost var queue, lastLen, p, relaxations := q.pods, q.lastLen, s.View(), Relaxations(q.pods, tolerate);
    var outcome, value;
    outcome, value, step := Attend(s, preferences, q, pods, batch);
    more, errors', book' := outcome.Some?, errors, book;
    if more {
      var o := outcome.value;
      errors' := if o.Done? then errors - {value.uid} else errors + {value.uid};
      EnteredBalances(book, UIDs(pods), o, value, queue, lastLen, p, q.pods, q.lastLen, s.View(), s.templates);
      RoundCounts(o, queue, lastLen, relaxations, book.tried, q.pods, q.lastLen, Relaxations(q.pods, tolerate), n);
      book' := Entered(book, o, value, PlacedPods(s.View()) == PlacedPods(p) + multiset{value});
      RequeuedTakesTurn(queue, lastLen, q.pods, q.lastLen, step);
    }
    LeftNonNegative(book', UIDs(pods), q.pods, q.lastLen, s.View(), s.templates, Relaxations(q.pods, tolerate), n);
  }

  lemma LeftNonNegative(
    b: Book, all: seq<UID>, queue: seq<LivePod>, lastLen: Lengths, p: Plan, templates: seq<Template>, relaxations: nat,
      n: nat)
    requires Balanced(b, all, UIDs(queue), lastLen, p, templates)
    ensures AttemptsLeft(|queue|, relaxations, b.tried, n) >= 0
  {
    assert |UIDs(queue)| == |queue|;
    assert (|queue| + relaxations) * (n + 1) >= 0;
  }

  /**
   Schedule the pods, given in queue order.  The loop stops after fewer than
   (n + relaxations + 1) * (n + 1) attempts; then every pod is placed exactly once or has
   an error, and those with an error all failed after the last success and relaxation.
   A pod gives up a preference only when an attempt with it has failed.  Repelling pods of
   the batch stay apart if every pod of the batch can be followed.
   */
  method Solve(s: Scheduler, preferences: Preferences, pods: seq<LivePod>, ghost batch: seq<Pod>)
    returns (errors: set<UID>, ghost book: Book, ghost waiting: seq<UID>, ghost plans: seq<Plan>,
      ghost steps: seq<Step>)
    requires s.Valid() && Independent(pods, s) && Ready(pods, batch) && DistinctPods(batch) && NoDuplicates(UIDs(pods))
    requires PlacedPods(s.View()) == multiset{}
    modifies s.Repr(), pods
    ensures s.Valid() && forall o :: o in s.Repr() && o !in old(s.Repr()) ==> !old(allocated(o))
    ensures Partition(UIDs(pods), book.placed, book.dropped, waiting) && PlacedPods(s.View()) == multiset(book.placed)
    ensures errors == Elements(waiting) && EndsWithFailures(book.history, waiting)
    ensures s.templates != [] ==> book.dropped == []
    ensures |plans| == |steps| + 1 && Traced(plans, steps, Around(s, preferences))
    ensures plans[0] == old(s.View()) && plans[|steps|] == s.View()
    ensures book.history == Attempts(steps)
    ensures |book.history| < (|pods| + old(Relaxations(pods, preferences.toleratePreferNoSchedule)) + 1) * (|pods| + 1)
    ensures TriedAsIs(steps, old(Values(pods)), preferences.toleratePreferNoSchedule)
    ensures AllDone(book.placed, steps) && OnceDone(steps)
    ensures old(AllFollow(pods, batch, preferences.toleratePreferNoSchedule, s.topology.lookup)) ==>
      && AllFollow(pods, batch, preferences.toleratePreferNoSchedule, s.topology.lookup)
      && (old(Separated(s.View(), batch)) ==> Separated(s.View(), batch))
  {
    hide OnlyChanges, Leads, AllFollow, Separated, QueueState, Partition, PlacedPods, AttemptsLeft, Scheduler.Valid,
      Scheduler.View, Scheduler.Repr, Ready, DistinctPods, EndsWithFailures, Relaxations, Stale, NoDuplicates, UIDs,
      LeftToTry, Attempts, Traced, IsCurrent, TakesTurn, OnceDone;
    var tolerate := preferences.toleratePreferNoSchedule;
    ghost var n, total, given := |pods|, Relaxations(pods, tolerate), Values(pods);
    StartsUpToDate(pods, tolerate);
    var q := NewQueue(s, pods);
    errors := {};
    book := Book(0, [], {}, [], []);
    StartBalanced(UIDs(pods), s.View(), s.templates);
    ghost var bound := LeftToTry(q, 0, n, tolerate);
    assert bound == AttemptsLeft(n, total, 0, n) by { LeftIs(q, 0, n, tolerate); }
    plans, steps := [s.View()], [];
    NoSteps(s.View(), Around(s, preferences));
    NothingDone(q.pods);
    var more := true;
    while more
      invariant Fit(s, q, pods, batch) && fresh(q) && |q.pods| <= n
      invariant forall o :: o in s.Repr() && o !in old(s.Repr()) ==> !old(allocated(o))
      invariant old(AllFollow(pods, batch, tolerate, s.topology.lookup)) ==>
        && AllFollow(pods, batch, tolerate, s.topology.lookup)
        && (old(Separated(s.View(), batch)) ==> Separated(s.View(), batch))
      invariant Balanced(book, UIDs(pods), UIDs(q.pods), q.lastLen, s.View(), s.templates) && errors == book.errors
      invariant |book.history| + LeftToTry(q, book.tried, n, tolerate) <= bound
      invariant |plans| == |steps| + 1 && Traced(plans, steps, Around(s, preferences)) && plans[0] == old(s.View()) &&
        plans[|steps|] == s.View()
      invariant book.history == Attempts(steps)
      invariant UpToDate(Values(pods), given, steps, tolerate) && TriedAsIs(steps, given, tolerate)
      invariant AllDone(book.placed, steps) && DoneAreOut(steps, q.pods)
      invariant !more ==> Stale(UIDs(q.pods), q.lastLen) && LeftToTry(q, book.tried, n, tolerate) >= 0
      decreases more, LeftToTry(q, book.tried, n, tolerate)
    {
      ghost var step, placed, before, queue := *, book.placed, Values(pods), q.pods;
      more, errors, book, step := Round(s, preferences, q, pods, batch, book, errors);
      if more {
        OneMoreStep(plans, steps, step, s.View(), Around(s, preferences));
        OneMoreAttempt(steps, step);
        StepStaysUpToDate(before, Values(pods), given, steps, step, tolerate);
        OneMoreTried(steps, step, given, tolerate);
        OneMoreDone(placed, book.placed, steps, step);
        TurnKeepsDoneOut(steps, step, queue, q.pods);
        plans, steps := plans + [s.View()], steps + [step];
      }
    }
    waiting := UIDs(q.pods);
    GivingUpMeans(waiting, q.lastLen, book.tried, book.history, errors);
    AttemptsBound(n, total);
  }

  /** Every placed pod was tried with success. */
  predicate AllDone(placed: seq<Pod>, steps: seq<Step>) {
    forall v :: v in placed ==> exists i :: 0 <= i < |steps| && steps[i].pod == v && steps[i].outcome.Done?
  }

  lemma OneMoreDone(placed: seq<Pod>, placed': seq<Pod>, steps: seq<Step>, step: Step)
    requires AllDone(placed, steps) && forall v :: v in placed' ==> v in placed || (v == step.pod && step.outcome.Done?)
    ensures AllDone(placed', steps + [step])
  {
    var steps' := steps + [step];
    forall v | v in placed' ensures exists i :: 0 <= i < |steps'| && steps'[i].pod == v && steps'[i].outcome.Done? {
      if v in placed {
        var i :| 0 <= i < |steps| && steps[i].pod == v && steps[i].outcome.Done?;
        assert steps'[i] == steps[i];
      } else {
        assert steps'[|steps|] == step;
      }
    }
  }

  lemma OneMoreTried(steps: seq<Step>, step: Step, given: seq<Pod>, tolerate: bool)
    requires TriedAsIs(steps, given, tolerate) && IsCurrent(step.pod, given, steps, tolerate)
    ensures TriedAsIs(steps + [step], given, tolerate)
  {
    hide IsCurrent;
    var steps' := steps + [step];
    forall i | 0 <= i < |steps'| ensures IsCurrent(steps'[i].pod, given, steps'[..i], tolerate) {
      if i < |steps| {
        assert steps'[..i] == steps[..i] && steps'[i] == steps[i];
      } else {
        assert steps'[..i] == steps && steps'[i] == step;
      }
    }
  }

  lemma StartsUpToDate(pods: seq<LivePod>, tolerate: bool)
    ensures UpToDate(Values(pods), Values(pods), [], tolerate) && TriedAsIs([], Values(pods), tolerate) &&
      AllDone([], [])
  {}

  function Attempts(steps: seq<Step>): (r: seq<Attempt>)
    ensures |r| == |steps|
  {
    seq(|steps|, i requires 0 <= i < |steps| => Attempt(steps[i].pod.uid, steps[i].outcome))
  }

  lemma OneMoreAttempt(steps: seq<Step>, step: Step)
    ensures Attempts(steps + [step]) == Attempts(steps) + [Attempt(step.pod.uid, step.outcome)]
  {}

  lemma LeftIs(q: Queue, tried: nat, n: nat, tolerate: bool)
    ensures LeftToTry(q, tried, n, tolerate) == AttemptsLeft(|q.pods|, Relaxations(q.pods, tolerate), tried, n)
  {}

  lemma StartBalanced(all: seq<UID>, p: Plan, templates: seq<Template>)
    requires NoDuplicates(all) && PlacedPods(p) == multiset{}
    ensures Balanced(Book(0, [], {}, [], []), all, all, map[], p, templates)
  {
    hide PlacedPods;
    NothingTried(all);
    assert PodUIDs([]) == [];
  }

  method NewQueue(s: Scheduler, pods: seq<LivePod>) returns (q: Queue)
    requires s.Valid()
    ensures fresh(q) && q.pods == pods && q.lastLen == map[] && q !in s.Repr()
    ensures s.Valid() && s.Repr() == old(s.Repr()) && s.View() == old(s.View())
  {
    hide Scheduler.View, Scheduler.Apart, Scheduler.Sound, Scheduler.Valid, NodeObjects, ClaimObjects, Topology.Repr;
    assert allocated(s.Repr());
    q := new Queue(pods);
  }
}
