/** One provisioning pass from start to end: topology, scheduler, and the scheduling loop. */
module Provisioning {
  import opened Common
  import opened Labels
  import opened RequirementSets
  import opened Resources
  import opened Volumes
  import opened Pods
  import opened PreferenceRelaxation
  import opened TopologyGroups
  import opened Topologies
  import opened AntiAffinitySafety
  import opened RelaxedLookups
  import opened NodeClaims
  import opened ExistingNodes
  import opened NodePoolLimits
  import opened Plans
  import opened Scheduling
  import opened SchedulerQueue
  import opened SchedulerSetup
  import opened Solving
  import opened SchedulingResults
  import opened GivenPods
  import opened RunningPodSafety
  import opened SpreadSafety
  import opened RunCounts
  import opened AffinitySafety
  import opened RunOutcomes

  /** What the cluster and its configuration contribute to a pass. */
  datatype Setting = Setting(
    running: seq<Running>,
    universe: Universe,
    list: GroupId -> Option<seq<Listed>>,
    nodes: seq<NodeSnapshot>,
    daemons: seq<Pod>,
    limits: Budgets,
    templates: seq<Template>,
    catalog: Catalog)
  {
    ghost predicate Valid() {
      && AllSpecsValid(daemons)
      && (forall n :: n in nodes ==> Covers(n.mounts.volumes, n.mounts.podVolumes))
      && (forall t :: t in templates ==> ValidTemplate(t)) &&
        (forall pool :: pool in catalog ==> Physical(catalog[pool]))
    }
  }

  /** Counting leaves out the pods the topology is built from. */
  ghost function LookupFor(included: seq<LivePod>, setting: Setting): Lookup reads included {
    BatchLookup(Values(included), setting.list)
  }

  /** Every group the pods ask for can be counted. */
  ghost predicate Countable(pods: seq<LivePod>, lookup: Lookup) reads pods {
    AllSpecsValid(Values(pods)) && AllCountable(Values(pods), lookup)
  }

  ghost predicate AllPodsValid(pods: seq<LivePod>) reads pods { forall p :: p in pods ==> p.spec.Valid() }

  lemma ValuesIdentify(pods: seq<LivePod>, included: seq<LivePod>)
    requires NoDuplicates(UIDs(pods)) && NoDuplicates(included) && AllPodsValid(pods) &&
      forall p :: p in included ==> p in pods
    ensures AllSpecsValid(Values(included)) && DistinctPods(Values(included)) && Ready(pods, Values(included))
  {
    var batch := Values(included);
    forall p, q | p in pods && q in pods && p.uid == q.uid ensures p == q {
      var i, j :| 0 <= i < |pods| && pods[i] == p && 0 <= j < |pods| && pods[j] == q;
      assert UIDs(pods)[i] == UIDs(pods)[j];
    }
    forall b | b in batch ensures exists q :: q in included && b == q.Value() {
      var i :| 0 <= i < |batch| && batch[i] == b;
      assert included[i] in included;
    }
    forall i, j | 0 <= i < j < |batch| ensures batch[i].uid != batch[j].uid {
      assert included[i] in pods && included[j] in pods;
    }
  }

  lemma {:induction false} NodesRegistered(hosts: seq<Host>, topo: Topo, nodes: seq<NodeSnapshot>, batch: seq<Pod>)
    requires Inv(hosts, topo, batch)
    ensures Inv(hosts, RegisteredNodes(topo, nodes), batch)
  {
    hide Inv, Registered;
    if nodes != [] {
      NodesRegistered(hosts, topo, nodes[..|nodes| - 1], batch);
      HostnameIsCanonical();
      RegisterKeepsInv(hosts, RegisteredNodes(topo, nodes[..|nodes| - 1]), HOSTNAME, nodes[|nodes| - 1].hostname,
        batch);
    }
  }

  /** Before anything is placed, everything is apart. */
  lemma StartsSeparated(
    p: Plan, nodes: seq<NodeSnapshot>, daemons: seq<Pod>, setting: Setting, batch: seq<Pod>, orders: seq<bool>,
      start: Budgets)
    requires PlanInv(p, start) && p.claims == [] && AllSpecsValid(daemons)
    requires multiset(p.nodes) == multiset(KnownNodes(nodes, daemons))
    requires AllSpecsValid(batch) && DistinctPods(batch) && |orders| == |batch|
    requires InitialTopo(batch, orders, setting.running, setting.universe, BatchLookup(batch, setting.list)).1
    requires p.topo ==
      RegisteredNodes(InitialTopo(batch, orders, setting.running, setting.universe,
        BatchLookup(batch, setting.list)).0, nodes)
    ensures Separated(p, batch) && forall h :: h in Hosts(p) ==> h.pods == []
  {
    hide Inv, NodeInv, ClaimInv, LimitInv, InitialTopo, RegisteredNodes, Hosts, DaemonsOn, RequestsForPods,
      NodeRequirements;
    PermutationMembers(p.nodes, KnownNodes(nodes, daemons));
    forall h | h in Hosts(p) ensures h.pods == [] && WellFormed(h.reqs) {
      HostsMembers(p, h);
      var n :| n in p.nodes && NodeHost(n) == h;
      NodeIsWellFormed(n);
      var i :| 0 <= i < |nodes| && KnownNodes(nodes, daemons)[i] == n;
    }
    InitialInv(Hosts(p), batch, orders, setting.running, setting.universe, BatchLookup(batch, setting.list));
    NodesRegistered(Hosts(p),
      InitialTopo(batch, orders, setting.running, setting.universe, BatchLookup(batch, setting.list)).0, nodes, batch);
  }

  datatype Result = NothingToDo | Failed | Done(nodes: seq<ExistingNode>, claims: seq<NodeClaim>, errors: set<UID>)

  /** No relaxation of a pod with required anti-affinity can ask for a spread group that cannot be counted. */
  ghost predicate RelaxationsCountable(pods: seq<LivePod>, lookup: Lookup) reads pods {
    forall p :: p in pods ==> p.spec.Valid() && (p.spec.podAntiAffinity == [] || FiltersCountable(p.Value(), lookup))
  }

  /** A pod outside the batch need not be followed, and one inside can be if its groups can be counted. */
  lemma CountableFollow(pods: seq<LivePod>, included: seq<LivePod>, tolerate: bool, lookup: Lookup)
    requires NoDuplicates(UIDs(pods)) && AllPodsValid(pods) && forall p :: p in included ==> p in pods
    requires Countable(included, lookup) && RelaxationsCountable(included, lookup)
    ensures AllFollow(pods, Values(included), tolerate, lookup)
  {
    hide Followable, FiltersCountable, CanOwn, Asks, HardAsks, PodSpec.Valid;
    var batch := Values(included);
    forall p | p in pods && InBatch(batch, p.Value()) ensures Followable(p.Value(), tolerate, lookup) {
      var b :| b in batch && SamePod(b, p.Value());
      var i :| 0 <= i < |batch| && batch[i] == b;
      SameUID(pods, p, included[i]);
      assert included[i] in included && p.Value() in batch;
      FollowableIff(p.Value(), tolerate, lookup);
      AllCanOwnHard(p.Value(), lookup);
    }
  }

  lemma SameUID(pods: seq<LivePod>, p: LivePod, q: LivePod)
    requires NoDuplicates(UIDs(pods)) && p in pods && q in pods && p.uid == q.uid
    ensures p == q
  {
    var i, j :| 0 <= i < |pods| && pods[i] == p && 0 <= j < |pods| && pods[j] == q;
    assert UIDs(pods)[i] == UIDs(pods)[j];
  }

  lemma AllCanOwnHard(pod: Pod, lookup: Lookup)
    requires pod.spec.Valid() && CanOwn(map[], Asks(pod, false), lookup)
    ensures CanOwn(map[], HardAsks(pod, false), lookup)
  {
    hide Asks, HardAsks;
    var asks, first := Asks(pod, false), HardAsks(pod, false);
    forall a | a in first ensures a in asks {
      var i :| 0 <= i < |first| && first[i] == a;
      assert asks[i] == a;
    }
  }

  // ----- The pods of the results

  function NodePods(nodes: seq<Existing>): seq<Pod> { if nodes == [] then [] else NodePods(nodes[1..]) + nodes[0].pods }

  function ClaimPods(claims: seq<Claim>): seq<Pod> {
    if claims == [] then [] else ClaimPods(claims[1..]) + claims[0].pods
  }

  lemma {:induction false} NodePodsAre(nodes: seq<Existing>)
    ensures multiset(NodePods(nodes)) == PodsOnNodes(nodes)
  {
    if nodes != [] {
      NodePodsAre(nodes[1..]);
    }
  }

  lemma {:induction false} ClaimPodsAre(claims: seq<Claim>)
    ensures multiset(ClaimPods(claims)) == PodsOnClaims(claims)
  {
    if claims != [] {
      ClaimPodsAre(claims[1..]);
    }
  }

  lemma {:induction false} SamePodUIDs(xs: seq<Pod>, ys: seq<Pod>)
    requires multiset(xs) == multiset(ys)
    ensures multiset(PodUIDs(xs)) == multiset(PodUIDs(ys))
    decreases |xs|
  {
    hide PodUIDs, Without;
    PermutationMembers(xs, ys);
    if xs == [] {
      assert ys == [];
    } else {
      assert xs[0] in ys;
      var i :| 0 <= i < |ys| && ys[i] == xs[0];
      UIDsWithout(xs, 0);
      UIDsWithout(ys, i);
      SamePodUIDs(Without(xs, 0), Without(ys, i));
    }
  }

  lemma UIDsWithout(xs: seq<Pod>, i: nat)
    requires i < |xs|
    ensures |Without(xs, i)| == |xs| - 1 && multiset(Without(xs, i)) == multiset(xs) - multiset{xs[i]}
    ensures multiset(PodUIDs(xs)) == multiset(PodUIDs(Without(xs, i))) + multiset{xs[i].uid}
  {
    WithoutMultiset(xs, i);
    assert PodUIDs(Without(xs, i)) == Without(PodUIDs(xs), i);
    WithoutMultiset(PodUIDs(xs), i);
  }

  /** Every pod is on exactly one of the returned nodes and claims, or is one of those with an error. */
  ghost predicate Settled(all: seq<UID>, nodes: seq<Existing>, claims: seq<Claim>, failed: seq<UID>) {
    Partition(all, NodePods(nodes) + ClaimPods(claims), [], failed)
  }

  lemma SettledAfterTrimming(
    all: seq<UID>, p: Plan, placed: seq<Pod>, waiting: seq<UID>, kept: seq<Claim>, lost: seq<Pod>)
    requires Partition(all, placed, [], waiting) && PlacedPods(p) == multiset(placed)
    requires PodsOnClaims(p.claims) == PodsOnClaims(kept) + multiset(lost)
    ensures Settled(all, p.nodes, kept, waiting + PodUIDs(lost))
  {
    hide NodePods, ClaimPods, PodsOnClaims, PodsOnNodes;
    var left := NodePods(p.nodes) + ClaimPods(kept);
    NodePodsAre(p.nodes);
    ClaimPodsAre(kept);
    assert multiset(left + lost) == multiset(placed);
    SamePodUIDs(left + lost, placed);
    assert PodUIDs(left + lost) == PodUIDs(left) + PodUIDs(lost);
  }

  lemma ElementsOfBoth(xs: seq<UID>, ys: seq<UID>)
    ensures Elements(xs + ys) == Elements(xs) + Elements(ys)
  {}

  // ----- What a run promises to the pods it was given

  ghost predicate AllStandFor(hosts: seq<Host>, given: seq<Pod>) {
    forall h, v :: h in hosts && v in h.pods ==> exists o :: o in given && StandsFor(v, o)
  }

  function ListingFor(batch: seq<Pod>, setting: Setting): Listing { Listing(setting.list, set p | p in batch :: p.uid) }

  /**
   A placed pod is a given one with all that it insists on, its node or claim serves it, it
   is clear of what running pods guard against it, and no spread constraint that all
   selected pods are devoted to is exceeded if it was not when the run began.
   */
  ghost predicate KeepsPromises(
    begin: Plan, plan: Plan, given: seq<Pod>, batch: seq<Pod>, setting: Setting, tolerate: bool)
    requires AllSpecsValid(given)
  {
    && AllStandFor(Hosts(plan), given) && AllServed(plan, given)
    && ClearOfRunning(Hosts(plan), given, setting.running, ListingFor(batch, setting).excluded)
    && CountsListed(begin.topo.topologies, BatchLookup(batch, setting.list))
    && StaysEven(begin.topo, plan.topo, given, batch, tolerate, BatchLookup(batch, setting.list))
  }

  /** No term of a pod of the batch is violated, by another pod of the batch or by a pod that was there before. */
  ghost predicate TermsHold(plan: Plan, batch: seq<Pod>, setting: Setting) {
    Safe(Hosts(plan), batch) && KeptApart(Hosts(plan), batch) &&
      ClearOfListed(Hosts(plan), batch, ListingFor(batch, setting))
  }

  /**
   The counts that decided about the pods stood for pods, every pod of the batch has the
   company its affinity terms ask for and no other, the nodes are those of the cluster, the
   claims those of the templates with host names of their own, and there is no place for the
   pods that are left over.
   */
  ghost predicate RunsTrue(
    plans: seq<Plan>, steps: seq<Step>, waiting: seq<UID>, batch: seq<Pod>, around: Circumstances)
    requires |plans| == |steps| + 1 && AllSpecsValid(batch)
  {
    && CountsReal(plans, steps, around.lookup) && AllGranted(plans, steps, batch, around.lookup)
    && NodesKept(plans[0].nodes, plans[|steps|].nodes)
    && AllStem(plans[|steps|].claims, around.templates, around.catalog) && OwnNames(plans[|steps|].claims)
    && forall u :: u in waiting ==> FoundNoPlace(plans, steps, around, u)
  }

  lemma RunIsTrue(
    plans: seq<Plan>, steps: seq<Step>, around: Circumstances, start: Budgets, given: seq<Pod>, batch: seq<Pod>,
      orders: seq<bool>, setting: Setting, waiting: seq<UID>)
    requires RunOf(plans, steps, around, given) &&
      Begins(plans[0], start, batch, orders, setting.running, around, setting.nodes)
    requires TriedAsIs(steps, given, around.tolerate) && OnceDone(steps) && (forall b :: b in batch ==> b in given)
    requires plans[0].claims == [] && EndsWithFailures(Attempts(steps), waiting)
    ensures RunsTrue(plans, steps, waiting, batch, around)
  {
    hide Hosts, PlanInv, Separated, InitialTopo, RegisteredNodes, Traced, From, PodSpec.Valid, ValidTemplate, Physical,
      CountsListed, CountsReal, AllGranted, NodesKept, AllStem, OwnNames, FoundNoPlace, TriedAsIs, OnceDone,
      EndsWithFailures, Attempts, AllConsistent, MarkHolds, TrackRunning;
    StartCounts(batch, orders, setting.running, around.universe, around.lookup, setting.nodes);
    SeparatedForNone(plans[0], batch);
    RunCountsReal(plans, steps, around, start);
    RunGrantsAll(plans, steps, around, start, given, batch, orders, setting.running, setting.nodes);
    RunOutcome(plans, steps, around, start, |steps|);
    forall u | u in waiting ensures FoundNoPlace(plans, steps, around, u) {
      LeftOverHasNoPlace(plans, steps, around, start, waiting, u);
    }
  }

  lemma PlacedStandFor(hosts: seq<Host>, given: seq<Pod>, tolerate: bool)
    requires AllSpecsValid(given) && AllPlacedFrom(hosts, given, tolerate)
    ensures AllStandFor(hosts, given)
  {
    hide From, StandsFor, PodSpec.Valid;
    forall h, v | h in hosts && v in h.pods ensures exists o :: o in given && StandsFor(v, o) {
      var o := FromStandsFor(given, v, tolerate);
    }
  }

  lemma RunKeepsPromises(
    plans: seq<Plan>, steps: seq<Step>, around: Circumstances, start: Budgets, given: seq<Pod>, batch: seq<Pod>,
      orders: seq<bool>,
    setting: Setting)
    requires RunOf(plans, steps, around, given) &&
      Begins(plans[0], start, batch, orders, setting.running, around, setting.nodes)
    requires around.lookup == BatchLookup(batch, setting.list) && (forall b :: b in batch ==> b in given)
    requires PlanInv(plans[|steps|], start)
    ensures KeepsPromises(plans[0], plans[|steps|], given, batch, setting, around.tolerate)
  {
    hide Hosts, PlanInv, Separated, InitialTopo, RegisteredNodes, Leads, From, PodSpec.Valid, ValidTemplate, Physical,
      BatchLookup, StaysEven, CountsListed, ClearOfRunning, AllServed, AllStandFor;
    var plan := plans[|steps|];
    PlacedStandFor(Hosts(plan), given, around.tolerate);
    PlanServes(plan, start, given, around.tolerate);
    RunIsClearOfRunning(plans, steps, around, start, given, batch, orders, setting.running, setting.nodes);
    StartCounts(batch, orders, setting.running, around.universe, around.lookup, setting.nodes);
    GivenPodsStayEven(plans, steps, around, start, given, batch, orders, setting.running, setting.nodes);
  }

  lemma FollowingTermsHold(
    plans: seq<Plan>, steps: seq<Step>, around: Circumstances, start: Budgets, given: seq<Pod>, batch: seq<Pod>,
      orders: seq<bool>,
    setting: Setting)
    requires RunOf(plans, steps, around, given) &&
      Begins(plans[0], start, batch, orders, setting.running, around, setting.nodes)
    requires around.lookup == BatchLookup(batch, setting.list) && (forall b :: b in batch ==> b in given)
    requires (forall o :: o in given ==> Follows(o, batch, around.tolerate, around.lookup)) &&
      Safe(Hosts(plans[|steps|]), batch)
    ensures TermsHold(plans[|steps|], batch, setting)
  {
    hide Hosts, PlanInv, Separated, InitialTopo, RegisteredNodes, Leads, From, PodSpec.Valid, ValidTemplate, Physical,
      LookupOf, KeptApart, ClearOfListed, Follows, Safe;
    SafeKeepsApart(Hosts(plans[|steps|]), batch, given, around.tolerate);
    RunIsClearOfListed(
      plans, steps, around, start, given, batch, orders, setting.running, setting.nodes, ListingFor(batch, setting));
  }

  lemma GivenValues(pods: seq<LivePod>, included: seq<LivePod>)
    requires NoDuplicates(UIDs(pods)) && AllPodsValid(pods) && forall p :: p in included ==> p in pods
    ensures AllSpecsValid(Values(pods)) && DistinctPods(Values(pods)) &&
      forall b :: b in Values(included) ==> b in Values(pods)
  {
    var given, batch := Values(pods), Values(included);
    forall i, j | 0 <= i < j < |given| ensures given[i].uid != given[j].uid {
      assert UIDs(pods)[i] != UIDs(pods)[j];
    }
    forall b | b in batch ensures b in given {
      var i :| 0 <= i < |batch| && batch[i] == b;
      assert included[i] in pods;
      var j :| 0 <= j < |pods| && pods[j] == included[i];
      assert given[j] == b;
    }
  }

  lemma ValuesFollow(pods: seq<LivePod>, batch: seq<Pod>, tolerate: bool, lookup: Lookup)
    requires AllFollow(pods, batch, tolerate, lookup)
    ensures forall o :: o in Values(pods) ==> Follows(o, batch, tolerate, lookup)
  {
    hide Follows;
    forall o | o in Values(pods) ensures Follows(o, batch, tolerate, lookup) {
      var i :| 0 <= i < |pods| && Values(pods)[i] == o;
      assert pods[i] in pods;
    }
  }

  lemma PlacedComesFrom(p: Plan, placed: seq<Pod>, given: seq<Pod>, tolerate: bool)
    requires PlacedPods(p) == multiset(placed) && forall v :: v in placed ==> From(given, v, tolerate)
    ensures AllPlacedFrom(Hosts(p), given, tolerate)
  {
    hide From, PlacedPods, Hosts;
    forall h, v | h in Hosts(p) && v in h.pods ensures From(given, v, tolerate) {
      HostedIsPlaced(p, h, v);
      assert v in multiset(placed);
    }
  }

  // ----- A pass

  /** The topology of the batch, with the existing nodes registered. */
  ghost predicate JustBuilt(topo: Topo, batch: seq<Pod>, setting: Setting)
    requires AllSpecsValid(batch)
  {
    exists orders: seq<bool> ::
      && |orders| == |batch| &&
        InitialTopo(batch, orders, setting.running, setting.universe, BatchLookup(batch, setting.list)).1
      && topo ==
        RegisteredNodes(InitialTopo(batch, orders, setting.running, setting.universe,
          BatchLookup(batch, setting.list)).0, setting.nodes)
  }

  ghost function Surroundings(batch: seq<Pod>, setting: Setting, tolerate: bool): Circumstances {
    Circumstances(setting.templates, setting.catalog, tolerate, setting.universe, BatchLookup(batch, setting.list))
  }

  /**
   The plans and steps are a run that starts from the cluster as it is, with every node and
   nothing placed, and in which a pod gives up a preference only when an attempt failed
   and is not tried again once it is placed.
   */
  ghost predicate PassOf(
    plans: seq<Plan>, steps: seq<Step>, given: seq<Pod>, batch: seq<Pod>, setting: Setting, tolerate: bool)
    requires setting.Valid() && AllSpecsValid(batch)
  {
    && |plans| == |steps| + 1 && Traced(plans, steps, Surroundings(batch, setting, tolerate))
    && TriedAsIs(steps, given, tolerate) && OnceDone(steps) && JustBuilt(plans[0].topo, batch, setting)
    && multiset(plans[0].nodes) == multiset(KnownNodes(setting.nodes, setting.daemons)) &&
      InitializedFirst(plans[0].nodes)
    && plans[0].claims == [] && plans[0].remaining == StartBudgets(setting.limits, setting.nodes)
  }

  lemma PassIsPassOf(
    plans: seq<Plan>, steps: seq<Step>, given: seq<Pod>, batch: seq<Pod>, setting: Setting, tolerate: bool,
      orders: seq<bool>)
    requires setting.Valid() && AllSpecsValid(batch)
    requires |plans| == |steps| + 1 && Traced(plans, steps, Surroundings(batch, setting, tolerate)) &&
      TriedAsIs(steps, given, tolerate) && OnceDone(steps)
    requires |orders| == |batch| &&
      InitialTopo(batch, orders, setting.running, setting.universe, BatchLookup(batch, setting.list)).1
    requires plans[0].topo ==
      RegisteredNodes(InitialTopo(batch, orders, setting.running, setting.universe,
        BatchLookup(batch, setting.list)).0, setting.nodes)
    requires multiset(plans[0].nodes) == multiset(KnownNodes(setting.nodes, setting.daemons)) &&
      InitializedFirst(plans[0].nodes)
    requires plans[0].claims == [] && plans[0].remaining == StartBudgets(setting.limits, setting.nodes)
    ensures PassOf(plans, steps, given, batch, setting, tolerate)
  {
    hide Traced, TriedAsIs, OnceDone, InitialTopo, RegisteredNodes, BatchLookup, KnownNodes, StartBudgets,
      InitializedFirst;
  }

  lemma DoneComesFrom(placed: seq<Pod>, steps: seq<Step>, given: seq<Pod>, tolerate: bool)
    requires AllDone(placed, steps) && TriedAsIs(steps, given, tolerate)
    ensures forall v :: v in placed ==> From(given, v, tolerate)
    ensures forall i :: 0 <= i < |steps| ==> From(given, steps[i].pod, tolerate)
  {
    hide From, TriedAsIs;
    forall i | 0 <= i < |steps|
      ensures From(given, steps[i].pod, tolerate) { TriedComesFrom(steps, given, tolerate, i); }
  }

  /** A scheduler for the topology, and the loop over the pods. */
  method RunLoop(
    setting: Setting, pods: seq<LivePod>, preferences: Preferences, topology: Topology, ghost batch: seq<Pod>,
      ghost orders: seq<bool>)
    returns (s: Scheduler, errors: set<UID>, ghost plans: seq<Plan>, ghost steps: seq<Step>, ghost placed: seq<Pod>,
      ghost waiting: seq<UID>)
    requires setting.Valid() && setting.templates != [] && topology.Valid() && topology.Repr() !! set p | p in pods
    requires topology.universe == setting.universe && topology.lookup == BatchLookup(batch, setting.list)
    requires AllSpecsValid(Values(pods)) && DistinctPods(Values(pods)) && NoDuplicates(UIDs(pods)) && Ready(pods, batch)
    requires AllSpecsValid(batch) && DistinctPods(batch) && |orders| == |batch| &&
      forall b :: b in batch ==> b in Values(pods)
    requires (topology.View(), true) ==
      InitialTopo(batch, orders, setting.running, setting.universe, BatchLookup(batch, setting.list))
    modifies pods, topology.Repr()
    ensures s.Valid() && s.start == StartBudgets(setting.limits, setting.nodes)
    ensures forall o :: o in s.Repr() && o !in old(topology.Repr()) ==> !old(allocated(o))
    ensures Partition(UIDs(pods), placed, [], waiting) && PlacedPods(s.View()) == multiset(placed) &&
      errors == Elements(waiting)
    ensures EndsWithFailures(Attempts(steps), waiting)
    ensures PassOf(plans, steps, old(Values(pods)), batch, setting, preferences.toleratePreferNoSchedule)
    ensures plans[|steps|] == s.View()
    ensures KeepsPromises(plans[0], s.View(), old(Values(pods)), batch, setting, preferences.toleratePreferNoSchedule)
    ensures RunsTrue(plans, steps, waiting, batch, Surroundings(batch, setting, preferences.toleratePreferNoSchedule))
    ensures old(AllFollow(pods, batch, preferences.toleratePreferNoSchedule, BatchLookup(batch, setting.list))) ==>
      TermsHold(s.View(), batch, setting)
  {
    hide Separated, PlacedPods, Partition, Inv, Hosts, PlanInv, KnownNodes, RegisteredNodes, InitialTopo, StartBudgets,
      Scheduler.Sound, Scheduler.View, ValidTemplate, Physical, Covers, Ready, DistinctPods, NodeObjects, AllNumbered,
      ClaimObjects, EndsWithFailures, Relaxations, Topology.View, Topology.Valid, Topology.Repr, NoDuplicates, UIDs,
      Elements, Safe,
      DistinctNodes, AllFollow, BatchLookup, LimitInv, KeepsPromises, TermsHold, AllSpecsValid, Traced, From,
      AllPlacedFrom, Follows, Attempts, PassOf, TriedAsIs, OnceDone, AllDone, InitializedFirst, RunsTrue;
    ghost var given, tolerate := Values(pods), preferences.toleratePreferNoSchedule;
    ghost var followable := AllFollow(pods, batch, tolerate, topology.lookup);
    if followable {
      ValuesFollow(pods, batch, tolerate, topology.lookup);
    }
    s := NewScheduler(setting.nodes, setting.daemons, setting.limits, setting.templates, setting.catalog, topology);
    ghost var begin := s.View();
    StartsSeparated(begin, setting.nodes, setting.daemons, setting, batch, orders, s.start);
    assert Independent(pods, s);
    assert Ready(pods, batch);
    ghost var around := Around(s, preferences);
    assert Begins(begin, s.start, batch, orders, setting.running, around, setting.nodes);
    ghost var book;
    errors, book, waiting, plans, steps := Solve(s, preferences, pods, batch);
    placed := book.placed;
    PlanOf(s);
    PassIsPassOf(plans, steps, given, batch, setting, tolerate, orders);
    DoneComesFrom(placed, steps, given, tolerate);
    PlacedComesFrom(s.View(), placed, given, tolerate);
    assert RunOf(plans, steps, around, given);
    RunKeepsPromises(plans, steps, around, s.start, given, batch, orders, setting);
    RunIsTrue(plans, steps, around, s.start, given, batch, orders, setting, waiting);
    if followable {
      SeparatedIsSafe(s.View(), batch);
      FollowingTermsHold(plans, steps, around, s.start, given, batch, orders, setting);
    }
  }

  /**
   Schedule the pods; `included` are those whose volumes could be looked up, from which the
   topology is built.  The pass is a run of the scheduler on the cluster as it is.  In the
   plan it ends with every node and claim is as it should be, and what is promised is
   promised to the pods as they were given.  What is returned are the nodes and, trimmed for
   launching, the claims of that plan: every pod is on one of them once or has an error, and
   pools stay within their limits.
   */
  method Schedule(setting: Setting, pods: seq<LivePod>, included: seq<LivePod>, preferences: Preferences)
    returns (result: Result, ghost plans: seq<Plan>, ghost steps: seq<Step>, ghost lost: seq<Pod>,
      ghost waiting: seq<UID>)
    requires setting.Valid() && AllPodsValid(pods) && NoDuplicates(UIDs(pods))
    requires NoDuplicates(included) && forall p :: p in included ==> p in pods
    modifies pods
    ensures old(AllSpecsValid(Values(pods)) && AllSpecsValid(Values(included)))
    ensures result.NothingToDo? <==> pods == [] || setting.templates == []
    ensures result.Failed? <==>
      pods != [] && setting.templates != [] && !old(Countable(included, LookupFor(included, setting)))
    ensures var tolerate, start := preferences.toleratePreferNoSchedule, StartBudgets(setting.limits, setting.nodes);
      result.Done? ==>
        && PassOf(plans, steps, old(Values(pods)), old(Values(included)), setting, tolerate)
        && var plan, failed := plans[|steps|], waiting + PodUIDs(lost);
        && PlanInv(plan, start)
        && KeepsPromises(plans[0], plan, old(Values(pods)), old(Values(included)), setting, tolerate)
        && RunsTrue(plans, steps, waiting, old(Values(included)),
             Surroundings(old(Values(included)), setting, tolerate))
        && (old(RelaxationsCountable(included, LookupFor(included, setting))) ==>
              TermsHold(plan, old(Values(included)), setting))
        && NodeViews(result.nodes) == plan.nodes && Concluded(plan.claims, ClaimViews(result.claims), lost)
        && LimitInv(ClaimViews(result.claims), plan.remaining, start)
        && Settled(UIDs(pods), NodeViews(result.nodes), ClaimViews(result.claims), failed)
        && result.errors == Elements(failed) && EndsWithFailures(Attempts(steps), waiting)
  {
    hide Separated, PlacedPods, Partition, Inv, Hosts, PlanInv, KnownNodes, RegisteredNodes, InitialTopo, StartBudgets,
      Scheduler.Sound, Scheduler.View, ValidTemplate, Physical, Covers, Ready, DistinctPods, NodeObjects, AllNumbered,
      ClaimObjects, EndsWithFailures, Relaxations, Topology.View, Topology.Valid, Topology.Repr, NoDuplicates, UIDs,
      Elements, Safe,
      DistinctNodes, AllCountable, AllFollow, RelaxationsCountable, BatchLookup, Settled, Concluded, NodeViews,
      ClaimViews, LimitInv, PodUIDs, KeepsPromises, TermsHold, AllSpecsValid, PassOf, Attempts, RunsTrue;
    result, plans, steps, lost, waiting := NothingToDo, [], [], [], [];
    GivenValues(pods, included);
    ValuesIdentify(pods, included);
    if pods == [] || setting.templates == [] {
      return;
    }
    var batch := Values(included);
    ghost var lookup := BatchLookup(batch, setting.list);
    ghost var orders;
    var topology, ok;
    topology, ok, orders := NewTopology(batch, setting.running, setting.universe, setting.list);
    InitialTopoSucceedsIff(batch, orders, setting.running, setting.universe, lookup);
    if !ok {
      result := Failed;
      return;
    }
    if RelaxationsCountable(included, lookup) {
      CountableFollow(pods, included, preferences.toleratePreferNoSchedule, lookup);
    }
    var s, errors;
    ghost var placed;
    s, errors, plans, steps, placed, waiting := RunLoop(setting, pods, preferences, topology, batch, orders);
    ghost var plan := s.View();
    PlanOf(s);
    var claims, all;
    claims, all, lost := Conclude(s, errors);
    ConcludedKeeps(plan.claims, ClaimViews(claims), lost, plan.remaining, s.start);
    SettledAfterTrimming(UIDs(pods), plan, placed, waiting, ClaimViews(claims), lost);
    ElementsOfBoth(waiting, PodUIDs(lost));
    result := Result.Done(s.existingNodes, claims, all);
  }

  lemma PlanOf(s: Scheduler)
    requires s.Valid()
    ensures s.View().nodes == NodeViews(s.existingNodes) && s.View().claims == ClaimViews(s.newNodeClaims)
    ensures PlanInv(s.View(), s.start) && LimitInv(s.View().claims, s.View().remaining, s.start)
  {}

  lemma SeparatedIsSafe(p: Plan, batch: seq<Pod>)
    ensures Separated(p, batch) ==> Safe(Hosts(p), batch)
  {}
}
