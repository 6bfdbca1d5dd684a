/**
 A node the scheduler is about to create: the pods placed on it so far, and the
 instance types that could still be launched for them.
 */
module NodeClaims {
  import opened Common
  import opened Labels
  import opened RequirementAlgebra
  import opened RequirementSets
  import opened Resources
  import opened HostPorts
  import opened InstanceTypes
  import opened Pods
  import opened TopologyGroups
  import opened Topologies
  import opened AntiAffinitySafety

  /** What a node pool contributes to each of its nodes. */
  datatype Template = Template(pool: string, taints: seq<Taint>, requirements: Requirements, daemons: ResourceList)

  datatype Claim = Claim(
    pool: string,
    taints: seq<Taint>,
    daemons: ResourceList,
    requirements: Requirements,
    options: seq<InstanceType>,
    requests: ResourceList,
    reserved: Reservations,
    pods: seq<Pod>)

  // ----- Which instance types remain

  predicate Suits(it: InstanceType, reqs: Requirements, requests: ResourceList) {
    && Intersects(it.requirements, reqs)
    && Fits(requests, it.Allocatable())
    && HasCompatible(Available(it.offerings), reqs)
  }

  /** What is left of a resource on a node of the type when the system has taken its share. */
  function Usable(it: InstanceType, r: string): int {
    if r in it.capacity then it.capacity[r] - Amount(it.overhead, r) else 0
  }

  predicate CanBeBought(it: InstanceType, reqs: Requirements) {
    exists o :: o in it.offerings && o.available && Compatible(reqs, o.requirements, WELL_KNOWN)
  }

  /**
   A type suits iff the system takes no more than there is, every resource asked for is
   within the rest, its labels can be what is required, and it can be bought that way.
   */
  lemma SuitsIff(it: InstanceType, reqs: Requirements, requests: ResourceList)
    ensures Suits(it, reqs, requests) <==>
      && (forall r :: 0 <= Usable(it, r)) && (forall r :: Amount(requests, r) <= Usable(it, r))
      && Intersects(it.requirements, reqs) && CanBeBought(it, reqs)
  {
    hide Intersects, Fits;
    FitsIff(requests, it.Allocatable());
    assert forall r :: Amount(it.Allocatable(), r) == Usable(it, r);
    assert HasCompatible(Available(it.offerings), reqs) <==> CanBeBought(it, reqs);
  }

  function Suitable(its: seq<InstanceType>, reqs: Requirements, requests: ResourceList): (r: seq<InstanceType>)
    ensures forall it :: it in r <==> it in its && Suits(it, reqs, requests)
  {
    if its == [] then []
    else
      var before, last := Suitable(its[..|its| - 1], reqs, requests), its[|its| - 1];
      assert forall it :: it in its <==> it in its[..|its| - 1] || it == last;
      if Suits(last, reqs, requests) then before + [last] else before
  }

  /** The suitable instance types, or none if they are not diverse enough. */
  function Remaining(its: seq<InstanceType>, reqs: Requirements, requests: ResourceList): seq<InstanceType> {
    var suitable := Suitable(its, reqs, requests);
    if Flexible(suitable, reqs) then suitable else []
  }

  method FilterInstanceTypes(its: seq<InstanceType>, reqs: Requirements, requests: ResourceList)
    returns (remaining: seq<InstanceType>)
    requires Keyed(reqs)
    ensures remaining == Remaining(its, reqs, requests)
  {
    hide Suits, Covered;
    remaining := [];
    for i := 0 to |its|
      invariant remaining == Suitable(its[..i], reqs, requests)
    {
      assert its[..i + 1][..i] == its[..i];
      if Suits(its[i], reqs, requests) {
        remaining := remaining + [its[i]];
      }
    }
    assert its[..|its|] == its;
    if exists k :: k in reqs.Keys && reqs[k].minValues.Some? {
      var _, ok := SatisfiesMinValues(remaining, reqs);
      if !ok {
        remaining := [];
      }
    }
  }

  // ----- Adding a pod

  /** Everything that must hold for the pod to go on the claim, given what the topology demanded. */
  predicate Admits(c: Claim, pod: Pod, out: Requirements)
    requires pod.spec.Valid()
  {
    var nodeReqs := Meet(c.requirements, PodRequirements(pod.spec));
    && ToleratesAll(c.taints, pod.spec.tolerations)
    && !Conflicts(c.reserved, pod.key, pod.ports)
    && Compatible(c.requirements, PodRequirements(pod.spec), WELL_KNOWN)
    && Compatible(nodeReqs, out, WELL_KNOWN)
    && Remaining(c.options, Meet(nodeReqs, out), Plus(c.requests, pod.Requests())) != []
  }

  function WithPod(c: Claim, pod: Pod, out: Requirements): Claim
    requires pod.spec.Valid()
  {
    var reqs := Meet(Meet(c.requirements, PodRequirements(pod.spec)), out);
    var requests := Plus(c.requests, pod.Requests());
    c.(requirements := reqs,
       options := Remaining(c.options, reqs, requests),
       requests := requests,
       reserved := c.reserved[pod.key := pod.ports],
       pods := c.pods + [pod])
  }

  /** The topology's answer for the pod on the claim. */
  ghost predicate Demanded(c: Claim, topo: Topo, pod: Pod, out: Requirements)
    requires pod.spec.Valid()
  {
    Tightened(topo, pod, StrictPodRequirements(pod.spec), Meet(c.requirements, PodRequirements(pod.spec)), WELL_KNOWN,
      out)
  }

  ghost predicate AddedWith(c: Claim, topo: Topo, pod: Pod, out: Requirements, c': Claim, topo': Topo)
    requires pod.spec.Valid()
  {
    && Demanded(c, topo, pod, out) && Admits(c, pod, out)
    && c' == WithPod(c, pod, out) && topo' == RecordPod(topo, pod, c'.requirements, WELL_KNOWN)
  }

  ghost predicate Added(c: Claim, topo: Topo, pod: Pod, c': Claim, topo': Topo)
    requires pod.spec.Valid()
  {
    exists out :: AddedWith(c, topo, pod, out, c', topo')
  }

  /** Some check fails, under an answer of the topology. */
  ghost predicate Refused(c: Claim, topo: Topo, pod: Pod)
    requires pod.spec.Valid()
  {
    var nodeReqs := Meet(c.requirements, PodRequirements(pod.spec));
    || !ToleratesAll(c.taints, pod.spec.tolerations)
    || Conflicts(c.reserved, pod.key, pod.ports)
    || !Compatible(c.requirements, PodRequirements(pod.spec), WELL_KNOWN)
    || Unsatisfiable(topo, pod, StrictPodRequirements(pod.spec), nodeReqs, WELL_KNOWN)
    || exists out :: Demanded(c, topo, pod, out) && !Admits(c, pod, out)
  }

  // ----- What every claim satisfies

  function ResourcesOf(pods: seq<Pod>): seq<PodResources> {
    seq(|pods|, i requires 0 <= i < |pods| => pods[i].resources)
  }

  predicate DistinctKeys(pods: seq<Pod>) { forall i, j :: 0 <= i < j < |pods| ==> pods[i].key != pods[j].key }

  /** No port of one pod overlaps a port of another. */
  predicate PortsFree(pods: seq<Pod>) {
    forall i, j, a, b ::
      0 <= i < |pods| && 0 <= j < |pods| && i != j && 0 <= a < |pods[i].ports| && 0 <= b < |pods[j].ports| ==>
      !pods[i].ports[a].Matches(pods[j].ports[b])
  }

  /** The reservations are those of the pods. */
  predicate Reserves(reserved: Reservations, pods: seq<Pod>) {
    forall p :: p in pods ==> p.key in reserved && reserved[p.key] == p.ports
  }

  ghost predicate Accounted(c: Claim) {
    forall r :: Amount(c.requests, r) == Amount(c.daemons, r) + Amount(RequestsForPods(ResourcesOf(c.pods)), r)
  }

  ghost predicate Holds(c: Claim, p: Pod) {
    p.spec.Valid() && ToleratesAll(c.taints, p.spec.tolerations) && Narrows(c.requirements, PodRequirements(p.spec))
  }

  ghost predicate ClaimInv(c: Claim) {
    && WellFormed(c.requirements) && Keyed(c.requirements)
    && Accounted(c)
    && (c.pods != [] ==> c.options != [] && Flexible(c.options, c.requirements))
    && (c.pods != [] ==> forall it :: it in c.options ==> Suits(it, c.requirements, c.requests))
    && (forall p :: p in c.pods ==> Holds(c, p))
    && PairwiseFree(c.reserved)
    && (DistinctKeys(c.pods) ==> Reserves(c.reserved, c.pods))
  }

  /** Options only shrink and requirements only narrow. */
  ghost predicate Shrinks(c: Claim, c': Claim) {
    && (forall it :: it in c'.options ==> it in c.options)
    && Narrows(c'.requirements, c.requirements)
    && c.pods <= c'.pods
  }

  lemma FoldedPlain(es: NodeTerm)
    requires PlainTerm(es)
    ensures forall k :: k in Folded(es) ==> Folded(es)[k].minValues.None?
  {
    FoldedNormal(es);
    AddAllPlain(map[], RequirementList(es));
  }

  lemma {:induction false} AddAllPlain(m: Requirements, rs: seq<Requirement>)
    requires forall k :: k in m ==> m[k].minValues.None?
    requires forall i :: 0 <= i < |rs| ==> rs[i].minValues.None?
    ensures forall k :: k in AddAll(m, rs) ==> AddAll(m, rs)[k].minValues.None?
    decreases |rs|
  {
    if rs != [] {
      AddAllPlain(Add(m, rs[0]), rs[1..]);
    }
  }

  /** A pod never asks for a number of values. */
  lemma PodRequirementsPlain(spec: PodSpec)
    requires spec.Valid()
    ensures WellFormed(PodRequirements(spec)) && WellFormed(StrictPodRequirements(spec))
    ensures Keyed(PodRequirements(spec))
  {
    hide HeaviestPreference, RequirementsWith;
    RequirementsWithPlain(spec, HeaviestPreference(spec));
    RequirementsWithPlain(spec, None);
  }

  lemma RequirementsWithPlain(spec: PodSpec, preference: Option<NodeTerm>)
    requires spec.Valid() && (preference.Some? ==> PlainTerm(preference.value))
    ensures WellFormed(RequirementsWith(spec, preference)) && Keyed(RequirementsWith(spec, preference))
  {
    hide Folded, LabelRequirements, WellFormed, Keyed, Meet;
    var base := LabelRequirements(spec.nodeSelector);
    LabelsPlain(spec.nodeSelector);
    if preference.Some? {
      FoldedIsKeyed(preference.value);
      MeetIsKeyed(base, Folded(preference.value));
    }
    var wanted := if preference.Some? then Meet(base, Folded(preference.value)) else base;
    if spec.required.Some? && spec.required.value != [] {
      FoldedIsKeyed(spec.required.value[0]);
      MeetIsKeyed(wanted, Folded(spec.required.value[0]));
    }
  }

  lemma FoldedIsKeyed(t: NodeTerm)
    requires PlainTerm(t)
    ensures WellFormed(Folded(t)) && Keyed(Folded(t))
  {
    FoldedNormal(t);
    FoldedPlain(t);
  }

  lemma LabelsPlain(labels: map<string, string>)
    ensures WellFormed(LabelRequirements(labels)) && Keyed(LabelRequirements(labels))
  {
    LabelRequirementsWellFormed(labels);
  }

  lemma MeetIsKeyed(m: Requirements, n: Requirements)
    requires WellFormed(m) && Keyed(m) && WellFormed(n) && Keyed(n)
    ensures WellFormed(Meet(m, n)) && Keyed(Meet(m, n))
  {
    MeetIsWellFormed(m, n);
  }

  lemma {:induction false} AddAllIsKeyed(m: Requirements, rs: seq<Requirement>)
    requires WellFormed(m) && Keyed(m) && AllNormal(rs) && forall i :: 0 <= i < |rs| ==> rs[i].minValues.None?
    ensures Keyed(AddAll(m, rs))
    decreases |rs|
  {
    if rs != [] {
      AddIsWellFormed(m, rs[0]);
      AddAllIsKeyed(Add(m, rs[0]), rs[1..]);
    }
  }

  /** What the topology answers is well formed and keeps the node's own requirements. */
  lemma TightenedIsWellFormed(
    t: Topo, pod: Pod, podReqs: Requirements, nodeReqs: Requirements, allow: set<string>, out: Requirements)
    requires WellFormed(nodeReqs) && Keyed(nodeReqs) && Tightened(t, pod, podReqs, nodeReqs, allow, out)
    ensures WellFormed(out) && Keyed(out)
  {
    hide Requirement.Intersection;
    var refs: seq<Ref>, rs: seq<Requirement> :| TightenedBy(t, pod, podReqs, nodeReqs, allow, out, refs, rs);
    DemandsAreNormal(t, pod, podReqs, nodeReqs, allow, out, refs, rs);
    AddAllIsWellFormed(nodeReqs, rs);
    forall i | 0 <= i < |rs| ensures rs[i].minValues.None? {
      ChoiceIsFinite(At(t, refs[i]), pod, Get(podReqs, refs[i].id.key), Get(nodeReqs, refs[i].id.key), rs[i]);
    }
    AddAllIsKeyed(nodeReqs, rs);
  }

  // ----- Every addition keeps the invariant

  lemma AddKeepsAccount(c: Claim, pod: Pod, out: Requirements)
    requires pod.spec.Valid() && Accounted(c)
    ensures Accounted(WithPod(c, pod, out))
  {
    hide PodRequirements, Remaining, Meet, RequestsForPods;
    var c' := WithPod(c, pod, out);
    assert ResourcesOf(c'.pods) == ResourcesOf(c.pods) + [pod.resources];
    RequestsOfConcatenation(ResourcesOf(c.pods), [pod.resources]);
    MergeTwo(RequestsForPods(ResourcesOf(c.pods)), pod.Requests());
  }

  lemma AddNarrows(c: Claim, pod: Pod, out: Requirements)
    requires pod.spec.Valid()
    ensures Narrows(WithPod(c, pod, out).requirements, c.requirements)
    ensures Narrows(WithPod(c, pod, out).requirements, PodRequirements(pod.spec))
  {
    hide PodRequirements, Remaining, Meet;
    MeetNarrows(c.requirements, PodRequirements(pod.spec));
    MeetNarrows(Meet(c.requirements, PodRequirements(pod.spec)), out);
  }

  lemma AddKeepsHolding(c: Claim, pod: Pod, out: Requirements, p: Pod)
    requires pod.spec.Valid() && Admits(c, pod, out) && p in WithPod(c, pod, out).pods && (p in c.pods ==> Holds(c, p))
    ensures Holds(WithPod(c, pod, out), p)
  {
    hide Remaining, Meet, PodRequirements, Conflicts, ToleratesAll;
    AddNarrows(c, pod, out);
  }

  lemma ReservesOneMore(reserved: Reservations, pods: seq<Pod>, pod: Pod)
    requires DistinctKeys(pods + [pod]) && Reserves(reserved, pods)
    ensures Reserves(reserved[pod.key := pod.ports], pods + [pod])
  {
    forall p | p in pods ensures p.key != pod.key {
      var i :| 0 <= i < |pods| && pods[i] == p;
      assert (pods + [pod])[i] == p && (pods + [pod])[|pods|] == pod;
    }
  }

  lemma DistinctPrefix(pods: seq<Pod>, pod: Pod)
    requires DistinctKeys(pods + [pod])
    ensures DistinctKeys(pods)
  {
    assert forall i :: 0 <= i < |pods| ==> (pods + [pod])[i] == pods[i];
  }

  /** Placing a pod keeps the claim's invariant; options only shrink, requirements only narrow. */
  lemma AddKeepsClaim(c: Claim, topo: Topo, pod: Pod, c': Claim, topo': Topo)
    requires ClaimInv(c) && pod.spec.Valid() && Added(c, topo, pod, c', topo')
    ensures ClaimInv(c') && Shrinks(c, c') && c'.pods == c.pods + [pod]
  {
    hide Remaining, Suits, Holds, Accounted, PairwiseFree, Conflicts, Flexible, Tightened, Meet, PodRequirements,
      StrictPodRequirements, WellFormed, Keyed, ToleratesAll, Compatible, RecordPod, Narrows;
    var out :| AddedWith(c, topo, pod, out, c', topo');
    AnswerIsKeyed(c.requirements, topo, pod, WELL_KNOWN, out);
    AddKeepsAccount(c, pod, out);
    AddNarrows(c, pod, out);
    forall p | p in c'.pods ensures Holds(c', p) {
      AddKeepsHolding(c, pod, out, p);
    }
    ReserveKeepsFree(c.reserved, pod.key, pod.ports);
    if DistinctKeys(c'.pods) {
      DistinctPrefix(c.pods, pod);
      ReservesOneMore(c.reserved, c.pods, pod);
    }
    RemainingSuits(c.options, c'.requirements, c'.requests);
  }

  lemma RemainingSuits(its: seq<InstanceType>, reqs: Requirements, requests: ResourceList)
    ensures forall it :: it in Remaining(its, reqs, requests) ==> it in its && Suits(it, reqs, requests)
    ensures Flexible(Remaining(its, reqs, requests), reqs)
  {
    hide Suits;
  }

  /** Whichever type is launched for a claim carries its daemons and all its pods, and can be bought as required. */
  lemma EveryOptionCarriesAll(c: Claim, it: InstanceType, r: string)
    requires ClaimInv(c) && c.pods != [] && it in c.options
    ensures Amount(c.daemons, r) + Amount(RequestsForPods(ResourcesOf(c.pods)), r) <= Usable(it, r)
    ensures CanBeBought(it, c.requirements) && Intersects(it.requirements, c.requirements)
  {
    hide Suits, Holds, PairwiseFree, Flexible, RequestsForPods, CanBeBought, Intersects, Usable;
    SuitsIff(it, c.requirements, c.requests);
  }

  /** Pods with different names on one claim never overlap in host ports. */
  lemma PlacedPodsArePortFree(c: Claim)
    requires ClaimInv(c) && DistinctKeys(c.pods)
    ensures PortsFree(c.pods)
  {
    hide Accounted, Suits, Flexible, Holds;
    forall i, j, a, b |
      0 <= i < |c.pods| && 0 <= j < |c.pods| && i != j && 0 <= a < |c.pods[i].ports| && 0 <= b < |c.pods[j].ports|
      ensures !c.pods[i].ports[a].Matches(c.pods[j].ports[b])
    {
      assert c.pods[i].key != c.pods[j].key;
      assert c.pods[i] in c.pods && c.pods[j] in c.pods;
      assert c.reserved[c.pods[i].key] == c.pods[i].ports;
    }
  }

  ghost predicate AddsSome(c: Claim, c': Claim) {
    exists topo, pod: Pod, topo' :: pod.spec.Valid() && Added(c, topo, pod, c', topo')
  }

  /** A claim's life: each step adds a pod or leaves the claim as it is. */
  ghost predicate ClaimRun(run: seq<Claim>) {
    forall i, j :: 0 <= i < j < |run| && j == i + 1 ==> run[j] == run[i] || AddsSome(run[i], run[j])
  }

  lemma {:induction false} ClaimRunKeepsInv(run: seq<Claim>, n: nat)
    requires n < |run| && ClaimRun(run) && ClaimInv(run[0])
    ensures ClaimInv(run[n]) && Shrinks(run[0], run[n])
  {
    hide ClaimInv, Added, Narrows;
    if n == 0 {
      NarrowsItself(run[0].requirements);
    } else {
      ClaimRunKeepsInv(run, n - 1);
      if run[n] != run[n - 1] {
        assert AddsSome(run[n - 1], run[n]);
        var topo, pod: Pod, topo' :| pod.spec.Valid() && Added(run[n - 1], topo, pod, run[n], topo');
        AddKeepsClaim(run[n - 1], topo, pod, run[n], topo');
        NarrowsFurther(run[n].requirements, run[n - 1].requirements, run[0].requirements);
      }
    }
  }

  lemma NarrowsFurther(a: Requirements, b: Requirements, c: Requirements)
    requires Narrows(a, b) && Narrows(b, c)
    ensures Narrows(a, c)
  {}

  // ----- The claim as an object

  /** The claim a template opens on a new host name. */
  function Opened(t: Template, hostname: string, its: seq<InstanceType>): Claim {
    Claim(t.pool, t.taints, t.daemons, Add(t.requirements, Exactly(HOSTNAME, hostname)), its, t.daemons, map[], [])
  }

  predicate ValidTemplate(t: Template) { WellFormed(t.requirements) && Keyed(t.requirements) }

  lemma OpenedInv(t: Template, hostname: string, its: seq<InstanceType>)
    requires ValidTemplate(t)
    ensures ClaimInv(Opened(t, hostname, its))
  {
    HostnameIsCanonical();
    AddIsWellFormed(t.requirements, Exactly(HOSTNAME, hostname));
    assert ResourcesOf([]) == [] && AllRequests([]) == [];
  }

  /** The host name is only needed while pods are placed. */
  function Finalized(c: Claim): Claim { c.(requirements := c.requirements - {HOSTNAME}) }

  class NodeClaim {
    const pool: string
    const taints: seq<Taint>
    const daemons: ResourceList
    var requirements: Requirements
    var options: seq<InstanceType>
    var requests: ResourceList
    var pods: seq<Pod>
    const hostPortUsage: HostPortUsage
    const topology: Topology

    ghost function View(): Claim reads this, hostPortUsage {
      Claim(pool, taints, daemons, requirements, options, requests, hostPortUsage.reserved, pods)
    }

    /** The host name becomes a known domain whether or not a pod is placed on the claim afterwards. */
    constructor (t: Template, topology: Topology, hostname: string, its: seq<InstanceType>)
      requires topology.Valid()
      modifies topology.Repr()
      ensures this.topology == topology && fresh(hostPortUsage) && View() == Opened(t, hostname, its)
      ensures topology.Valid() && topology.Repr() == old(topology.Repr())
      ensures topology.View() == Registered(old(topology.View()), HOSTNAME, hostname)
    {
      hide Topology.View, Topology.Valid, Registered;
      ghost var repr := topology.Repr();
      assert allocated(repr);
      hide Topology.Repr;
      this.topology := topology;
      pool, taints, daemons := t.pool, t.taints, t.daemons;
      requirements, options, requests, pods :=
        RequirementSets.Add(t.requirements, Exactly(HOSTNAME, hostname)), its, t.daemons, [];
      hostPortUsage := new HostPortUsage();
      new;
      topology.Register(HOSTNAME, hostname);
    }

    method FinalizeScheduling()
      modifies this`requirements
      ensures View() == Finalized(old(View()))
    {
      requirements := requirements - {HOSTNAME};
    }

    /** Place the pod if every check passes; otherwise nothing changes. */
    method Add(pod: Pod) returns (ok: bool)
      requires topology.Valid() && pod.spec.Valid() && WellFormed(requirements) && Keyed(requirements)
      modifies this, hostPortUsage, topology.Repr()
      ensures topology.Valid() && topology.Repr() == old(topology.Repr())
      ensures ok ==> Added(old(View()), old(topology.View()), pod, View(), topology.View())
      ensures !ok ==>
        View() == old(View()) && topology.View() == old(topology.View()) && Refused(View(), topology.View(), pod)
    {
      hide Admits, Refused, Demanded, RecordPod, WithPod, Topology.Valid, Topology.View;
      ghost var before, topo := View(), topology.View();
      var reqs, remaining, total;
      ghost var out;
      ok, reqs, remaining, total, out := Check(pod);
      assert topology.View() == topo;
      if ok {
        Commit(pod, reqs, remaining, total);
        assert View() == WithPod(before, pod, out) by { PlacedClaim(before, pod, out); }
        assert AddedWith(before, topo, pod, out, View(), topology.View());
      }
    }

    method Check(pod: Pod)
      returns (ok: bool, reqs: Requirements, remaining: seq<InstanceType>, total: ResourceList, ghost out: Requirements)
      requires topology.Valid() && pod.spec.Valid() && WellFormed(requirements) && Keyed(requirements)
      ensures !ok ==> Refused(View(), topology.View(), pod)
      ensures ok ==>
        && Demanded(View(), topology.View(), pod, out) && Admits(View(), pod, out)
        && reqs == Meet(Meet(requirements, PodRequirements(pod.spec)), out) && total == Plus(requests, pod.Requests())
        && remaining == Remaining(options, reqs, total)
    {
      hide Conflicts, Compatible, Tightened, Unsatisfiable, PodRequirements, StrictPodRequirements, Remaining, Meet,
        ToleratesAll, Topology.View, Topology.Valid;
      ghost var c, topo := View(), topology.View();
      assert allocated(topology.Repr());
      ok, reqs, remaining, total, out := false, map[], [], map[], map[];
      if !ToleratesAll(taints, pod.spec.tolerations) {
        return;
      }
      var conflict := hostPortUsage.FindConflict(pod.key, pod.ports);
      if conflict {
        return;
      }
      var podReqs := PodRequirements(pod.spec);
      if !Compatible(requirements, podReqs, WELL_KNOWN) {
        return;
      }
      var nodeReqs := Meet(requirements, podReqs);
      var strict := if pod.spec.preferred != [] then StrictPodRequirements(pod.spec) else podReqs;
      assert strict == StrictPodRequirements(pod.spec) by { WithoutPreference(pod.spec); }
      var topologyReqs, satisfiable := topology.AddRequirements(strict, nodeReqs, pod, WELL_KNOWN);
      if !satisfiable {
        return;
      }
      out := topologyReqs;
      assert Demanded(c, topo, pod, out);
      if !Compatible(nodeReqs, topologyReqs, WELL_KNOWN) {
        return;
      }
      AnswerIsKeyed(requirements, topology.View(), pod, WELL_KNOWN, topologyReqs);
      reqs := Meet(nodeReqs, topologyReqs);
      total := Merge([requests, pod.Requests()]);
      MergeTwo(requests, pod.Requests());
      remaining := FilterInstanceTypes(options, reqs, total);
      ok := remaining != [];
      assert c == View() && topo == topology.View();
    }

    method Commit(pod: Pod, reqs: Requirements, remaining: seq<InstanceType>, total: ResourceList)
      requires topology.Valid()
      modifies this, hostPortUsage, topology.Repr()
      ensures topology.Valid() && topology.Repr() == old(topology.Repr())
      ensures View() == old(View()).(requirements := reqs, options := remaining, requests := total,
                                     reserved := old(hostPortUsage.reserved)[pod.key := pod.ports], pods :=
                                       old(pods) + [pod])
      ensures topology.View() == RecordPod(old(topology.View()), pod, reqs, WELL_KNOWN)
    {
      hide RecordPod, Conflicts, PairwiseFree, Topology.View, Topology.Valid;
      ghost var topo, repr := topology.View(), topology.Repr();
      assert this !in repr && hostPortUsage !in repr && allocated(repr);
      hide Topology.Repr;
      pods := pods + [pod];
      options := remaining;
      requests := total;
      requirements := reqs;
      assert topology.View() == topo && topology.Valid() && topology.Repr() == repr;
      topology.Record(pod, reqs, WELL_KNOWN);
      hostPortUsage.Add(pod.key, pod.ports);
      assert topology.View() == RecordPod(topo, pod, reqs, WELL_KNOWN);
    }
  }

  lemma PlacedClaim(c: Claim, pod: Pod, out: Requirements)
    requires pod.spec.Valid()
    ensures var reqs := Meet(Meet(c.requirements, PodRequirements(pod.spec)), out);
      var total := Plus(c.requests, pod.Requests());
      WithPod(c, pod, out) == c.(requirements := reqs, options := Remaining(c.options, reqs, total), requests := total,
                                 reserved := c.reserved[pod.key := pod.ports], pods := c.pods + [pod])
  {}

  lemma WithoutPreference(spec: PodSpec)
    requires spec.Valid()
    ensures spec.preferred == [] ==> PodRequirements(spec) == StrictPodRequirements(spec)
  {}

  lemma AnswerIsKeyed(reqs: Requirements, topo: Topo, pod: Pod, allow: set<string>, out: Requirements)
    requires WellFormed(reqs) && Keyed(reqs) && pod.spec.Valid()
    requires var nodeReqs := Meet(reqs, PodRequirements(pod.spec));
      Tightened(topo, pod, StrictPodRequirements(pod.spec), nodeReqs, allow, out)
    ensures var placed := Meet(Meet(reqs, PodRequirements(pod.spec)), out);
      WellFormed(placed) && Keyed(placed) && WellFormed(out)
  {
    hide Meet, PodRequirements, StrictPodRequirements, Tightened, WellFormed, Keyed;
    var nodeReqs := Meet(reqs, PodRequirements(pod.spec));
    PodRequirementsPlain(pod.spec);
    MeetIsKeyed(reqs, PodRequirements(pod.spec));
    TightenedIsWellFormed(topo, pod, StrictPodRequirements(pod.spec), nodeReqs, allow, out);
    MeetIsKeyed(nodeReqs, out);
  }
}
