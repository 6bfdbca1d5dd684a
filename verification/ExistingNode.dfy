/** A node of the cluster, or one already launched, on which the scheduler may place further pods. */
module ExistingNodes {
  import opened Common
  import opened Labels
  import opened RequirementAlgebra
  import opened RequirementSets
  import opened Resources
  import opened HostPorts
  import opened Volumes
  import opened InstanceTypes
  import opened Pods
  import opened TopologyGroups
  import opened Topologies
  import opened AntiAffinitySafety
  import opened NodeClaims

  /** Volumes mounted on the node, in all and by pod, and the attach limits of its drivers. */
  datatype Mounts = Mounts(volumes: VolumeSet, podVolumes: map<PodKey, VolumeSet>, limits: map<string, int>)

  /** A node as the cluster state reports it. */
  datatype NodeSnapshot = NodeSnapshot(
    name: string,
    hostname: string,
    initialized: bool,
    labels: map<string, string>,
    taints: seq<Taint>,
    capacity: ResourceList,
    allocatable: ResourceList,
    bound: ResourceList,                 // requests of the pods bound to it
    boundDaemons: ResourceList,          // requests of the daemons among them
    reserved: Reservations,
    mounts: Mounts)

  datatype Existing = Existing(
    node: NodeSnapshot,
    daemons: ResourceList,               // requests of the daemons still to come
    requirements: Requirements,
    requests: ResourceList,
    reserved: Reservations,
    mounts: Mounts,
    pods: seq<Pod>)
  {
    function Available(): ResourceList { Subtract(node.allocatable, node.bound) }
  }

  /** The daemons still to come; one that is bound without being expected does not count against the others. */
  function RemainingDaemons(daemons: ResourceList, bound: ResourceList): ResourceList {
    map r | r in daemons :: Max(Subtract(daemons, bound)[r], 0)
  }

  /** The labels of the node, with its host name. */
  function NodeRequirements(node: NodeSnapshot): Requirements {
    Add(LabelRequirements(node.labels), Exactly(HOSTNAME, node.hostname))
  }

  function FromState(node: NodeSnapshot, daemons: ResourceList): Existing {
    var remaining := RemainingDaemons(daemons, node.boundDaemons);
    Existing(node, remaining, NodeRequirements(node), remaining, node.reserved, node.mounts, [])
  }

  // ----- Adding a pod

  predicate NodeAdmits(n: Existing, pod: Pod, out: Requirements)
    requires pod.spec.Valid()
  {
    && ToleratesAll(n.node.taints, pod.spec.tolerations)
    && pod.volumes.Some? && !Exceeds(Union(n.mounts.volumes, pod.volumes.value), n.mounts.limits)
    && !Conflicts(n.reserved, pod.key, pod.ports)
    && Fits(Plus(n.requests, pod.Requests()), n.Available())
    && Compatible(n.requirements, PodRequirements(pod.spec), {})
    && Compatible(Meet(n.requirements, PodRequirements(pod.spec)), out, {})
  }

  function NodeWithPod(n: Existing, pod: Pod, out: Requirements): Existing
    requires pod.spec.Valid() && pod.volumes.Some?
  {
    n.(requirements := Meet(Meet(n.requirements, PodRequirements(pod.spec)), out),
       requests := Plus(n.requests, pod.Requests()),
       reserved := n.reserved[pod.key := pod.ports],
       mounts := Mounts(Union(n.mounts.volumes, pod.volumes.value), n.mounts.podVolumes[pod.key := pod.volumes.value],
         n.mounts.limits),
       pods := n.pods + [pod])
  }

  ghost predicate NodeDemanded(n: Existing, topo: Topo, pod: Pod, out: Requirements)
    requires pod.spec.Valid()
  {
    Tightened(topo, pod, StrictPodRequirements(pod.spec), Meet(n.requirements, PodRequirements(pod.spec)), {}, out)
  }

  ghost predicate NodeAddedWith(n: Existing, topo: Topo, pod: Pod, out: Requirements, n': Existing, topo': Topo)
    requires pod.spec.Valid()
  {
    && NodeDemanded(n, topo, pod, out) && NodeAdmits(n, pod, out)
    && n' == NodeWithPod(n, pod, out) && topo' == RecordPod(topo, pod, n'.requirements, {})
  }

  ghost predicate NodeAdded(n: Existing, topo: Topo, pod: Pod, n': Existing, topo': Topo)
    requires pod.spec.Valid()
  {
    exists out :: NodeAddedWith(n, topo, pod, out, n', topo')
  }

  ghost predicate NodeRefused(n: Existing, topo: Topo, pod: Pod)
    requires pod.spec.Valid()
  {
    var nodeReqs := Meet(n.requirements, PodRequirements(pod.spec));
    || !ToleratesAll(n.node.taints, pod.spec.tolerations)
    || pod.volumes.None?
    || Exceeds(Union(n.mounts.volumes, pod.volumes.value), n.mounts.limits)
    || Conflicts(n.reserved, pod.key, pod.ports)
    || !Fits(Plus(n.requests, pod.Requests()), n.Available())
    || !Compatible(n.requirements, PodRequirements(pod.spec), {})
    || Unsatisfiable(topo, pod, StrictPodRequirements(pod.spec), nodeReqs, {})
    || exists out :: NodeDemanded(n, topo, pod, out) && !NodeAdmits(n, pod, out)
  }

  // ----- What every node satisfies

  /** Bound pods, daemons to come and placed pods together stay within what the node offers. */
  predicate WithinAllocatable(n: Existing) {
    forall r :: r in n.node.allocatable ==> Amount(n.node.bound, r) + Amount(n.requests, r) <= n.node.allocatable[r]
  }

  ghost predicate NodeAccounted(n: Existing) {
    forall r :: Amount(n.requests, r) == Amount(n.daemons, r) + Amount(RequestsForPods(ResourcesOf(n.pods)), r)
  }

  ghost predicate NodeHolds(n: Existing, p: Pod) {
    p.spec.Valid() && ToleratesAll(n.node.taints, p.spec.tolerations) &&
      Narrows(n.requirements, PodRequirements(p.spec))
  }

  /** The labels that the node has are what its requirements say of them, whatever pods were placed. */
  predicate KeepsLabels(n: Existing) {
    forall k :: k in NodeRequirements(n.node) ==>
      k in n.requirements && n.requirements[k] == NodeRequirements(n.node)[k]
  }

  /** The pod does not insist on the label: a node without it will do. */
  predicate DoesWithout(p: Pod, k: string) {
    p.spec.Valid() && k in PodRequirements(p.spec) && PodRequirements(p.spec)[k].AllowsAbsence()
  }

  /** A requirement on a label that the node does not have comes from a pod that does without it, or is empty. */
  predicate Explained(n: Existing, k: string) {
    (exists p :: p in n.pods && DoesWithout(p, k)) || (k in n.requirements && n.requirements[k].Op() == DoesNotExist)
  }

  ghost predicate TrueToLabels(n: Existing) {
    && KeepsLabels(n)
    && (forall p :: p in n.pods ==>
          && p.spec.Valid() && PodRequirements(p.spec).Keys <= n.requirements.Keys
          && Intersects(NodeRequirements(n.node), PodRequirements(p.spec)))
    && (forall k :: k in n.requirements && k !in NodeRequirements(n.node) ==> Explained(n, k))
  }

  /** The ports of the placed pods are reserved, those of the other pods are as they were, and none overlap. */
  ghost predicate PortsHeld(n: Existing) {
    && (DistinctKeys(n.pods) ==> Reserves(n.reserved, n.pods))
    && (forall k :: k in n.node.reserved && (forall p :: p in n.pods ==> p.key != k) ==>
          k in n.reserved && n.reserved[k] == n.node.reserved[k])
    && (PairwiseFree(n.node.reserved) ==> PairwiseFree(n.reserved))
  }

  ghost predicate NodeInv(n: Existing) {
    && WellFormed(n.requirements) && Keyed(n.requirements)
    && NodeAccounted(n) && TrueToLabels(n) && PortsHeld(n)
    && (n.pods != [] ==> WithinAllocatable(n) && !Exceeds(n.mounts.volumes, n.mounts.limits))
    && Covers(n.mounts.volumes, n.mounts.podVolumes)
    && (forall p :: p in n.pods ==> NodeHolds(n, p) && p.volumes.Some? && Subset(p.volumes.value, n.mounts.volumes))
  }

  /** What no placement changes or undoes. */
  ghost predicate NodeKeeps(n: Existing, n': Existing) {
    && n'.node == n.node && n'.daemons == n.daemons && n'.mounts.limits == n.mounts.limits
    && Subset(n.mounts.volumes, n'.mounts.volumes)
    && (PairwiseFree(n.reserved) ==> PairwiseFree(n'.reserved))
    && Narrows(n'.requirements, n.requirements)
    && n.pods <= n'.pods
  }

  lemma FitsWithinAllocatable(n: Existing, requests: ResourceList)
    requires Fits(requests, n.Available())
    ensures forall r ::
      r in n.node.allocatable ==> Amount(n.node.bound, r) + Amount(requests, r) <= n.node.allocatable[r]
  {
    forall r | r in n.node.allocatable ensures Amount(requests, r) <= n.node.allocatable[r] - Amount(n.node.bound, r) {
      assert n.Available()[r] >= 0;
    }
  }

  lemma AddKeepsNodeAccount(n: Existing, pod: Pod, out: Requirements)
    requires pod.spec.Valid() && pod.volumes.Some? && NodeAccounted(n)
    ensures NodeAccounted(NodeWithPod(n, pod, out))
  {
    hide PodRequirements, Meet, RequestsForPods, Union;
    var n' := NodeWithPod(n, pod, out);
    assert ResourcesOf(n'.pods) == ResourcesOf(n.pods) + [pod.resources];
    RequestsOfConcatenation(ResourcesOf(n.pods), [pod.resources]);
    MergeTwo(RequestsForPods(ResourcesOf(n.pods)), pod.Requests());
  }

  lemma AddKeepsVolumes(n: Existing, pod: Pod, out: Requirements)
    requires pod.spec.Valid() && pod.volumes.Some? && Covers(n.mounts.volumes, n.mounts.podVolumes)
    ensures var m := NodeWithPod(n, pod, out).mounts;
      && Covers(m.volumes, m.podVolumes) && Subset(n.mounts.volumes, m.volumes) && Subset(pod.volumes.value, m.volumes)
      && forall v :: Subset(v, n.mounts.volumes) ==> Subset(v, m.volumes)
  {
    hide PodRequirements, Meet, RequestsForPods;
  }

  lemma AddNarrowsNode(n: Existing, pod: Pod, out: Requirements)
    requires pod.spec.Valid() && pod.volumes.Some?
    ensures Narrows(NodeWithPod(n, pod, out).requirements, n.requirements)
    ensures Narrows(NodeWithPod(n, pod, out).requirements, PodRequirements(pod.spec))
  {
    hide PodRequirements, Meet;
    MeetNarrows(n.requirements, PodRequirements(pod.spec));
    MeetNarrows(Meet(n.requirements, PodRequirements(pod.spec)), out);
  }

  lemma AddKeepsNodeHolding(n: Existing, pod: Pod, out: Requirements, p: Pod)
    requires pod.spec.Valid() && NodeAdmits(n, pod, out) && p in NodeWithPod(n, pod, out).pods &&
      (p in n.pods ==> NodeHolds(n, p))
    ensures NodeHolds(NodeWithPod(n, pod, out), p)
  {
    hide Meet, PodRequirements, Conflicts, ToleratesAll, Exceeds, Fits;
    AddNarrowsNode(n, pod, out);
  }

  /** A label's requirement survives whatever is compatible with it. */
  lemma LabelStands(r: Requirement, other: Requirement)
    requires r.Normal() && other.Normal() && r.key == other.key && !r.complement && |r.values| <= 1
    requires r.minValues.None? && other.minValues.None?
    requires r.Intersection(other).Len() != 0 || (other.AllowsAbsence() && r.AllowsAbsence())
    ensures other.Intersection(r) == r
  {
    IntersectionCommutative(r, other);
    var both := r.Intersection(other);
    assert both.values <= r.values;
    if r.values != {} {
      var v :| v in both.values;
      assert r.values == {v} + (r.values - {v});
    }
  }

  /** No label has two values, and none asks for a number of values. */
  lemma LabelIsSingle(node: NodeSnapshot, k: string)
    requires k in NodeRequirements(node)
    ensures var r := NodeRequirements(node)[k];
      r.Normal() && r.key == k && !r.complement && |r.values| <= 1 && r.minValues.None?
  {
    HostnameIsCanonical();
    LabelRequirementsWellFormed(node.labels);
    AddIsWellFormed(LabelRequirements(node.labels), Exactly(HOSTNAME, node.hostname));
    AgreeOnOne(node.labels, k);
    var r, host := NodeRequirements(node)[k], Exactly(HOSTNAME, node.hostname);
    if k == HOSTNAME {
      assert r.values <= {node.hostname};
      assert r.values == {} || r.values == {node.hostname};
    }
  }

  lemma AgreeOnOne(labels: map<string, string>, key: string)
    ensures |AgreedValues(labels, key)| <= 1
  {
    var vs := AgreedValues(labels, key);
    if v :| v in vs {
      assert vs == {v};
    }
  }

  lemma PodRequirementsUncounted(spec: PodSpec)
    requires spec.Valid()
    ensures forall k :: k in PodRequirements(spec) ==> PodRequirements(spec)[k].minValues.None?
  {
    hide HeaviestPreference, Folded, LabelRequirements;
    var preference := HeaviestPreference(spec);
    assert forall k :: k in LabelRequirements(spec.nodeSelector) ==>
      LabelRequirements(spec.nodeSelector)[k].minValues.None? by { LabelsUncounted(spec.nodeSelector); }
    if preference.Some? {
      FoldedPlain(preference.value);
    }
    if spec.required.Some? && spec.required.value != [] {
      FoldedPlain(spec.required.value[0]);
    }
  }

  lemma LabelsUncounted(labels: map<string, string>)
    ensures forall k :: k in LabelRequirements(labels) ==> LabelRequirements(labels)[k].minValues.None?
  {}

  lemma EmptyStays(r: Requirement, other: Requirement)
    requires r.Op() == DoesNotExist
    ensures other.Intersection(r).Op() == DoesNotExist
  {
    assert r.values == {};
    assert other.Intersection(r).values == {};
  }

  lemma {:induction false} AddAllAt(m: Requirements, rs: seq<Requirement>, k: string)
    requires forall i :: 0 <= i < |rs| ==> !rs[i].complement && rs[i].minValues.None?
    requires k in m ==> m[k].minValues.None?
    ensures k in AddAll(m, rs) ==> AddAll(m, rs)[k].minValues.None?
    ensures k in m ==> k in AddAll(m, rs)
    ensures k !in m && k in AddAll(m, rs) ==> !AddAll(m, rs)[k].complement
    ensures k in m && !m[k].complement ==> !AddAll(m, rs)[k].complement
    decreases |rs|
  {
    if rs != [] {
      AddAllAt(Add(m, rs[0]), rs[1..], k);
    }
  }

  /** What the topology's answer says of a key. */
  lemma AnswerAt(
    t: Topo, pod: Pod, podReqs: Requirements, nodeReqs: Requirements, allow: set<string>, out: Requirements, k: string)
    requires Tightened(t, pod, podReqs, nodeReqs, allow, out) && (k in nodeReqs ==> nodeReqs[k].minValues.None?)
    ensures k in out ==> out[k].minValues.None?
    ensures k in nodeReqs ==> k in out
    ensures k !in nodeReqs && k in out ==> !out[k].complement
  {
    hide Requirement.Intersection, Choice;
    var refs: seq<Ref>, rs: seq<Requirement> :| TightenedBy(t, pod, podReqs, nodeReqs, allow, out, refs, rs);
    forall i | 0 <= i < |rs| ensures !rs[i].complement && rs[i].minValues.None? {
      ChoiceIsFinite(At(t, refs[i]), pod, Get(podReqs, refs[i].id.key), Get(nodeReqs, refs[i].id.key), rs[i]);
    }
    AddAllAt(nodeReqs, rs, k);
  }

  lemma AddKeepsLabel(n: Existing, topo: Topo, pod: Pod, out: Requirements, k: string)
    requires pod.spec.Valid() && WellFormed(n.requirements) && WellFormed(out) && KeepsLabels(n)
    requires NodeDemanded(n, topo, pod, out) && NodeAdmits(n, pod, out) && k in NodeRequirements(n.node)
    ensures var reqs := NodeWithPod(n, pod, out).requirements; k in reqs && reqs[k] == NodeRequirements(n.node)[k]
  {
    hide Tightened, PodRequirements, StrictPodRequirements, NodeRequirements, Requirement.Intersection,
      Requirement.AllowsAbsence, ToleratesAll, Exceeds, Union, Conflicts, Fits, Plus, WellFormed, Requirement.Len,
      Requirement.Normal;
    var own, p := NodeRequirements(n.node)[k], PodRequirements(pod.spec);
    var nodeReqs := Meet(n.requirements, p);
    LabelIsSingle(n.node, k);
    PodRequirementsPlain(pod.spec);
    PodRequirementsUncounted(pod.spec);
    WellFormedAt(p, k);
    WellFormedAt(out, k);
    if k in p {
      LabelStands(own, p[k]);
    }
    assert nodeReqs[k] == own;
    AnswerAt(topo, pod, StrictPodRequirements(pod.spec), nodeReqs, {}, out, k);
    LabelStands(own, out[k]);
  }

  lemma WellFormedAt(m: Requirements, k: string)
    requires WellFormed(m)
    ensures k in m ==> m[k].key == k && m[k].Normal()
  {}

  lemma AddExplains(n: Existing, topo: Topo, pod: Pod, out: Requirements, k: string)
    requires pod.spec.Valid() && NodeDemanded(n, topo, pod, out) && NodeAdmits(n, pod, out)
    requires k in n.requirements ==> Explained(n, k)
    requires k in NodeWithPod(n, pod, out).requirements
    ensures Explained(NodeWithPod(n, pod, out), k)
  {
    hide Tightened, PodRequirements, StrictPodRequirements, Requirement.Intersection, Requirement.Op, ToleratesAll,
      Exceeds, Union, Conflicts, Fits, Plus, Intersects;
    var n', p := NodeWithPod(n, pod, out), PodRequirements(pod.spec);
    var nodeReqs := Meet(n.requirements, p);
    if k in n.requirements {
      if n.requirements[k].Op() == DoesNotExist {
        if k in p {
          EmptyStays(n.requirements[k], p[k]);
        }
        if k in out {
          EmptyStays(nodeReqs[k], out[k]);
        }
      } else {
        var q :| q in n.pods && DoesWithout(q, k);
        assert q in n'.pods;
      }
    } else if k in p {
      assert DoesWithout(pod, k) && pod in n'.pods;
    } else {
      AnswerAt(topo, pod, StrictPodRequirements(pod.spec), nodeReqs, {}, out, k);
      FiniteAbsence(out[k]);
    }
  }

  lemma FiniteAbsence(r: Requirement)
    requires !r.complement && r.AllowsAbsence()
    ensures r.Op() == DoesNotExist
  {}

  lemma MeetKeys(m: Requirements, n: Requirements)
    ensures Meet(m, n).Keys == m.Keys + n.Keys
  {}

  lemma AddIntersects(n: Existing, pod: Pod, out: Requirements)
    requires pod.spec.Valid() && KeepsLabels(n) && NodeAdmits(n, pod, out)
    ensures Intersects(NodeRequirements(n.node), PodRequirements(pod.spec))
  {
    hide PodRequirements, NodeRequirements, Requirement.Intersection, Requirement.AllowsAbsence, ToleratesAll, Exceeds,
      Union, Conflicts, Fits, Plus, Meet;
  }

  lemma AddStaysTrue(n: Existing, topo: Topo, pod: Pod, out: Requirements)
    requires pod.spec.Valid() && WellFormed(n.requirements) && WellFormed(out) && TrueToLabels(n)
    requires NodeDemanded(n, topo, pod, out) && NodeAdmits(n, pod, out)
    ensures TrueToLabels(NodeWithPod(n, pod, out))
  {
    hide NodeDemanded, PodRequirements, NodeRequirements, Intersects, Explained, ToleratesAll, Exceeds, Union,
      Conflicts, Fits, Plus, WellFormed, Meet, Compatible;
    var n' := NodeWithPod(n, pod, out);
    forall k | k in NodeRequirements(n.node)
      ensures k in n'.requirements && n'.requirements[k] == NodeRequirements(n.node)[k] {
      AddKeepsLabel(n, topo, pod, out, k);
    }
    forall k | k in n'.requirements && k !in NodeRequirements(n.node) ensures Explained(n', k) {
      AddExplains(n, topo, pod, out, k);
    }
    AddIntersects(n, pod, out);
    MeetKeys(n.requirements, PodRequirements(pod.spec));
    MeetKeys(Meet(n.requirements, PodRequirements(pod.spec)), out);
  }

  lemma AddHoldsPorts(n: Existing, pod: Pod, out: Requirements)
    requires pod.spec.Valid() && PortsHeld(n) && NodeAdmits(n, pod, out)
    ensures PortsHeld(NodeWithPod(n, pod, out))
  {
    hide PodRequirements, Meet, Compatible, Fits, Plus, Union, Exceeds, ToleratesAll, Conflicts, PairwiseFree;
    var n' := NodeWithPod(n, pod, out);
    if DistinctKeys(n'.pods) {
      DistinctPrefix(n.pods, pod);
      ReservesOneMore(n.reserved, n.pods, pod);
    }
    if PairwiseFree(n.node.reserved) {
      ReserveKeepsFree(n.reserved, pod.key, pod.ports);
    }
    assert pod in n'.pods && forall p :: p in n.pods ==> p in n'.pods;
  }

  /** Pods placed on a node overlap in host ports neither with each other nor with the pods that were there. */
  lemma NodePortsAreFree(n: Existing, p: Pod, i: nat)
    requires NodeInv(n) && PairwiseFree(n.node.reserved) && DistinctKeys(n.pods) && p in n.pods && i < |p.ports|
    ensures forall q, j :: q in n.pods && q != p && 0 <= j < |q.ports| ==> !p.ports[i].Matches(q.ports[j])
    ensures forall k, j ::
      k in n.node.reserved && (forall q :: q in n.pods ==> q.key != k) && 0 <= j < |n.node.reserved[k]| ==>
        !p.ports[i].Matches(n.node.reserved[k][j])
  {
    hide NodeHolds, NodeAccounted, TrueToLabels, WithinAllocatable, Exceeds, Covers, Subset, WellFormed, Keyed,
      HostPort.Matches;
    assert p.key in n.reserved && n.reserved[p.key] == p.ports;
    forall q, j | q in n.pods && q != p && 0 <= j < |q.ports| ensures !p.ports[i].Matches(q.ports[j]) {
      DifferentKeys(n.pods, p, q);
      assert q.key in n.reserved && n.reserved[q.key] == q.ports;
    }
  }

  lemma DifferentKeys(pods: seq<Pod>, p: Pod, q: Pod)
    requires DistinctKeys(pods) && p in pods && q in pods && p != q
    ensures p.key != q.key
  {
    var i, j :| 0 <= i < |pods| && pods[i] == p && 0 <= j < |pods| && pods[j] == q;
  }

  lemma AddKeepsNodeInv(n: Existing, topo: Topo, pod: Pod, out: Requirements, n': Existing, topo': Topo)
    requires NodeInv(n) && pod.spec.Valid() && NodeAddedWith(n, topo, pod, out, n', topo')
    ensures NodeInv(n')
  {
    hide NodeHolds, NodeAccounted, Conflicts, Tightened, Meet, PodRequirements, StrictPodRequirements, Fits, Union,
      Covers, Subset, WellFormed, Keyed, ToleratesAll, Compatible, RecordPod, Narrows, Exceeds, TrueToLabels, PortsHeld;
    AnswerIsKeyed(n.requirements, topo, pod, {}, out);
    AddKeepsNodeAccount(n, pod, out);
    AddStaysTrue(n, topo, pod, out);
    AddHoldsPorts(n, pod, out);
    FitsWithinAllocatable(n, n'.requests);
    AddKeepsVolumes(n, pod, out);
    forall p | p in n'.pods ensures NodeHolds(n', p) {
      AddKeepsNodeHolding(n, pod, out, p);
    }
  }

  /** Placing a pod keeps the node's invariant, and never frees what was taken. */
  lemma AddKeepsNode(n: Existing, topo: Topo, pod: Pod, n': Existing, topo': Topo)
    requires NodeInv(n) && pod.spec.Valid() && NodeAdded(n, topo, pod, n', topo')
    ensures NodeInv(n') && NodeKeeps(n, n') && n'.pods == n.pods + [pod]
  {
    hide NodeHolds, NodeAccounted, PairwiseFree, Conflicts, Tightened, Meet, PodRequirements, StrictPodRequirements,
      Fits, Union, Covers, Subset, WellFormed, Keyed, ToleratesAll, Compatible, RecordPod, Narrows, Exceeds,
      TrueToLabels, WithinAllocatable, PortsHeld;
    var out :| NodeAddedWith(n, topo, pod, out, n', topo');
    AddKeepsNodeInv(n, topo, pod, out, n', topo');
    AddNarrowsNode(n, pod, out);
    AddKeepsVolumes(n, pod, out);
    if PairwiseFree(n.reserved) {
      ReserveKeepsFree(n.reserved, pod.key, pod.ports);
    }
  }

  /**
   The labels of the node suit a pod placed on it exactly if the pod does without every
   label that the node does not have.
   */
  lemma LabelsSuitIff(n: Existing, p: Pod)
    requires NodeInv(n) && p in n.pods
    ensures p.spec.Valid()
    ensures Compatible(NodeRequirements(n.node), PodRequirements(p.spec), {}) <==>
            forall k :: k in PodRequirements(p.spec) && k !in NodeRequirements(n.node) ==> DoesWithout(p, k)
  {
    hide NodeRequirements, PodRequirements, Intersects, NodeAccounted, WithinAllocatable, Exceeds, Covers, NodeHolds,
      WellFormed, Keyed, Subset, Requirement.AllowsAbsence;
  }

  /**
   A pod that insists on a label which the node does not have got there only because an
   earlier pod put up a requirement on it while doing without, or because the topology left
   no value of it.
   */
  lemma MissingLabelMeans(n: Existing, p: Pod, k: string)
    requires NodeInv(n) && p in n.pods && p.spec.Valid() && k in PodRequirements(p.spec)
    requires k !in NodeRequirements(n.node) && !DoesWithout(p, k)
    ensures k in n.requirements
    ensures n.requirements[k].Op() == DoesNotExist || exists q :: q in n.pods && q != p && DoesWithout(q, k)
  {
    hide NodeRequirements, PodRequirements, Intersects, NodeAccounted, WithinAllocatable, Exceeds, Covers, NodeHolds,
      WellFormed, Keyed, Subset, DoesWithout;
    assert Explained(n, k);
  }

  ghost predicate NodeAddsSome(n: Existing, n': Existing) {
    exists topo, pod: Pod, topo' :: pod.spec.Valid() && NodeAdded(n, topo, pod, n', topo')
  }

  ghost predicate NodeRun(run: seq<Existing>) {
    forall i, j :: 0 <= i < j < |run| && j == i + 1 ==> run[j] == run[i] || NodeAddsSome(run[i], run[j])
  }

  /** Over any run of additions the node stays within its resources, limits and ports. */
  lemma {:induction false} NodeRunKeepsInv(run: seq<Existing>, n: nat)
    requires n < |run| && NodeRun(run) && NodeInv(run[0])
    ensures NodeInv(run[n]) && NodeKeeps(run[0], run[n])
  {
    hide NodeInv, NodeAdded, Narrows, PairwiseFree;
    if n == 0 {
      NarrowsItself(run[0].requirements);
    } else {
      NodeRunKeepsInv(run, n - 1);
      if run[n] != run[n - 1] {
        assert NodeAddsSome(run[n - 1], run[n]);
        var topo, pod: Pod, topo' :| pod.spec.Valid() && NodeAdded(run[n - 1], topo, pod, run[n], topo');
        AddKeepsNode(run[n - 1], topo, pod, run[n], topo');
        NarrowsFurther(run[n].requirements, run[n - 1].requirements, run[0].requirements);
      }
    }
  }

  lemma FromStateInv(node: NodeSnapshot, daemons: ResourceList)
    requires Covers(node.mounts.volumes, node.mounts.podVolumes)
    ensures NodeInv(FromState(node, daemons))
  {
    HostnameIsCanonical();
    LabelRequirementsWellFormed(node.labels);
    LabelsPlain(node.labels);
    AddIsWellFormed(LabelRequirements(node.labels), Exactly(HOSTNAME, node.hostname));
    assert ResourcesOf([]) == [] && AllRequests([]) == [];
  }

  // ----- The node as an object

  class ExistingNode {
    const node: NodeSnapshot
    const daemons: ResourceList
    var requirements: Requirements
    var requests: ResourceList
    var pods: seq<Pod>
    const hostPortUsage: HostPortUsage
    const volumeUsage: VolumeUsage
    const topology: Topology

    ghost function View(): Existing reads this, hostPortUsage, volumeUsage {
      Existing(node, daemons, requirements, requests, hostPortUsage.reserved,
               Mounts(volumeUsage.volumes, volumeUsage.podVolumes, volumeUsage.limits), pods)
    }

    constructor (node: NodeSnapshot, topology: Topology, expected: ResourceList)
      ensures this.topology == topology && fresh(hostPortUsage) && fresh(volumeUsage) &&
        View() == FromState(node, expected)
    {
      this.node, this.topology := node, topology;
      var remaining := DaemonsToCome(expected, node.boundDaemons);
      daemons, requests, pods := remaining, remaining, [];
      requirements := RequirementSets.Add(LabelRequirements(node.labels), Exactly(HOSTNAME, node.hostname));
      hostPortUsage := new HostPortUsage.Of(node.reserved);
      volumeUsage := new VolumeUsage.Of(node.mounts.volumes, node.mounts.podVolumes, node.mounts.limits);
    }

    /** Place the pod if every check passes; otherwise nothing changes. */
    method Add(pod: Pod) returns (ok: bool)
      requires topology.Valid() && pod.spec.Valid()
      modifies this, hostPortUsage, volumeUsage, topology.Repr()
      ensures topology.Valid() && topology.Repr() == old(topology.Repr())
      ensures ok ==> NodeAdded(old(View()), old(topology.View()), pod, View(), topology.View())
      ensures !ok ==>
        View() == old(View()) && topology.View() == old(topology.View()) && NodeRefused(View(), topology.View(), pod)
    {
      hide NodeAdmits, NodeRefused, NodeDemanded, RecordPod, NodeWithPod, Topology.Valid, Topology.View;
      ghost var before, topo := View(), topology.View();
      var reqs, total;
      ghost var out;
      ok, reqs, total, out := Check(pod);
      assert topology.View() == topo;
      if ok {
        assert pod.volumes.Some? by { AdmittedHasVolumes(before, pod, out); }
        Commit(pod, reqs, total);
        assert View() == NodeWithPod(before, pod, out) by { PlacedNode(before, pod, out); }
        assert NodeAddedWith(before, topo, pod, out, View(), topology.View());
      }
    }

    method Check(pod: Pod) returns (ok: bool, reqs: Requirements, total: ResourceList, ghost out: Requirements)
      requires topology.Valid() && pod.spec.Valid()
      ensures !ok ==> NodeRefused(View(), topology.View(), pod)
      ensures ok ==>
        && NodeDemanded(View(), topology.View(), pod, out) && NodeAdmits(View(), pod, out)
        && reqs == Meet(Meet(requirements, PodRequirements(pod.spec)), out) && total == Plus(requests, pod.Requests())
    {
      hide Conflicts, Compatible, Tightened, Unsatisfiable, PodRequirements, StrictPodRequirements, Meet, ToleratesAll,
        Topology.View, Topology.Valid, Union, Exceeds, Fits;
      ghost var n, topo := View(), topology.View();
      assert allocated(topology.Repr());
      ok, reqs, total, out := false, map[], map[], map[];
      if !ToleratesAll(node.taints, pod.spec.tolerations) {
        return;
      }
      if pod.volumes.None? {
        return;
      }
      var exceeds := volumeUsage.ExceedsLimits(pod.volumes.value);
      if exceeds {
        return;
      }
      var conflict := hostPortUsage.FindConflict(pod.key, pod.ports);
      if conflict {
        return;
      }
      total := Merge([requests, pod.Requests()]);
      MergeTwo(requests, pod.Requests());
      if !Fits(total, Subtract(node.allocatable, node.bound)) {
        return;
      }
      var podReqs := PodRequirements(pod.spec);
      if !Compatible(requirements, podReqs, {}) {
        return;
      }
      var nodeReqs := Meet(requirements, podReqs);
      var strict := if pod.spec.preferred != [] then StrictPodRequirements(pod.spec) else podReqs;
      assert strict == StrictPodRequirements(pod.spec) by { WithoutPreference(pod.spec); }
      var topologyReqs, satisfiable := topology.AddRequirements(strict, nodeReqs, pod, {});
      if !satisfiable {
        return;
      }
      out := topologyReqs;
      assert NodeDemanded(n, topo, pod, out);
      reqs := Meet(nodeReqs, topologyReqs);
      ok := Compatible(nodeReqs, topologyReqs, {});
      assert n == View() && topo == topology.View();
    }

    method Commit(pod: Pod, reqs: Requirements, total: ResourceList)
      requires topology.Valid() && pod.volumes.Some?
      modifies this, hostPortUsage, volumeUsage, topology.Repr()
      ensures topology.Valid() && topology.Repr() == old(topology.Repr())
      ensures requirements == reqs && requests == total && pods == old(pods) + [pod]
      ensures hostPortUsage.reserved == old(hostPortUsage.reserved)[pod.key := pod.ports]
      ensures volumeUsage.volumes == Union(old(volumeUsage.volumes), pod.volumes.value)
      ensures volumeUsage.podVolumes == old(volumeUsage.podVolumes)[pod.key := pod.volumes.value]
      ensures volumeUsage.limits == old(volumeUsage.limits)
      ensures topology.View() == RecordPod(old(topology.View()), pod, reqs, {})
    {
      hide RecordPod, Topology.View, Topology.Valid, Union;
      ghost var topo, repr := topology.View(), topology.Repr();
      assert this !in repr && hostPortUsage !in repr && volumeUsage !in repr && allocated(repr);
      hide Topology.Repr;
      pods := pods + [pod];
      requests := total;
      requirements := reqs;
      assert topology.View() == topo && topology.Valid() && topology.Repr() == repr;
      topology.Record(pod, reqs, {});
      Occupy(pod);
    }

    /** Ports and volumes the pod takes. */
    method Occupy(pod: Pod)
      requires pod.volumes.Some?
      modifies hostPortUsage, volumeUsage
      ensures hostPortUsage.reserved == old(hostPortUsage.reserved)[pod.key := pod.ports]
      ensures volumeUsage.volumes == Union(old(volumeUsage.volumes), pod.volumes.value)
      ensures volumeUsage.podVolumes == old(volumeUsage.podVolumes)[pod.key := pod.volumes.value]
      ensures volumeUsage.limits == old(volumeUsage.limits)
    {
      hostPortUsage.Add(pod.key, pod.ports);
      volumeUsage.Add(pod.key, pod.volumes.value);
    }
  }

  lemma AdmittedHasVolumes(n: Existing, pod: Pod, out: Requirements)
    requires pod.spec.Valid() && NodeAdmits(n, pod, out)
    ensures pod.volumes.Some?
  {}

  lemma PlacedNode(n: Existing, pod: Pod, out: Requirements)
    requires pod.spec.Valid() && pod.volumes.Some?
    ensures NodeWithPod(n, pod, out) ==
      n.(requirements := Meet(Meet(n.requirements, PodRequirements(pod.spec)), out),
         requests := Plus(n.requests, pod.Requests()),
         reserved := n.reserved[pod.key := pod.ports],
         mounts := Mounts(Union(n.mounts.volumes, pod.volumes.value),
           n.mounts.podVolumes[pod.key := pod.volumes.value], n.mounts.limits),
         pods := n.pods + [pod])
  {}

  /** The host name of the node becomes a known domain. */
  method NewExistingNode(node: NodeSnapshot, topology: Topology, expected: ResourceList) returns (n: ExistingNode)
    requires topology.Valid()
    modifies topology.Repr()
    ensures fresh(n) && n.topology == topology && fresh(n.hostPortUsage) && fresh(n.volumeUsage)
    ensures n.View() == FromState(node, expected)
    ensures topology.Valid() && topology.Repr() == old(topology.Repr())
    ensures topology.View() == Registered(old(topology.View()), HOSTNAME, node.hostname)
  {
    hide Topology.View, Topology.Valid, Registered, FromState;
    topology.Register(HOSTNAME, node.hostname);
    n := new ExistingNode(node, topology, expected);
  }

  /** Subtract what is bound, then lift negative amounts to zero, one resource at a time. */
  method DaemonsToCome(expected: ResourceList, bound: ResourceList) returns (remaining: ResourceList)
    ensures remaining == RemainingDaemons(expected, bound)
  {
    remaining := Subtract(expected, bound);
    var todo := remaining.Keys;
    while todo != {}
      invariant todo <= remaining.Keys == expected.Keys
      invariant forall r :: r in remaining ==>
                  remaining[r] == if r in todo
                    then Subtract(expected, bound)[r] else Max(Subtract(expected, bound)[r], 0)
      decreases todo
    {
      var r :| r in todo;
      todo := todo - {r};
      if remaining[r] < 0 {
        remaining := remaining[r := 0];
      }
    }
  }
}
