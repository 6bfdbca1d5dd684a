/**
 Required anti-affinity over a whole scheduling run.  Whatever the order in which pods
 are placed, a pod with a required anti-affinity term and a pod the term selects never
 end up on nodes that still allow a common value of the term's topology key.
 */
module AntiAffinitySafety {
  import opened Common
  import opened Labels
  import opened RequirementAlgebra
  import opened RequirementSets
  import opened Pods
  import opened TopologyGroups
  import opened Topologies

  /** A node or node claim as anti-affinity sees it: the labels it may still get, and the pods placed on it. */
  datatype Host = Host(reqs: Requirements, pods: seq<Pod>)

  /** The pod after relaxation is the batch pod as far as required anti-affinity is concerned. */
  predicate SamePod(b: Pod, p: Pod) {
    b.uid == p.uid && b.key == p.key && b.labels == p.labels && b.spec.podAntiAffinity == p.spec.podAntiAffinity
  }

  /** The pod is one of those the topology was built from. */
  predicate InBatch(batch: seq<Pod>, pod: Pod) { exists b :: b in batch && SamePod(b, pod) }

  /** A pod that shares its identity with one of the batch is that pod. */
  predicate Identified(batch: seq<Pod>, pod: Pod) { forall b :: b in batch && b.uid == pod.uid ==> SamePod(b, pod) }

  predicate DistinctPods(batch: seq<Pod>) { forall i, j :: 0 <= i < j < |batch| ==> batch[i].uid != batch[j].uid }

  predicate Carries(p: Pod, t: PodTerm) { t in p.spec.podAntiAffinity }

  // ----- The property

  /** No label value of the key is left to both hosts. */
  ghost predicate Apart(a: Host, b: Host, key: string) {
    forall v :: !(Allows(a.reqs, key, v) && Allows(b.reqs, key, v))
  }

  /** Two pods of the batch of which one repels the other are kept apart. */
  ghost predicate Safe(hosts: seq<Host>, batch: seq<Pod>) {
    forall a, b, p, q, t ::
      a in hosts && b in hosts && p in a.pods && q in b.pods && p.uid != q.uid && InBatch(batch, p) &&
        InBatch(batch, q) &&
      Carries(p, t) && AntiId(t).Selects(q) ==>
        Apart(a, b, t.topologyKey)
  }

  // ----- The invariant

  /** A group on a deprecated alias of a key has no empty domain, since domains are only known under canonical keys. */
  predicate NoAlias(g: Group) { Canonical(g.id.key) || g.emptyDomains == {} }

  predicate AllConsistent(gs: Groups) {
    WellKeyed(gs) && forall id :: id in gs ==> gs[id].Consistent() && NoAlias(gs[id])
  }

  predicate OwnedIn(gs: Groups, id: GroupId, uid: UID) { id in gs && uid in gs[id].owners }

  /** Every batch pod owns the group and the inverse group of each of its required terms. */
  predicate Owns(topo: Topo, b: Pod) {
    forall t :: t in b.spec.podAntiAffinity ==>
      OwnedIn(topo.topologies, AntiId(t), b.uid) && OwnedIn(topo.inverse, AntiId(t), b.uid)
  }

  /** The host is confined to finitely many values of the group's key, all of them occupied in the group. */
  ghost predicate Occupies(reqs: Requirements, g: Group) {
    Finite(reqs, g.id.key) && forall v :: Allows(reqs, g.id.key, v) ==> g.Count(v) > 0
  }

  /** Where the pod is, the pods its own terms repel cannot go. */
  ghost predicate Repels(h: Host, p: Pod, topo: Topo) {
    forall t :: Carries(p, t) ==> AntiId(t) in topo.inverse && Occupies(h.reqs, topo.inverse[AntiId(t)])
  }

  /** Where the pod is, the batch pods whose terms select it cannot go. */
  ghost predicate Avoided(h: Host, p: Pod, topo: Topo, batch: seq<Pod>) {
    forall b, t :: b in batch && Carries(b, t) && AntiId(t).Selects(p) ==>
      AntiId(t) in topo.topologies && Occupies(h.reqs, topo.topologies[AntiId(t)])
  }

  ghost predicate TopoInv(topo: Topo, batch: seq<Pod>) {
    && AllConsistent(topo.topologies) && AllConsistent(topo.inverse)
    && forall b :: b in batch ==> Owns(topo, b)
  }

  ghost predicate HostInv(h: Host, topo: Topo, batch: seq<Pod>) {
    && WellFormed(h.reqs)
    && forall p :: p in h.pods && InBatch(batch, p) ==> Repels(h, p, topo) && Avoided(h, p, topo, batch)
  }

  ghost predicate Inv(hosts: seq<Host>, topo: Topo, batch: seq<Pod>) {
    && TopoInv(topo, batch)
    && (forall h :: h in hosts ==> HostInv(h, topo, batch))
    && Safe(hosts, batch)
  }

  // ----- A placement

  /** The topology's demands are met: the new requirements only narrow the host and stay clear of occupied domains. */
  ghost predicate Clears(topo: Topo, pod: Pod, before: Requirements, after: Requirements) {
    && WellFormed(after) && Narrows(after, before)
    && (forall k :: Finite(before, k) ==> Finite(after, k))
    && (forall id :: OwnedIn(topo.topologies, id, pod.uid) && id.kind.PodAntiAffinity? ==>
      ClearOf(after, topo.topologies[id]))
    && (forall id :: id in topo.inverse && id.nodeFilter == {} && id.kind.PodAntiAffinity? && id.Selects(pod) ==>
      ClearOf(after, topo.inverse[id]))
  }

  ghost predicate ClearOf(reqs: Requirements, g: Group) {
    Finite(reqs, g.id.key) && forall v :: Allows(reqs, g.id.key, v) ==> g.Count(v) == 0
  }

  lemma {:induction false} AddAllFinite(m: Requirements, rs: seq<Requirement>, i: nat)
    requires WellFormed(m) && AllNormal(rs) && i < |rs| && !rs[i].complement
    ensures Finite(AddAll(m, rs), rs[i].key)
    decreases |rs|
  {
    AddIsWellFormed(m, rs[0]);
    if i == 0 {
      AddAllKeepsFinite(Add(m, rs[0]), rs[1..], rs[0].key);
    } else {
      AddAllFinite(Add(m, rs[0]), rs[1..], i - 1);
    }
  }

  lemma {:induction false} AddAllKeepsFinite(m: Requirements, rs: seq<Requirement>, key: string)
    requires WellFormed(m) && AllNormal(rs) && Finite(m, key)
    ensures Finite(AddAll(m, rs), key)
    decreases |rs|
  {
    if rs != [] {
      AddIsWellFormed(m, rs[0]);
      AddAllKeepsFinite(Add(m, rs[0]), rs[1..], key);
    }
  }

  lemma DemandsAreNormal(
    t: Topo, pod: Pod, podReqs: Requirements, nodeReqs: Requirements, allow: set<string>, out: Requirements,
    refs: seq<Ref>, rs: seq<Requirement>)
    requires TightenedBy(t, pod, podReqs, nodeReqs, allow, out, refs, rs)
    ensures AllNormal(rs)
  {
    forall i | 0 <= i < |rs| ensures rs[i].Normal() {
      var id := refs[i].id;
      ChoiceIsFinite(At(t, refs[i]), pod, Get(podReqs, id.key), Get(nodeReqs, id.key), rs[i]);
    }
  }

  /** A matching anti-affinity group confines the result to its unoccupied domains. */
  lemma TightenedIsClear(
    t: Topo, pod: Pod, podReqs: Requirements, nodeReqs: Requirements, allow: set<string>, out: Requirements, ref: Ref)
    requires AllConsistent(t.topologies) && AllConsistent(t.inverse)
    requires WellFormed(podReqs) && WellFormed(nodeReqs) && Tightened(t, pod, podReqs, nodeReqs, allow, out)
    requires Matching(t, pod, nodeReqs, allow, ref) && ref.id.kind.PodAntiAffinity?
    ensures ClearOf(out, At(t, ref))
  {
    hide Requirement.Has, FilterMatches;
    var refs: seq<Ref>, rs: seq<Requirement> :| TightenedBy(t, pod, podReqs, nodeReqs, allow, out, refs, rs);
    DemandsAreNormal(t, pod, podReqs, nodeReqs, allow, out, refs, rs);
    var i :| 0 <= i < |refs| && refs[i] == ref;
    var g := At(t, ref);
    assert rs[i] == Unoccupied(g, Get(podReqs, ref.id.key)) && rs[i].Len() != 0;
    assert Canonical(ref.id.key) by { UnoccupiedIsCanonical(g, Get(podReqs, ref.id.key)); }
    assert rs[i].key == ref.id.key == g.id.key;
    AddAllFinite(nodeReqs, rs, i);
    forall v | Allows(out, g.id.key, v) ensures g.Count(v) == 0 {
      AddAllAllows(nodeReqs, rs, g.id.key, v);
      UnoccupiedIsEmpty(g, Get(podReqs, ref.id.key), v);
    }
  }

  lemma UnoccupiedIsCanonical(g: Group, podDomains: Requirement)
    requires NoAlias(g) && Unoccupied(g, podDomains).Len() != 0
    ensures Canonical(g.id.key)
  {}

  lemma UnoccupiedIsEmpty(g: Group, podDomains: Requirement, v: string)
    requires Unoccupied(g, podDomains).Has(v)
    ensures g.Count(v) == 0
  {}

  /** The requirements a host ends up with when a pod is placed satisfy the topology's demands. */
  lemma PlacementClears(
    topo: Topo, pod: Pod, before: Requirements, podReqs: Requirements, strict: Requirements, allow: set<string>,
      out: Requirements)
    requires AllConsistent(topo.topologies) && AllConsistent(topo.inverse)
    requires WellFormed(before) && WellFormed(podReqs) && WellFormed(strict)
    requires Tightened(topo, pod, strict, Meet(before, podReqs), allow, out)
    ensures Clears(topo, pod, before, Meet(Meet(before, podReqs), out))
  {
    hide Requirement.Has, Requirement.Intersection, Tightened, FilterMatches, Meet, Group.Count, Group.Consistent;
    var nodeReqs := Meet(before, podReqs);
    MeetIsWellFormed(before, podReqs);
    var after := Meet(nodeReqs, out);
    assert WellFormed(out) by { TightenedKeepsForm(topo, pod, strict, nodeReqs, allow, out); }
    MeetIsWellFormed(nodeReqs, out);
    MeetNarrows(before, podReqs);
    MeetNarrows(nodeReqs, out);
    forall k | Finite(before, k) ensures Finite(after, k) {
      MeetFinite(before, podReqs, k);
      MeetFinite(nodeReqs, out, k);
    }
    forall id | OwnedIn(topo.topologies, id, pod.uid) && id.kind.PodAntiAffinity?
      ensures ClearOf(after, topo.topologies[id])
    {
      MatchingIsClear(topo, pod, strict, nodeReqs, allow, out, Direct(id));
    }
    forall id | id in topo.inverse && id.nodeFilter == {} && id.kind.PodAntiAffinity? && id.Selects(pod)
      ensures ClearOf(after, topo.inverse[id])
    {
      EmptyFilterMatches(nodeReqs, allow);
      MatchingIsClear(topo, pod, strict, nodeReqs, allow, out, Inverse(id));
    }
  }

  lemma TightenedKeepsForm(
    topo: Topo, pod: Pod, strict: Requirements, nodeReqs: Requirements, allow: set<string>, out: Requirements)
    requires WellFormed(nodeReqs) && Tightened(topo, pod, strict, nodeReqs, allow, out)
    ensures WellFormed(out)
  {
    hide Demand;
    var refs: seq<Ref>, rs: seq<Requirement> :| TightenedBy(topo, pod, strict, nodeReqs, allow, out, refs, rs);
    DemandsAreNormal(topo, pod, strict, nodeReqs, allow, out, refs, rs);
    AddAllIsWellFormed(nodeReqs, rs);
  }

  lemma MatchingIsClear(
    topo: Topo, pod: Pod, strict: Requirements, nodeReqs: Requirements, allow: set<string>, out: Requirements, ref: Ref)
    requires AllConsistent(topo.topologies) && AllConsistent(topo.inverse)
    requires WellFormed(strict) && WellFormed(nodeReqs) && WellFormed(out) &&
      Tightened(topo, pod, strict, nodeReqs, allow, out)
    requires Matching(topo, pod, nodeReqs, allow, ref) && ref.id.kind.PodAntiAffinity?
    ensures ClearOf(Meet(nodeReqs, out), At(topo, ref))
  {
    hide Tightened, Group.Count, Group.Consistent, Narrows, Requirement.Has, GroupId.Counts;
    TightenedIsClear(topo, pod, strict, nodeReqs, allow, out, ref);
    MeetFinite(nodeReqs, out, ref.id.key);
    MeetNarrows(nodeReqs, out);
    ClearOfNarrower(out, Meet(nodeReqs, out), At(topo, ref));
  }

  lemma EmptyFilterMatches(reqs: Requirements, allow: set<string>)
    ensures FilterMatches({}, reqs, allow)
  {}

  lemma ClearOfNarrower(out: Requirements, after: Requirements, g: Group)
    requires ClearOf(out, g) && Narrows(after, out) && Finite(after, g.id.key)
    ensures ClearOf(after, g)
  {}

  // ----- The invariant over one placement

  /** The groups keep their identity and counts never fall. */
  ghost predicate Grows(gs: Groups, gs': Groups) {
    forall id :: id in gs ==> id in gs' && gs'[id].id == gs[id].id && forall v :: gs'[id].Count(v) >= gs[id].Count(v)
  }

  lemma RecordGrows(topo: Topo, pod: Pod, reqs: Requirements, allow: set<string>)
    requires AllConsistent(topo.topologies) && AllConsistent(topo.inverse)
    ensures var after := RecordPod(topo, pod, reqs, allow);
      && AllConsistent(after.topologies) && AllConsistent(after.inverse)
      && Grows(topo.topologies, after.topologies) && Grows(topo.inverse, after.inverse)
  {
    hide RecordDirect, RecordInverse, Group.Consistent, Group.Count, NoAlias;
    forall id | id in topo.topologies
      ensures GrowsTo(topo.topologies[id], RecordDirect(topo.topologies[id], pod, reqs, allow)) {
      RecordDirectGrows(topo.topologies[id], pod, reqs, allow);
    }
    forall id | id in topo.inverse ensures GrowsTo(topo.inverse[id], RecordInverse(topo.inverse[id], pod, reqs)) {
      RecordInverseGrows(topo.inverse[id], pod, reqs);
    }
  }

  ghost predicate GrowsTo(g: Group, g': Group) {
    g'.Consistent() && (NoAlias(g) ==> NoAlias(g')) && g'.id == g.id && forall v :: g'.Count(v) >= g.Count(v)
  }

  lemma RecordDirectGrows(g: Group, pod: Pod, reqs: Requirements, allow: set<string>)
    requires g.Consistent()
    ensures GrowsTo(g, RecordDirect(g, pod, reqs, allow))
  {
    hide GroupId.Counts, Requirement.Len;
    RecordIsConsistent(g, Get(reqs, g.id.key).values);
  }

  lemma RecordInverseGrows(g: Group, pod: Pod, reqs: Requirements)
    requires g.Consistent()
    ensures GrowsTo(g, RecordInverse(g, pod, reqs))
  {
    RecordIsConsistent(g, Get(reqs, g.id.key).values);
  }

  lemma RecordKeepsOwners(topo: Topo, pod: Pod, reqs: Requirements, allow: set<string>, b: Pod)
    requires Owns(topo, b)
    ensures Owns(RecordPod(topo, pod, reqs, allow), b)
  {
    hide GroupId.Counts, Requirement.Has;
  }

  lemma OccupiesKept(reqs: Requirements, after: Requirements, g: Group, g': Group)
    requires Occupies(reqs, g) && Narrows(after, reqs) && Finite(after, g.id.key)
    requires g'.id == g.id && forall v :: g'.Count(v) >= g.Count(v)
    ensures Occupies(after, g')
  {}

  /** A host whose requirements narrow keeps its part of the invariant while counts grow. */
  lemma HostKept(h: Host, after: Requirements, topo: Topo, topo': Topo, batch: seq<Pod>)
    requires TopoInv(topo, batch) && HostInv(h, topo, batch)
    requires WellFormed(after) && Narrows(after, h.reqs) && (forall k :: Finite(h.reqs, k) ==> Finite(after, k))
    requires Grows(topo.topologies, topo'.topologies) && Grows(topo.inverse, topo'.inverse)
    ensures HostInv(Host(after, h.pods), topo', batch)
  {
    hide Occupies, GroupId.Selects;
    forall p | p in h.pods && InBatch(batch, p)
      ensures Repels(Host(after, h.pods), p, topo') && Avoided(Host(after, h.pods), p, topo', batch)
    {
      forall t | Carries(p, t) ensures AntiId(t) in topo'.inverse && Occupies(after, topo'.inverse[AntiId(t)]) {
        OccupiesFinite(h.reqs, topo.inverse[AntiId(t)]);
        OccupiesKept(h.reqs, after, topo.inverse[AntiId(t)], topo'.inverse[AntiId(t)]);
      }
      forall b, t | b in batch && Carries(b, t) && AntiId(t).Selects(p)
        ensures AntiId(t) in topo'.topologies && Occupies(after, topo'.topologies[AntiId(t)])
      {
        OccupiesFinite(h.reqs, topo.topologies[AntiId(t)]);
        OccupiesKept(h.reqs, after, topo.topologies[AntiId(t)], topo'.topologies[AntiId(t)]);
      }
    }
  }

  lemma OccupiesFinite(reqs: Requirements, g: Group)
    requires Occupies(reqs, g)
    ensures Finite(reqs, g.id.key)
  {}

  /** Recording all values a finite requirement allows occupies them. */
  lemma RecordOccupies(reqs: Requirements, g: Group)
    requires Finite(reqs, g.id.key)
    ensures Occupies(reqs, g.Record(Get(reqs, g.id.key).values))
  {}

  lemma PlacedRepels(h: Host, pod: Pod, b: Pod, topo: Topo, after: Requirements, allow: set<string>)
    requires AllConsistent(topo.topologies) && AllConsistent(topo.inverse)
    requires Owns(topo, b) && SamePod(b, pod) && Clears(topo, pod, h.reqs, after)
    ensures Repels(Host(after, h.pods + [pod]), pod, RecordPod(topo, pod, after, allow))
  {
    hide Occupies, GroupId.Counts, Group.Record, Narrows;
    forall t | Carries(pod, t)
      ensures AntiId(t) in topo.inverse && Occupies(after, RecordInverse(topo.inverse[AntiId(t)], pod, after))
    {
      assert OwnedIn(topo.topologies, AntiId(t), pod.uid) && ClearOf(after, topo.topologies[AntiId(t)]);
      RecordOccupies(after, topo.inverse[AntiId(t)]);
    }
  }

  lemma PlacedIsAvoided(h: Host, pod: Pod, topo: Topo, after: Requirements, allow: set<string>, batch: seq<Pod>)
    requires TopoInv(topo, batch) && Clears(topo, pod, h.reqs, after)
    ensures Avoided(Host(after, h.pods + [pod]), pod, RecordPod(topo, pod, after, allow), batch)
  {
    hide Occupies, Group.Record, Narrows, GroupId.Selects;
    forall b, t | b in batch && Carries(b, t) && AntiId(t).Selects(pod)
      ensures AntiId(t) in topo.topologies &&
        Occupies(after, RecordDirect(topo.topologies[AntiId(t)], pod, after, allow))
    {
      assert OwnedIn(topo.inverse, AntiId(t), b.uid) && ClearOf(after, topo.inverse[AntiId(t)]);
      EmptyFilterMatches(after, allow);
      RecordOccupies(after, topo.topologies[AntiId(t)]);
    }
  }

  lemma OccupiedApart(a: Host, b: Host, occupied: Requirements, g: Group)
    requires Occupies(occupied, g) && Narrows(a.reqs, occupied) && ClearOf(b.reqs, g)
    ensures Apart(a, b, g.id.key) && Apart(b, a, g.id.key)
  {}

  /** The pod already placed repels the new one. */
  lemma OldRepelsNew(a: Host, was: Host, n: Host, p: Pod, q: Pod, t: PodTerm, topo: Topo, before: Requirements)
    requires AllConsistent(topo.inverse) && Repels(was, p, topo) && Narrows(a.reqs, was.reqs) &&
      Clears(topo, q, before, n.reqs)
    requires Carries(p, t) && AntiId(t).Selects(q)
    ensures Apart(a, n, t.topologyKey)
  {
    OccupiedApart(a, n, was.reqs, topo.inverse[AntiId(t)]);
  }

  /** The new pod repels the one already placed. */
  lemma NewRepelsOld(
    n: Host, b: Host, was: Host, p: Pod, q: Pod, t: PodTerm, topo: Topo, before: Requirements, batch: seq<Pod>, bp: Pod)
    requires AllConsistent(topo.topologies) && Avoided(was, q, topo, batch) && Narrows(b.reqs, was.reqs) &&
      Clears(topo, p, before, n.reqs)
    requires bp in batch && SamePod(bp, p) && Owns(topo, bp)
    requires Carries(p, t) && AntiId(t).Selects(q)
    ensures Apart(n, b, t.topologyKey)
  {
    assert Carries(bp, t) && OwnedIn(topo.topologies, AntiId(t), p.uid);
    OccupiedApart(b, n, was.reqs, topo.topologies[AntiId(t)]);
  }

  /** `after` is `before` with host `h` replaced by, or the fresh host `h` added as, `h'`; the order is free. */
  ghost predicate Placed(before: seq<Host>, after: seq<Host>, h: Host, h': Host) {
    && (h in before || (h.pods == [] && WellFormed(h.reqs)))
    && (forall x :: x in after ==> x in before || x == h')
    && h' in after && (forall x :: x in before ==> x in after || x == h)
  }

  lemma PlacementIsSafe(
    before: seq<Host>, after: seq<Host>, h: Host, reqs: Requirements, pod: Pod, topo: Topo, batch: seq<Pod>)
    requires Inv(before, topo, batch) && Clears(topo, pod, h.reqs, reqs)
    requires Placed(before, after, h, Host(reqs, h.pods + [pod]))
    ensures Safe(after, batch)
  {
    hide Repels, Avoided, Apart, Clears, GroupId.Selects, Owns, Narrows, SamePod;
    var h' := Host(reqs, h.pods + [pod]);
    assert Narrows(h'.reqs, h.reqs) by { ClearsNarrows(topo, pod, h.reqs, reqs); }
    forall a, b, p, q, t |
      a in after && b in after && p in a.pods && q in b.pods && p.uid != q.uid && InBatch(batch, p) &&
        InBatch(batch, q) &&
      Carries(p, t) && AntiId(t).Selects(q)
      ensures Apart(a, b, t.topologyKey)
    {
      var wasA, wasB := if a == h' && a !in before then h else a, if b == h' && b !in before then h else b;
      assert Narrows(a.reqs, wasA.reqs) && Narrows(b.reqs, wasB.reqs) by {
        NarrowsItself(a.reqs); NarrowsItself(b.reqs);
      }
      if p in wasA.pods && q in wasB.pods {
        assert wasA in before && wasB in before;
        ApartKept(wasA, wasB, a, b, t.topologyKey);
      } else if p in wasA.pods {
        assert wasA in before;
        OldRepelsNew(a, wasA, h', p, pod, t, topo, h.reqs);
      } else if q in wasB.pods {
        assert wasB in before;
        var bp :| bp in batch && SamePod(bp, pod);
        NewRepelsOld(h', b, wasB, pod, q, t, topo, h.reqs, batch, bp);
      }
    }
  }

  lemma ClearsNarrows(topo: Topo, pod: Pod, before: Requirements, after: Requirements)
    requires Clears(topo, pod, before, after)
    ensures Narrows(after, before)
  {}

  lemma NarrowsItself(reqs: Requirements)
    ensures Narrows(reqs, reqs)
  {}

  lemma ApartKept(a: Host, b: Host, a': Host, b': Host, key: string)
    requires Apart(a, b, key) && Narrows(a'.reqs, a.reqs) && Narrows(b'.reqs, b.reqs)
    ensures Apart(a', b', key)
  {}

  /** Placing a pod keeps the invariant. */
  lemma PlacementKeepsInv(
    before: seq<Host>, after: seq<Host>, h: Host, reqs: Requirements, pod: Pod, topo: Topo, allow: set<string>,
      batch: seq<Pod>)
    requires Inv(before, topo, batch) && Clears(topo, pod, h.reqs, reqs)
    requires Placed(before, after, h, Host(reqs, h.pods + [pod]))
    ensures Inv(after, RecordPod(topo, pod, reqs, allow), batch)
  {
    hide Repels, Avoided, Clears, Owns, Safe, Narrows, RecordPod, AllConsistent;
    var topo' := RecordPod(topo, pod, reqs, allow);
    RecordGrows(topo, pod, reqs, allow);
    forall b | b in batch ensures Owns(topo', b) {
      RecordKeepsOwners(topo, pod, reqs, allow, b);
    }
    PlacementIsSafe(before, after, h, reqs, pod, topo, batch);
    forall x | x in after ensures HostInv(x, topo', batch) {
      if x in before {
        NarrowsItself(x.reqs);
        HostKept(x, x.reqs, topo, topo', batch);
      } else {
        ClearsKeeps(topo, pod, h.reqs, reqs);
        HostKept(h, reqs, topo, topo', batch);
        if bp :| bp in batch && SamePod(bp, pod) {
          PlacedRepels(h, pod, bp, topo, reqs, allow);
        }
        PlacedIsAvoided(h, pod, topo, reqs, allow, batch);
        MorePods(Host(reqs, h.pods), pod, topo', batch);
      }
    }
  }

  lemma ClearsKeeps(topo: Topo, pod: Pod, before: Requirements, after: Requirements)
    requires Clears(topo, pod, before, after)
    ensures WellFormed(after) && Narrows(after, before) && forall k :: Finite(before, k) ==> Finite(after, k)
  {}

  /** The invariant of a host depends on its pods one by one. */
  lemma MorePods(h: Host, pod: Pod, topo: Topo, batch: seq<Pod>)
    requires HostInv(h, topo, batch)
    requires var h' := Host(h.reqs, h.pods + [pod]);
      InBatch(batch, pod) ==> Repels(h', pod, topo) && Avoided(h', pod, topo, batch)
    ensures HostInv(Host(h.reqs, h.pods + [pod]), topo, batch)
  {
    hide Occupies, GroupId.Selects;
    var h' := Host(h.reqs, h.pods + [pod]);
    forall p | p in h'.pods && InBatch(batch, p) ensures Repels(h', p, topo) && Avoided(h', p, topo, batch) {
      if p in h.pods {
        assert Repels(h, p, topo) && Avoided(h, p, topo, batch);
      }
    }
  }

  // ----- The other steps of a run

  /** Same counts, and owners other than `uid` stay. */
  ghost predicate KeepsGroups(gs: Groups, gs': Groups, uid: UID) {
    forall id :: id in gs ==>
      id in gs' && gs'[id].domains == gs[id].domains &&
        forall u :: u != uid && u in gs[id].owners ==> u in gs'[id].owners
  }

  lemma {:induction false} OwnInverseKeeps(
    gs: Groups, terms: seq<PodTerm>, uid: UID, universe: Universe, labels: map<string, string>)
    requires AllConsistent(gs)
    ensures AllConsistent(OwnInverse(gs, terms, uid, universe, labels))
    ensures labels == map[] ==> KeepsGroups(gs, OwnInverse(gs, terms, uid, universe, labels), uid)
    ensures forall t :: t in terms ==> OwnedIn(OwnInverse(gs, terms, uid, universe, labels), AntiId(t), uid)
  {
    hide OwnInverseOne, AllConsistent, KeepsGroups, OwnedIn;
    if terms == [] {
      assert KeepsGroups(gs, gs, uid) by { KeepsItself(gs, uid); }
    } else {
      var n := |terms| - 1;
      var before := OwnInverse(gs, terms[..n], uid, universe, labels);
      OwnInverseKeeps(gs, terms[..n], uid, universe, labels);
      OwnInverseOneKeeps(before, AntiId(terms[n]), uid, universe, labels);
      if labels == map[] {
        KeepsBoth(gs, before, OwnInverse(gs, terms, uid, universe, labels), uid);
      }
      assert forall t :: t in terms ==> t in terms[..n] || t == terms[n];
    }
  }

  lemma OwnInverseOneKeeps(gs: Groups, id: GroupId, uid: UID, universe: Universe, labels: map<string, string>)
    requires AllConsistent(gs)
    ensures var after := OwnInverseOne(gs, id, uid, universe, labels);
      && AllConsistent(after) && OwnedIn(after, id, uid)
      && (labels == map[] ==> KeepsGroups(gs, after, uid))
      && forall j :: OwnedIn(gs, j, uid) ==> OwnedIn(after, j, uid)
  {
    hide Group.Record, NewGroup, CanonicalUniverse, Group.Consistent, NoAlias;
    var g := if id in gs then gs[id] else NewGroup(id, None, DomainsOf(universe, id.key));
    NewIsConsistent(id, None, universe);
    if id.key in labels {
      RecordIsConsistent(g, {labels[id.key]});
      CountsOnly(g, {labels[id.key]});
      NoAliasKept(g, g.Record({labels[id.key]}));
    }
    ConsistentIgnoresOwners(g, uid);
    ConsistentIgnoresOwners(g.Record({if id.key in labels then labels[id.key] else ""}), uid);
  }

  lemma NoAliasKept(g: Group, g': Group)
    requires NoAlias(g) && g'.id == g.id && g'.emptyDomains <= g.emptyDomains
    ensures NoAlias(g')
  {}

  lemma ConsistentIgnoresOwners(g: Group, uid: UID)
    ensures var g' := g.(owners := g.owners + {uid}); g'.Consistent() == g.Consistent() && NoAlias(g') == NoAlias(g)
  {}

  lemma CountsOnly(g: Group, ds: set<string>)
    ensures g.Record(ds).owners == g.owners && g.Record(ds).id == g.id && g.Record(ds).emptyDomains <= g.emptyDomains
  {}

  lemma NewIsConsistent(id: GroupId, minDomains: Option<int>, universe: Universe)
    ensures var g := NewGroup(id, minDomains, DomainsOf(universe, id.key)); g.Consistent() && NoAlias(g) && g.id == id
  {}

  lemma KeepsItself(gs: Groups, uid: UID)
    ensures KeepsGroups(gs, gs, uid)
  {}

  lemma KeepsBoth(gs: Groups, gs': Groups, gs'': Groups, uid: UID)
    requires KeepsGroups(gs, gs', uid) && KeepsGroups(gs', gs'', uid)
    ensures KeepsGroups(gs, gs'', uid)
  {}

  lemma {:induction false} RecordEachKeeps(g: Group, ds: seq<string>)
    requires g.Consistent() && NoAlias(g)
    ensures RecordEach(g, ds).Consistent() && NoAlias(RecordEach(g, ds)) && RecordEach(g, ds).id == g.id
  {
    if ds != [] {
      RecordEachKeeps(g, ds[..|ds| - 1]);
    }
  }

  lemma OwnOneKeeps(gs: Groups, a: Ask, uid: UID, universe: Universe, lookup: Lookup)
    requires AllConsistent(gs)
    ensures var (gs', ok) := OwnOne(gs, a, uid, universe, lookup);
      && AllConsistent(gs') && KeepsGroups(gs, gs', uid) && (ok ==> OwnedIn(gs', a.id, uid))
      && (forall id :: OwnedIn(gs, id, uid) ==> OwnedIn(gs', id, uid))
  {
    hide RecordEach, NewGroup, CanonicalUniverse, Group.Consistent, NoAlias;
    NewIsConsistent(a.id, a.minDomains, universe);
    if a.id in gs {
      ConsistentIgnoresOwners(gs[a.id], uid);
    } else if lookup(a.id).Some? {
      var g := NewGroup(a.id, a.minDomains, DomainsOf(universe, a.id.key));
      RecordEachKeeps(g, lookup(a.id).value);
      ConsistentIgnoresOwners(RecordEach(g, lookup(a.id).value), uid);
    }
  }

  lemma {:induction false} OwnAskedKeeps(gs: Groups, asks: seq<Ask>, uid: UID, universe: Universe, lookup: Lookup)
    requires AllConsistent(gs)
    ensures var (gs', ok) := OwnAsked(gs, asks, uid, universe, lookup);
      && AllConsistent(gs') && KeepsGroups(gs, gs', uid)
      && (ok ==> forall a :: a in asks ==> OwnedIn(gs', a.id, uid))
  {
    hide OwnOne, AllConsistent, OwnedIn;
    if asks != [] {
      var n := |asks| - 1;
      OwnAskedKeeps(gs, asks[..n], uid, universe, lookup);
      OwnOneKeeps(OwnAsked(gs, asks[..n], uid, universe, lookup).0, asks[n], uid, universe, lookup);
    }
  }

  /** Registering a pod succeeds exactly when each group it asks for is known already or can be counted. */
  lemma UpdateSucceedsIff(t: Topo, pod: Pod, antiFirst: bool, universe: Universe, lookup: Lookup)
    requires pod.spec.Valid()
    ensures Updated(t, pod, antiFirst, universe, lookup).1 <==> CanOwn(t.topologies, Asks(pod, antiFirst), lookup)
    ensures Updated(t, pod, antiFirst, universe, lookup).1 == Updated(t, pod, !antiFirst, universe, lookup).1
  {
    hide OwnInverse, OwnAsked, SpreadAsks, AffinityAsks, AntiAffinityAsks;
    OwnAskedSucceedsIff(Disown(t.topologies, pod.uid), Asks(pod, antiFirst), pod.uid, universe, lookup);
    OwnAskedSucceedsIff(Disown(t.topologies, pod.uid), Asks(pod, !antiFirst), pod.uid, universe, lookup);
  }

  /** Each of the groups is known or can be counted. */
  predicate CanOwn(gs: Groups, asks: seq<Ask>, lookup: Lookup) {
    forall a :: a in asks ==> a.id in gs || lookup(a.id).Some?
  }

  lemma {:induction false} OwnAskedSucceedsIff(gs: Groups, asks: seq<Ask>, uid: UID, universe: Universe, lookup: Lookup)
    ensures OwnAsked(gs, asks, uid, universe, lookup).1 <==> CanOwn(gs, asks, lookup)
    ensures forall id :: id in OwnAsked(gs, asks, uid, universe, lookup).0 ==>
              id in gs || (lookup(id).Some? && exists a :: a in asks && a.id == id)
    ensures forall id :: id in gs ==> id in OwnAsked(gs, asks, uid, universe, lookup).0
  {
    hide Own, Counted;
    if asks != [] {
      var n := |asks| - 1;
      OwnAskedSucceedsIff(gs, asks[..n], uid, universe, lookup);
      assert asks == asks[..n] + [asks[n]];
      OwnKeys(OwnAsked(gs, asks[..n], uid, universe, lookup).0, asks[n], uid, universe, lookup);
    }
  }

  lemma OwnKeys(gs: Groups, a: Ask, uid: UID, universe: Universe, lookup: Lookup)
    ensures var (gs', ok) := OwnOne(gs, a, uid, universe, lookup);
      && gs'.Keys == (if ok then gs.Keys + {a.id} else gs.Keys)
      && (ok <==> a.id in gs || lookup(a.id).Some?)
  {}

  /** Registering a pod keeps every count and everybody else's groups, and the pod owns what it asks for. */
  lemma UpdateKeeps(t: Topo, pod: Pod, antiFirst: bool, universe: Universe, lookup: Lookup)
    requires pod.spec.Valid() && AllConsistent(t.topologies) && AllConsistent(t.inverse)
    ensures var (t', ok) := Updated(t, pod, antiFirst, universe, lookup);
      && AllConsistent(t'.topologies) && AllConsistent(t'.inverse)
      && KeepsGroups(t.topologies, t'.topologies, pod.uid) && KeepsGroups(t.inverse, t'.inverse, pod.uid)
      && (Owns(t', pod) <==> RequiredCanOwn(t.topologies, pod, antiFirst, lookup))
  {
    hide OwnAsked, OwnInverse, CanOwn, HardAsks, Asks, AllConsistent, Disown, CanonicalUniverse;
    var gs := Disown(t.topologies, pod.uid);
    DisownKeeps(t.topologies, pod.uid);
    OwnAskedKeeps(gs, Asks(pod, antiFirst), pod.uid, universe, lookup);
    OwnInverseKeeps(t.inverse, pod.spec.podAntiAffinity, pod.uid, universe, map[]);
    RequiredOwnedIff(gs, pod, antiFirst, universe, lookup);
    SameCanOwn(t.topologies, gs, HardAsks(pod, antiFirst), lookup);
  }

  /** A pod that registers again owns exactly what its present spec asks for, if all of it can be counted. */
  lemma UpdateOwnsIff(t: Topo, pod: Pod, antiFirst: bool, universe: Universe, lookup: Lookup, id: GroupId)
    requires pod.spec.Valid() && AllConsistent(t.topologies) && CanOwn(t.topologies, Asks(pod, antiFirst), lookup)
    ensures OwnedIn(Updated(t, pod, antiFirst, universe, lookup).0.topologies, id, pod.uid) <==>
            exists a :: a in Asks(pod, antiFirst) && a.id == id
  {
    hide OwnAsked, OwnInverse, OwnedIn, Asks, AllConsistent, Disown;
    var gs, asks := Disown(t.topologies, pod.uid), Asks(pod, antiFirst);
    DisownKeeps(t.topologies, pod.uid);
    OwnedIff(gs, asks, pod.uid, universe, lookup, id);
    if a :| a in asks && a.id == id {
      var i :| 0 <= i < |asks| && asks[i] == a;
      assert CanOwn(gs, asks[..i + 1], lookup);
    }
  }

  lemma DisownKeeps(gs: Groups, uid: UID)
    requires AllConsistent(gs)
    ensures var gs' := Disown(gs, uid);
      AllConsistent(gs') && KeepsGroups(gs, gs', uid) && gs'.Keys == gs.Keys && forall id :: !OwnedIn(gs', id, uid)
  {}

  /** What a pod asks for up to the last of its required anti-affinity terms. */
  function HardAsks(pod: Pod, antiFirst: bool): (asks: seq<Ask>)
    requires pod.spec.Valid()
    ensures asks <= Asks(pod, antiFirst)
  {
    var asks := SpreadAsks(pod) + (if antiFirst then [] else AffinityAsks(pod)) + RequiredAsks(pod);
    assert asks == Asks(pod, antiFirst)[..|asks|];
    asks
  }

  /** No lookup fails before the required anti-affinity terms are dealt with. */
  predicate RequiredCanOwn(gs: Groups, pod: Pod, antiFirst: bool, lookup: Lookup)
    requires pod.spec.Valid()
  {
    pod.spec.podAntiAffinity == [] || CanOwn(gs, HardAsks(pod, antiFirst), lookup)
  }

  lemma SameCanOwn(gs: Groups, gs': Groups, asks: seq<Ask>, lookup: Lookup)
    requires gs.Keys == gs'.Keys
    ensures CanOwn(gs, asks, lookup) == CanOwn(gs', asks, lookup)
  {}

  /** A pod that owned nothing owns exactly the groups asked for before the first failing lookup. */
  lemma {:induction false} OwnedIff(
    gs: Groups, asks: seq<Ask>, uid: UID, universe: Universe, lookup: Lookup, id: GroupId)
    requires forall i :: !OwnedIn(gs, i, uid)
    ensures OwnedIn(OwnAsked(gs, asks, uid, universe, lookup).0, id, uid) <==>
            exists i :: 0 <= i < |asks| && asks[i].id == id && CanOwn(gs, asks[..i + 1], lookup)
  {
    hide OwnOne, OwnedIn, CanOwn;
    if asks != [] {
      var n := |asks| - 1;
      var before := OwnAsked(gs, asks[..n], uid, universe, lookup);
      OwnedIff(gs, asks[..n], uid, universe, lookup, id);
      OwnAskedSucceedsIff(gs, asks[..n], uid, universe, lookup);
      OwnAskedSucceedsIff(gs, asks, uid, universe, lookup);
      assert asks[..n + 1] == asks;
      assert forall i :: 0 <= i < n ==> asks[..n][i] == asks[i] && asks[..n][..i + 1] == asks[..i + 1];
      OwnOneOwns(before.0, asks[n], uid, universe, lookup, id);
      PrefixCanOwn(gs, asks, n, lookup);
    }
  }

  lemma PrefixCanOwn(gs: Groups, asks: seq<Ask>, n: nat, lookup: Lookup)
    requires n <= |asks|
    ensures CanOwn(gs, asks, lookup) ==> CanOwn(gs, asks[..n], lookup)
  {}

  lemma OwnOneOwns(gs: Groups, a: Ask, uid: UID, universe: Universe, lookup: Lookup, id: GroupId)
    ensures var (gs', ok) := OwnOne(gs, a, uid, universe, lookup);
      OwnedIn(gs', id, uid) <==> OwnedIn(gs, id, uid) || (ok && a.id == id)
  {}

  lemma RequiredOwnedIff(gs: Groups, pod: Pod, antiFirst: bool, universe: Universe, lookup: Lookup)
    requires pod.spec.Valid() && forall id :: !OwnedIn(gs, id, pod.uid)
    ensures var gs' := OwnAsked(gs, Asks(pod, antiFirst), pod.uid, universe, lookup).0;
      (forall t :: t in pod.spec.podAntiAffinity ==> OwnedIn(gs', AntiId(t), pod.uid)) <==>
      RequiredCanOwn(gs, pod, antiFirst, lookup)
  {
    hide OwnAsked, OwnedIn, CanOwn, Asks, HardAsks;
    var asks, first := Asks(pod, antiFirst), HardAsks(pod, antiFirst);
    if RequiredCanOwn(gs, pod, antiFirst, lookup) {
      forall t | t in pod.spec.podAntiAffinity
        ensures OwnedIn(OwnAsked(gs, asks, pod.uid, universe, lookup).0, AntiId(t), pod.uid) {
        var i := RequiredAskAt(pod, antiFirst, t);
        PrefixCanOwn(gs, first, i + 1, lookup);
        assert first[..i + 1] == asks[..i + 1];
        OwnedIff(gs, asks, pod.uid, universe, lookup, AntiId(t));
      }
    } else if forall t :: t in pod.spec.podAntiAffinity ==> OwnedIn(OwnAsked(gs, asks, pod.uid, universe, lookup).0,
      AntiId(t), pod.uid) {
      RequiredOwnedMeans(gs, pod, antiFirst, universe, lookup);
    }
  }

  lemma RequiredAskAt(pod: Pod, antiFirst: bool, t: PodTerm) returns (i: nat)
    requires pod.spec.Valid() && t in pod.spec.podAntiAffinity
    ensures i < |HardAsks(pod, antiFirst)| && HardAsks(pod, antiFirst)[i].id == AntiId(t)
  {
    var j :| 0 <= j < |pod.spec.podAntiAffinity| && pod.spec.podAntiAffinity[j] == t;
    i := |HardAsks(pod, antiFirst)| - |RequiredAsks(pod)| + j;
  }

  /**
   What comes before the required anti-affinity terms is of another kind, so owning one of
   them means all of it was passed.
   */
  lemma RequiredOwnedMeans(gs: Groups, pod: Pod, antiFirst: bool, universe: Universe, lookup: Lookup)
    requires pod.spec.Valid() && (forall id :: !OwnedIn(gs, id, pod.uid)) && pod.spec.podAntiAffinity != []
    requires var gs' := OwnAsked(gs, Asks(pod, antiFirst), pod.uid, universe, lookup).0;
      forall t :: t in pod.spec.podAntiAffinity ==> OwnedIn(gs', AntiId(t), pod.uid)
    ensures CanOwn(gs, HardAsks(pod, antiFirst), lookup)
  {
    hide OwnAsked, OwnedIn, Asks, HardAsks, CanOwn;
    var hard, asks, first := pod.spec.podAntiAffinity, Asks(pod, antiFirst), HardAsks(pod, antiFirst);
    RequiredAsksLast(pod, antiFirst, 0);
    var offset := |first| - |hard|;
    OwnedIff(gs, asks, pod.uid, universe, lookup, AntiId(hard[0]));
    var i :| 0 <= i < |asks| && asks[i].id == AntiId(hard[0]) && CanOwn(gs, asks[..i + 1], lookup);
    assert i >= offset by { OtherKinds(pod, antiFirst, i); }
    forall k | 0 <= k < |first| ensures first[k].id in gs || lookup(first[k].id).Some? {
      if k < offset {
        PrefixHas(gs, asks, i, k, lookup);
      } else {
        var t := hard[k - offset];
        assert first[k].id == AntiId(t) by { RequiredAsksLast(pod, antiFirst, k - offset); }
        OwnedIff(gs, asks, pod.uid, universe, lookup, AntiId(t));
        var j :| 0 <= j < |asks| && asks[j].id == AntiId(t) && CanOwn(gs, asks[..j + 1], lookup);
        PrefixHas(gs, asks, j, j, lookup);
      }
    }
    assert CanOwn(gs, first, lookup) by { EachCanBeOwned(gs, first, lookup); }
  }

  lemma EachCanBeOwned(gs: Groups, asks: seq<Ask>, lookup: Lookup)
    requires forall k :: 0 <= k < |asks| ==> asks[k].id in gs || lookup(asks[k].id).Some?
    ensures CanOwn(gs, asks, lookup)
  {}

  lemma PrefixHas(gs: Groups, asks: seq<Ask>, i: nat, k: nat, lookup: Lookup)
    requires k <= i < |asks| && CanOwn(gs, asks[..i + 1], lookup)
    ensures asks[k].id in gs || lookup(asks[k].id).Some?
  {
    assert asks[..i + 1][k] == asks[k];
  }

  lemma RequiredAsksLast(pod: Pod, antiFirst: bool, j: nat)
    requires pod.spec.Valid() && j < |pod.spec.podAntiAffinity|
    ensures var first := HardAsks(pod, antiFirst);
      |first| >= |pod.spec.podAntiAffinity| &&
        first[|first| - |pod.spec.podAntiAffinity| + j].id == AntiId(pod.spec.podAntiAffinity[j])
  {}

  lemma OtherKinds(pod: Pod, antiFirst: bool, i: nat)
    requires pod.spec.Valid()
    ensures var offset := |HardAsks(pod, antiFirst)| - |pod.spec.podAntiAffinity|;
      && (forall k :: 0 <= k < offset ==> HardAsks(pod, antiFirst)[k].id.kind != PodAntiAffinity)
      && (i < |Asks(pod, antiFirst)| && Asks(pod, antiFirst)[i].id.kind == PodAntiAffinity ==> i >= offset)
  {}

  lemma OwnsKept(t: Topo, t': Topo, uid: UID, b: Pod)
    requires Owns(t, b) && b.uid != uid
    requires KeepsGroups(t.topologies, t'.topologies, uid) && KeepsGroups(t.inverse, t'.inverse, uid)
    ensures Owns(t', b)
  {}

  lemma KeepsGrows(gs: Groups, gs': Groups, uid: UID)
    requires KeepsGroups(gs, gs', uid) && WellKeyed(gs) && WellKeyed(gs')
    ensures Grows(gs, gs')
  {}

  /**
   Registering a relaxed pod of the batch again keeps the invariant exactly if no lookup
   fails before its required anti-affinity terms are dealt with.
   */
  lemma UpdateKeepsInv(
    hosts: seq<Host>, topo: Topo, pod: Pod, antiFirst: bool, universe: Universe, lookup: Lookup, batch: seq<Pod>)
    requires Inv(hosts, topo, batch) && DistinctPods(batch) && Identified(batch, pod) && pod.spec.Valid()
    ensures Inv(hosts, Updated(topo, pod, antiFirst, universe, lookup).0, batch) <==>
            (InBatch(batch, pod) ==> RequiredCanOwn(topo.topologies, pod, antiFirst, lookup))
  {
    hide Updated, Repels, Avoided, Safe, Narrows, KeepsGroups, Grows, RequiredCanOwn, HostInv, AllConsistent;
    var topo' := Updated(topo, pod, antiFirst, universe, lookup).0;
    UpdateKeeps(topo, pod, antiFirst, universe, lookup);
    if b :| b in batch && SamePod(b, pod) {
      assert Owns(topo', b) <==> Owns(topo', pod);
    }
    if InBatch(batch, pod) ==> RequiredCanOwn(topo.topologies, pod, antiFirst, lookup) {
      forall b | b in batch ensures Owns(topo', b) {
        if b.uid == pod.uid {
          assert SamePod(b, pod);
        } else {
          OwnsKept(topo, topo', pod.uid, b);
        }
      }
      KeepsGrowsBoth(topo, topo', pod.uid);
      SameHostsKept(hosts, topo, topo', batch);
    }
  }

  /** An update that succeeds leaves nothing required unowned. */
  lemma SuccessOwnsRequired(t: Topo, pod: Pod, antiFirst: bool, universe: Universe, lookup: Lookup)
    requires pod.spec.Valid()
    ensures Updated(t, pod, antiFirst, universe, lookup).1 ==> RequiredCanOwn(t.topologies, pod, antiFirst, lookup)
  {
    hide Updated, Asks, HardAsks;
    UpdateSucceedsIff(t, pod, antiFirst, universe, lookup);
    var n := |HardAsks(pod, antiFirst)|;
    PrefixCanOwn(t.topologies, Asks(pod, antiFirst), n, lookup);
  }

  lemma KeepsGrowsBoth(topo: Topo, topo': Topo, uid: UID)
    requires AllConsistent(topo.topologies) && AllConsistent(topo.inverse)
    requires AllConsistent(topo'.topologies) && AllConsistent(topo'.inverse)
    requires KeepsGroups(topo.topologies, topo'.topologies, uid) && KeepsGroups(topo.inverse, topo'.inverse, uid)
    ensures Grows(topo.topologies, topo'.topologies) && Grows(topo.inverse, topo'.inverse)
  {
    hide KeepsGroups, Grows;
    KeepsGrows(topo.topologies, topo'.topologies, uid);
    KeepsGrows(topo.inverse, topo'.inverse, uid);
  }

  lemma SameHostsKept(hosts: seq<Host>, topo: Topo, topo': Topo, batch: seq<Pod>)
    requires Inv(hosts, topo, batch) && TopoInv(topo', batch)
    requires Grows(topo.topologies, topo'.topologies) && Grows(topo.inverse, topo'.inverse)
    ensures Inv(hosts, topo', batch)
  {
    hide TopoInv, HostInv, Grows, Safe;
    forall h | h in hosts ensures HostInv(h, topo', batch) {
      NarrowsItself(h.reqs);
      HostIsWellFormed(h, topo, batch);
      HostKept(h, h.reqs, topo, topo', batch);
    }
  }

  lemma HostIsWellFormed(h: Host, topo: Topo, batch: seq<Pod>)
    requires HostInv(h, topo, batch)
    ensures WellFormed(h.reqs)
  {}

  lemma RegisterGrows(gs: Groups, key: string, domain: string)
    requires AllConsistent(gs) && Canonical(key)
    ensures AllConsistent(RegisterIn(gs, key, domain)) && Grows(gs, RegisterIn(gs, key, domain))
    ensures forall id, uid :: OwnedIn(gs, id, uid) ==> OwnedIn(RegisterIn(gs, key, domain), id, uid)
  {}

  lemma RegisterKeepsInv(hosts: seq<Host>, topo: Topo, key: string, domain: string, batch: seq<Pod>)
    requires Inv(hosts, topo, batch) && Canonical(key)
    ensures Inv(hosts, Registered(topo, key, domain), batch)
  {
    hide HostInv, Safe;
    var topo' := Registered(topo, key, domain);
    RegisterGrows(topo.topologies, key, domain);
    RegisterGrows(topo.inverse, key, domain);
    assert TopoInv(topo', batch);
    SameHostsKept(hosts, topo, topo', batch);
  }

  // ----- The start of a run

  lemma {:induction false} TrackRunningIsConsistent(
    gs: Groups, running: seq<Running>, excluded: set<UID>, universe: Universe)
    requires AllConsistent(gs)
    ensures AllConsistent(TrackRunning(gs, running, excluded, universe))
    decreases |running|
  {
    if running != [] {
      var n := |running| - 1;
      TrackRunningIsConsistent(gs, running[..n], excluded, universe);
      OwnInverseKeeps(TrackRunning(gs, running[..n], excluded, universe), running[n].pod.spec.podAntiAffinity,
        running[n].pod.uid, universe, running[n].labels);
    }
  }

  /** Every group the pods ask for can be counted. */
  predicate AllCountable(pods: seq<Pod>, lookup: Lookup)
    requires AllSpecsValid(pods)
  {
    forall p :: p in pods ==> CanOwn(map[], Asks(p, false), lookup)
  }

  lemma {:induction false} UpdatedEachSucceedsIff(
    t: Topo, pods: seq<Pod>, orders: seq<bool>, universe: Universe, lookup: Lookup)
    requires AllSpecsValid(pods) && |orders| == |pods|
    requires forall id :: id in t.topologies ==> lookup(id).Some?
    ensures var (t', ok) := UpdatedEach(t, pods, orders, universe, lookup);
      && (ok <==> AllCountable(pods, lookup))
      && forall id :: id in t'.topologies ==> lookup(id).Some?
    decreases |pods|
  {
    hide OwnAsked, OwnInverse, Asks;
    if pods != [] {
      var n := |pods| - 1;
      UpdatedEachSucceedsIff(t, pods[..n], orders[..n], universe, lookup);
      var before, asks := UpdatedEach(t, pods[..n], orders[..n], universe, lookup).0, Asks(pods[n], orders[n]);
      OwnAskedSucceedsIff(Disown(before.topologies, pods[n].uid), asks, pods[n].uid, universe, lookup);
      assert CanOwn(map[], asks, lookup) <==> CanOwn(map[], Asks(pods[n], false), lookup) by {
        EitherOrder(pods[n], orders[n]);
      }
      assert pods == pods[..n] + [pods[n]];
    }
  }

  lemma EitherOrder(pod: Pod, antiFirst: bool)
    requires pod.spec.Valid()
    ensures forall a :: a in Asks(pod, antiFirst) <==> a in Asks(pod, false)
  {
    hide SpreadAsks, AffinityAsks, AntiAffinityAsks;
  }

  /** The topology can be built exactly if every group the batch asks for can be counted, whatever the order. */
  lemma InitialTopoSucceedsIff(
    pods: seq<Pod>, orders: seq<bool>, running: seq<Running>, universe: Universe, lookup: Lookup)
    requires AllSpecsValid(pods) && |orders| == |pods|
    ensures InitialTopo(pods, orders, running, universe, lookup).1 <==> AllCountable(pods, lookup)
  {
    hide UpdatedEach, TrackRunning, AllCountable;
    var excluded := set p | p in pods :: p.uid;
    UpdatedEachSucceedsIff(Topo(map[], TrackRunning(map[], running, excluded, universe)), pods, orders, universe,
      lookup);
  }

  lemma {:induction false} UpdatedEachOwns(
    t: Topo, pods: seq<Pod>, orders: seq<bool>, universe: Universe, lookup: Lookup)
    requires AllSpecsValid(pods) && DistinctPods(pods) && |orders| == |pods|
    requires AllConsistent(t.topologies) && AllConsistent(t.inverse)
    ensures var (t', ok) := UpdatedEach(t, pods, orders, universe, lookup);
      && AllConsistent(t'.topologies) && AllConsistent(t'.inverse) && (ok ==> TopoInv(t', pods))
    decreases |pods|
  {
    hide Updated, KeepsGroups, Owns, AllConsistent, RequiredCanOwn, CanOwn;
    if pods != [] {
      var n := |pods| - 1;
      UpdatedEachOwns(t, pods[..n], orders[..n], universe, lookup);
      var before := UpdatedEach(t, pods[..n], orders[..n], universe, lookup).0;
      UpdateKeeps(before, pods[n], orders[n], universe, lookup);
      SuccessOwnsRequired(before, pods[n], orders[n], universe, lookup);
      if UpdatedEach(t, pods, orders, universe, lookup).1 {
        var after := UpdatedEach(t, pods, orders, universe, lookup).0;
        forall b | b in pods ensures Owns(after, b) {
          if b.uid != pods[n].uid {
            assert b in pods[..n];
            OwnsKept(before, after, pods[n].uid, b);
          } else {
            assert b == pods[n];
          }
        }
      }
    }
  }

  /** A run starts, with nothing placed, in the invariant. */
  lemma InitialInv(
    hosts: seq<Host>, batch: seq<Pod>, orders: seq<bool>, running: seq<Running>, universe: Universe, lookup: Lookup)
    requires AllSpecsValid(batch) && DistinctPods(batch) && |orders| == |batch|
    requires InitialTopo(batch, orders, running, universe, lookup).1
    requires forall h :: h in hosts ==> h.pods == [] && WellFormed(h.reqs)
    ensures Inv(hosts, InitialTopo(batch, orders, running, universe, lookup).0, batch)
  {
    hide Updated, OwnInverse;
    var excluded := set p | p in batch :: p.uid;
    TrackRunningIsConsistent(map[], running, excluded, universe);
    UpdatedEachOwns(Topo(map[], TrackRunning(map[], running, excluded, universe)), batch, orders, universe, lookup);
  }
}
