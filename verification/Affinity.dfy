/**
 Pod affinity at one placement: what the topology's answer leaves of a host's requirements
 holds, for every affinity group of the pod, only domains where the group has a pod already,
 unless the pod is the first of its group.
 */
module AffinityDemands {
  import opened Labels
  import opened RequirementAlgebra
  import opened RequirementSets
  import opened Pods
  import opened TopologyGroups
  import opened Topologies
  import opened AntiAffinitySafety

  /** The pod is of the group itself, and the group has no pod in any domain that the pod allows. */
  ghost predicate Bootstraps(g: Group, pod: Pod, podDomains: Requirement) {
    g.id.Selects(pod) && forall d :: podDomains.Has(d) ==> g.Count(d) == 0
  }

  /** Every domain that is left holds a pod of the group, unless the pod starts it. */
  ghost predicate Joins(reqs: Requirements, g: Group, pod: Pod, podDomains: Requirement) {
    || Bootstraps(g, pod, podDomains)
    || (Finite(reqs, Normalize(g.id.key)) && forall v :: Allows(reqs, Normalize(g.id.key), v) ==> g.Count(v) > 0)
  }

  /** So it is for every affinity group the pod owns. */
  ghost predicate JoinsAll(topo: Topo, pod: Pod, strict: Requirements, reqs: Requirements) {
    forall id :: OwnedIn(topo.topologies, id, pod.uid) && id.kind.PodAffinity? ==>
      Joins(reqs, topo.topologies[id], pod, Get(strict, id.key))
  }

  lemma GetKey(m: Requirements, key: string)
    requires WellFormed(m)
    ensures Normalize(Get(m, key).key) == Normalize(key)
  {
    NormalizeIsCanonical(key);
  }

  /** Where the answer leaves something, the group has a pod there or the pod starts the group. */
  lemma AnswerJoins(g: Group, pod: Pod, podDomains: Requirement, nodeDomains: Requirement, r: Requirement, v: string)
    requires AffinityChoice(g, pod, podDomains, nodeDomains, r) && !Bootstraps(g, pod, podDomains) && r.Has(v)
    ensures g.Count(v) > 0
  {
    hide Requirement.Has, AffinityChoice, GroupId.Selects;
    AffinityAnswer(g, pod, podDomains, nodeDomains, r);
    if forall d :: podDomains.Has(d) ==> g.Count(d) == 0 {
      assert !g.id.Selects(pod);
    }
  }

  lemma TightenedJoins(
    t: Topo, pod: Pod, strict: Requirements, nodeReqs: Requirements, allow: set<string>, out: Requirements, id: GroupId)
    requires WellKeyed(t.topologies) && WellFormed(strict) && WellFormed(nodeReqs)
    requires Tightened(t, pod, strict, nodeReqs, allow, out)
    requires OwnedIn(t.topologies, id, pod.uid) && id.kind.PodAffinity?
    ensures Joins(out, t.topologies[id], pod, Get(strict, id.key))
  {
    hide Requirement.Has, FilterMatches, Bootstraps, AffinityChoice;
    var refs: seq<Ref>, rs: seq<Requirement> :| TightenedBy(t, pod, strict, nodeReqs, allow, out, refs, rs);
    DemandsAreNormal(t, pod, strict, nodeReqs, allow, out, refs, rs);
    assert Matching(t, pod, nodeReqs, allow, Direct(id));
    var i :| 0 <= i < |refs| && refs[i] == Direct(id);
    var g, podDomains, nodeDomains := t.topologies[id], Get(strict, id.key), Get(nodeReqs, id.key);
    assert AffinityChoice(g, pod, podDomains, nodeDomains, rs[i]);
    ChoiceIsFinite(g, pod, podDomains, nodeDomains, rs[i]);
    GetKey(strict, id.key);
    AddAllFinite(nodeReqs, rs, i);
    if !Bootstraps(g, pod, podDomains) {
      forall v | Allows(out, Normalize(id.key), v) ensures g.Count(v) > 0 {
        AddAllAllows(nodeReqs, rs, Normalize(id.key), v);
        AnswerJoins(g, pod, podDomains, nodeDomains, rs[i], v);
      }
    }
  }

  lemma NarrowerJoins(out: Requirements, after: Requirements, g: Group, pod: Pod, podDomains: Requirement)
    requires Joins(out, g, pod, podDomains) && Narrows(after, out)
    requires Finite(out, Normalize(g.id.key)) ==> Finite(after, Normalize(g.id.key))
    ensures Joins(after, g, pod, podDomains)
  {
    hide Bootstraps, Group.Count;
  }

  /** The requirements a host ends up with when a pod is placed join every affinity group of the pod. */
  lemma PlacementJoins(
    topo: Topo, pod: Pod, before: Requirements, podReqs: Requirements, strict: Requirements, allow: set<string>,
    out: Requirements)
    requires AllConsistent(topo.topologies) && WellFormed(before) && WellFormed(podReqs) && WellFormed(strict)
    requires Tightened(topo, pod, strict, Meet(before, podReqs), allow, out)
    ensures JoinsAll(topo, pod, strict, Meet(Meet(before, podReqs), out))
  {
    hide Requirement.Has, Requirement.Intersection, Tightened, Meet, Joins, Group.Consistent, Group.Count;
    var nodeReqs := Meet(before, podReqs);
    MeetIsWellFormed(before, podReqs);
    var after := Meet(nodeReqs, out);
    TightenedKeepsForm(topo, pod, strict, nodeReqs, allow, out);
    MeetNarrows(nodeReqs, out);
    forall id | OwnedIn(topo.topologies, id, pod.uid) && id.kind.PodAffinity?
      ensures Joins(after, topo.topologies[id], pod, Get(strict, id.key))
    {
      TightenedJoins(topo, pod, strict, nodeReqs, allow, out, id);
      MeetFinite(nodeReqs, out, Normalize(id.key));
      NarrowerJoins(out, after, topo.topologies[id], pod, Get(strict, id.key));
    }
  }
}
