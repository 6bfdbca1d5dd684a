/**
 All topology groups of one scheduling run: those that constrain the pods owning them,
 and the inverse groups, which record where the owners of required anti-affinities went
 so that the pods they repel can avoid them.
 */
module Topologies {
  import opened Common
  import opened Labels
  import opened RequirementAlgebra
  import opened RequirementSets
  import opened Pods
  import opened TopologyGroups

  type Groups = map<GroupId, Group>

  datatype Topo = Topo(topologies: Groups, inverse: Groups)

  predicate CanonicalUniverse(u: map<string, set<string>>) { forall key :: key in u ==> Canonical(key) }

  /** Known domains by topology key; keys come from requirements, so none is a deprecated alias. */
  type Universe = u: map<string, set<string>> | CanonicalUniverse(u) witness map[]

  /** The domains of existing pods that count for a group, one entry per pod; None when a lookup fails. */
  type Lookup = GroupId -> Option<seq<string>>

  // ----- Looking up the existing pods

  datatype NodeAnswer = NodeMissing | NodeError | NodeFound(name: string, labels: map<string, string>)

  /**
   An existing pod that a group selects, and its node; it is ignored if it is not scheduled,
   has ended or is ending.
   */
  datatype Listed = Listed(uid: UID, ignored: bool, node: NodeAnswer)

  /** The pods listed for each group, None if that fails, and those that are about to be scheduled again. */
  datatype Listing = Listing(list: GroupId -> Option<seq<Listed>>, excluded: set<UID>)

  /** A node without a host name label, which is set late, goes by its name. */
  function DomainAt(id: GroupId, name: string, labels: map<string, string>): Option<string> {
    if id.key in labels then Some(labels[id.key]) else if id.key == HOSTNAME then Some(name) else None
  }

  /** The pod counts in the domain: it is there to stay, and its node has the domain and passes the filter. */
  predicate CountsIn(p: Listed, id: GroupId, excluded: set<UID>, d: string) {
    && !p.ignored && p.uid !in excluded && p.node.NodeFound?
    && DomainAt(id, p.node.name, p.node.labels) == Some(d) &&
      FilterMatches(id.nodeFilter, LabelRequirements(p.node.labels), {})
  }

  /**
   A pod counts in a domain iff it is scheduled and there to stay, not of the batch, and its
   node exists, passes the filter and carries the domain as its label; a node without the
   host name label counts under its name.
   */
  lemma CountsInIff(p: Listed, id: GroupId, excluded: set<UID>, d: string)
    ensures CountsIn(p, id, excluded, d) <==>
      && !p.ignored && p.uid !in excluded
      && exists name, labels ::
           && p.node == NodeFound(name, labels) && FilterMatches(id.nodeFilter, LabelRequirements(labels), {})
           && ((id.key in labels && labels[id.key] == d) ||
               (id.key == "kubernetes.io/hostname" && id.key !in labels && d == name))
  {
    hide FilterMatches, LabelRequirements;
  }

  predicate CannotTell(p: Listed, excluded: set<UID>) { !p.ignored && p.uid !in excluded && p.node.NodeError? }

  function DomainsListed(id: GroupId, pods: seq<Listed>, excluded: set<UID>): Option<seq<string>> {
    if pods == [] then Some([])
    else
      var before, p := DomainsListed(id, pods[..|pods| - 1], excluded), pods[|pods| - 1];
      if before.None? || CannotTell(p, excluded) then None
      else if p.node.NodeFound? && DomainAt(id, p.node.name, p.node.labels).Some? &&
              CountsIn(p, id, excluded, DomainAt(id, p.node.name, p.node.labels).value)
      then Some(before.value + [DomainAt(id, p.node.name, p.node.labels).value])
      else before
  }

  /** The positions of the pods that count in the domain. */
  function CountingIn(pods: seq<Listed>, id: GroupId, excluded: set<UID>, d: string): set<int> {
    set i | 0 <= i < |pods| && CountsIn(pods[i], id, excluded, d)
  }

  function LookupOf(listing: Listing): Lookup {
    id => match listing.list(id)
      case None => None
      case Some(pods) => DomainsListed(id, pods, listing.excluded)
  }

  /**
   The counts fail exactly if the node of a pod that is there to stay cannot be told, and
   each domain is listed once per pod that counts in it.
   */
  lemma {:induction false} ListedAre(id: GroupId, pods: seq<Listed>, excluded: set<UID>, d: string)
    ensures DomainsListed(id, pods, excluded).None? <==> exists p :: p in pods && CannotTell(p, excluded)
    ensures DomainsListed(id, pods, excluded).Some? ==>
      multiset(DomainsListed(id, pods, excluded).value)[d] == |CountingIn(pods, id, excluded, d)|
  {
    hide FilterMatches, LabelRequirements;
    if pods == [] {
      assert CountingIn(pods, id, excluded, d) == {};
    } else {
      var n := |pods| - 1;
      ListedAre(id, pods[..n], excluded, d);
      assert pods == pods[..n] + [pods[n]];
      assert CountingIn(pods, id, excluded, d) ==
             CountingIn(pods[..n], id, excluded, d) + (if CountsIn(pods[n], id, excluded, d) then {n} else {});
    }
  }

  lemma {:induction false} FailureStays(id: GroupId, pods: seq<Listed>, excluded: set<UID>, i: nat)
    requires i <= |pods| && DomainsListed(id, pods[..i], excluded).None?
    ensures DomainsListed(id, pods, excluded).None?
    decreases |pods|
  {
    if i == |pods| {
      assert pods[..i] == pods;
    } else {
      assert pods[..|pods| - 1][..i] == pods[..i];
      FailureStays(id, pods[..|pods| - 1], excluded, i);
    }
  }

  function DomainsOf(universe: Universe, key: string): set<string> { if key in universe then universe[key] else {} }

  predicate WellKeyed(gs: Groups) { forall id :: id in gs ==> gs[id].id == id }

  // ----- The groups a pod asks for

  function AntiId(t: PodTerm): GroupId {
    GroupId(t.topologyKey, PodAntiAffinity, t.namespaces, t.selector, MAX_INT32, {})
  }

  function AffinityId(t: PodTerm): GroupId {
    GroupId(t.topologyKey, PodAffinity, t.namespaces, t.selector, MAX_INT32, {})
  }

  datatype Ask = Ask(id: GroupId, minDomains: Option<int>)

  function SpreadAsk(pod: Pod, c: SpreadConstraint): Ask
    requires pod.spec.Valid()
  {
    Ask(GroupId(c.topologyKey, Spread, {pod.key.namespace}, c.selector, c.maxSkew, FilterOf(pod.spec)), c.minDomains)
  }

  function SpreadAsks(pod: Pod): seq<Ask>
    requires pod.spec.Valid()
  {
    seq(|pod.spec.spread|, i requires 0 <= i < |pod.spec.spread| => SpreadAsk(pod, pod.spec.spread[i]))
  }

  function AffinityAsks(pod: Pod): seq<Ask> {
    var hard, soft := pod.spec.podAffinity, pod.spec.preferredPodAffinity;
    seq(|hard|, i requires 0 <= i < |hard| => Ask(AffinityId(hard[i]), None)) +
    seq(|soft|, i requires 0 <= i < |soft| => Ask(AffinityId(soft[i].term), None))
  }

  function RequiredAsks(pod: Pod): seq<Ask> {
    var hard := pod.spec.podAntiAffinity;
    seq(|hard|, i requires 0 <= i < |hard| => Ask(AntiId(hard[i]), None))
  }

  function AntiAffinityAsks(pod: Pod): seq<Ask> {
    var soft := pod.spec.preferredPodAntiAffinity;
    RequiredAsks(pod) + seq(|soft|, i requires 0 <= i < |soft| => Ask(AntiId(soft[i].term), None))
  }

  /** The groups of a pod; affinity and anti-affinity terms are kept in a map and may come in either order. */
  function Asks(pod: Pod, antiFirst: bool): seq<Ask>
    requires pod.spec.Valid()
  {
    SpreadAsks(pod) +
    if antiFirst then AntiAffinityAsks(pod) + AffinityAsks(pod) else AffinityAsks(pod) + AntiAffinityAsks(pod)
  }

  // ----- Updating the groups of a pod

  function RecordEach(g: Group, ds: seq<string>): Group {
    if ds == [] then g else RecordEach(g, ds[..|ds| - 1]).Record({ds[|ds| - 1]})
  }

  /** Every entry adds one to its domain. */
  lemma {:induction false} RecordEachCounts(g: Group, ds: seq<string>, d: string)
    ensures RecordEach(g, ds).Count(d) == g.Count(d) + multiset(ds)[d]
  {
    if ds != [] {
      var n := |ds| - 1;
      RecordEachCounts(g, ds[..n], d);
      assert ds == ds[..n] + [ds[n]];
    }
  }

  /** The pod owns group `id`, which is created with domain counts `g` if it is new. */
  function Own(gs: Groups, id: GroupId, g: Group, uid: UID): Groups {
    var existing := if id in gs then gs[id] else g;
    gs[id := existing.(owners := existing.owners + {uid})]
  }

  function Disown(gs: Groups, uid: UID): Groups {
    map id | id in gs :: gs[id].(owners := gs[id].owners - {uid})
  }

  /**
   The pod owns the inverse group of a term; a pod already on a node counts in the node's
   domain, if the node has one.
   */
  function OwnInverseOne(gs: Groups, id: GroupId, uid: UID, universe: Universe, labels: map<string, string>): Groups {
    var g := if id in gs then gs[id] else NewGroup(id, None, DomainsOf(universe, id.key));
    var counted := if id.key in labels then g.Record({labels[id.key]}) else g;
    gs[id := counted.(owners := counted.owners + {uid})]
  }

  function OwnInverse(
    gs: Groups, terms: seq<PodTerm>, uid: UID, universe: Universe, labels: map<string, string>): Groups {
    if terms == [] then gs
    else OwnInverseOne(OwnInverse(gs, terms[..|terms| - 1], uid, universe, labels), AntiId(terms[|terms| - 1]), uid,
      universe, labels)
  }

  /** A new group, counted against the existing pods. */
  function Counted(a: Ask, universe: Universe, ds: seq<string>): Group {
    RecordEach(NewGroup(a.id, a.minDomains, DomainsOf(universe, a.id.key)), ds)
  }

  function OwnOne(gs: Groups, a: Ask, uid: UID, universe: Universe, lookup: Lookup): (Groups, bool) {
    if a.id in gs then (Own(gs, a.id, gs[a.id], uid), true)
    else match lookup(a.id)
      case None => (gs, false)
      case Some(ds) => (Own(gs, a.id, Counted(a, universe, ds), uid), true)
  }

  /** Own every group asked for, stopping at the first one whose counts cannot be looked up. */
  function OwnAsked(gs: Groups, asks: seq<Ask>, uid: UID, universe: Universe, lookup: Lookup): (Groups, bool) {
    if asks == [] then (gs, true)
    else
      var (before, ok) := OwnAsked(gs, asks[..|asks| - 1], uid, universe, lookup);
      if !ok then (before, false) else OwnOne(before, asks[|asks| - 1], uid, universe, lookup)
  }

  function Updated(t: Topo, pod: Pod, antiFirst: bool, universe: Universe, lookup: Lookup): (Topo, bool)
    requires pod.spec.Valid()
  {
    var (topologies, ok) := OwnAsked(Disown(t.topologies, pod.uid), Asks(pod, antiFirst), pod.uid, universe, lookup);
    (Topo(topologies, OwnInverse(t.inverse, pod.spec.podAntiAffinity, pod.uid, universe, map[])), ok)
  }

  /** A pod that runs in the cluster, with the labels of its node. */
  datatype Running = Running(pod: Pod, labels: map<string, string>)

  /** The inverse groups of the running pods, except those about to be scheduled again. */
  function TrackRunning(gs: Groups, running: seq<Running>, excluded: set<UID>, universe: Universe): Groups {
    if running == [] then gs
    else
      var before, r := TrackRunning(gs, running[..|running| - 1], excluded, universe), running[|running| - 1];
      if r.pod.uid in excluded
        then before else OwnInverse(before, r.pod.spec.podAntiAffinity, r.pod.uid, universe, r.labels)
  }

  predicate AllSpecsValid(pods: seq<Pod>) { forall p :: p in pods ==> p.spec.Valid() }

  /** Every pod of the batch registers its groups; whether all lookups succeeded. */
  function UpdatedEach(t: Topo, pods: seq<Pod>, orders: seq<bool>, universe: Universe, lookup: Lookup): (Topo, bool)
    requires AllSpecsValid(pods) && |orders| == |pods|
  {
    if pods == [] then (t, true)
    else
      var n := |pods| - 1;
      var (before, ok) := UpdatedEach(t, pods[..n], orders[..n], universe, lookup);
      var (after, last) := Updated(before, pods[n], orders[n], universe, lookup);
      (after, ok && last)
  }

  function InitialTopo(
    pods: seq<Pod>, orders: seq<bool>, running: seq<Running>, universe: Universe, lookup: Lookup): (Topo, bool)
    requires AllSpecsValid(pods) && |orders| == |pods|
  {
    var excluded := set p | p in pods :: p.uid;
    UpdatedEach(Topo(map[], TrackRunning(map[], running, excluded, universe)), pods, orders, universe, lookup)
  }

  // ----- Recording and registering

  function RecordDirect(g: Group, pod: Pod, reqs: Requirements, allow: set<string>): Group {
    var d := Get(reqs, g.id.key);
    if !g.id.Counts(pod, reqs, allow) then g
    else if g.id.kind.PodAntiAffinity? then g.Record(d.values)
    else if !d.complement && d.Len() == 1 then g.Record(d.values)
    else g
  }

  function RecordInverse(g: Group, pod: Pod, reqs: Requirements): Group {
    if pod.uid in g.owners then g.Record(Get(reqs, g.id.key).values) else g
  }

  /** The pod goes to a node with the given requirements. */
  function RecordPod(t: Topo, pod: Pod, reqs: Requirements, allow: set<string>): Topo {
    Topo(map id | id in t.topologies :: RecordDirect(t.topologies[id], pod, reqs, allow),
         map id | id in t.inverse :: RecordInverse(t.inverse[id], pod, reqs))
  }

  function RegisterIn(gs: Groups, key: string, domain: string): Groups {
    map id | id in gs :: if id.key == key then gs[id].Register(domain) else gs[id]
  }

  function Registered(t: Topo, key: string, domain: string): Topo {
    Topo(RegisterIn(t.topologies, key, domain), RegisterIn(t.inverse, key, domain))
  }

  // ----- Tightening a node's requirements

  datatype Ref = Direct(id: GroupId) | Inverse(id: GroupId)

  predicate Present(t: Topo, ref: Ref) { if ref.Direct? then ref.id in t.topologies else ref.id in t.inverse }

  function At(t: Topo, ref: Ref): Group
    requires Present(t, ref)
  {
    if ref.Direct? then t.topologies[ref.id] else t.inverse[ref.id]
  }

  /** The groups the pod owns, and the inverse groups that select it. */
  predicate Matching(t: Topo, pod: Pod, reqs: Requirements, allow: set<string>, ref: Ref) {
    && Present(t, ref)
    && if ref.Direct? then pod.uid in t.topologies[ref.id].owners else ref.id.Counts(pod, reqs, allow)
  }

  /** What the group at `ref` may demand of the pod. */
  ghost predicate Demand(t: Topo, pod: Pod, podReqs: Requirements, nodeReqs: Requirements, ref: Ref, r: Requirement)
    requires Present(t, ref)
  {
    Choice(At(t, ref), pod, Get(podReqs, ref.id.key), Get(nodeReqs, ref.id.key), r)
  }

  /**
   Every matching group was consulted once, each demand was satisfiable, and all were added
   to the node's requirements.
   */
  ghost predicate Tightened(
    t: Topo, pod: Pod, podReqs: Requirements, nodeReqs: Requirements, allow: set<string>, out: Requirements)
  {
    exists refs: seq<Ref>, rs: seq<Requirement> :: TightenedBy(t, pod, podReqs, nodeReqs, allow, out, refs, rs)
  }

  ghost predicate TightenedBy(
    t: Topo, pod: Pod, podReqs: Requirements, nodeReqs: Requirements, allow: set<string>, out: Requirements,
    refs: seq<Ref>, rs: seq<Requirement>)
  {
    && |refs| == |rs|
    && (forall i, j :: 0 <= i < j < |refs| ==> refs[i] != refs[j])
    && (forall ref :: ref in refs <==> Matching(t, pod, nodeReqs, allow, ref))
    && (forall i :: 0 <= i < |rs| ==>
          Matching(t, pod, nodeReqs, allow, refs[i]) && Demand(t, pod, podReqs, nodeReqs, refs[i], rs[i]) &&
            rs[i].Len() != 0)
    && out == AddAll(nodeReqs, rs)
  }

  /** Some matching group cannot be satisfied. */
  ghost predicate Unsatisfiable(t: Topo, pod: Pod, podReqs: Requirements, nodeReqs: Requirements, allow: set<string>) {
    exists ref: Ref, r: Requirement ::
      Matching(t, pod, nodeReqs, allow, ref) && Demand(t, pod, podReqs, nodeReqs, ref, r) && r.Len() == 0
  }

  // ----- The topology as an object

  class Topology {
    var topologies: map<GroupId, TopologyGroup>
    var inverseTopologies: map<GroupId, TopologyGroup>
    const universe: Universe
    const listing: Listing
    const lookup: Lookup := LookupOf(listing)

    ghost function Repr(): set<object> reads this { {this} + topologies.Values + inverseTopologies.Values }

    /** Groups are stored under their own identity, and no two entries share a group. */
    ghost predicate Valid() reads this {
      && Distinct(topologies) && Distinct(inverseTopologies)
      && topologies.Values !! inverseTopologies.Values
    }

    ghost function View(): Topo reads Repr() {
      Topo(Views(topologies), Views(inverseTopologies))
    }

    constructor (universe: Universe, listing: Listing)
      ensures Valid() && fresh(Repr()) && View() == Topo(map[], map[])
      ensures this.universe == universe && this.listing == listing && lookup == LookupOf(listing)
    {
      this.universe, this.listing := universe, listing;
      topologies, inverseTopologies := map[], map[];
    }

    method Record(pod: Pod, reqs: Requirements, allow: set<string>)
      requires Valid()
      modifies Repr()
      ensures Valid() && Repr() == old(Repr()) && View() == RecordPod(old(View()), pod, reqs, allow)
    {
      RecordCounted(topologies, pod, reqs, allow);
      RecordOwned(inverseTopologies, pod, reqs);
    }

    /** A domain becomes known to every group on the key. */
    method Register(key: string, domain: string)
      requires Valid()
      modifies Repr()
      ensures Valid() && Repr() == old(Repr()) && View() == Registered(old(View()), key, domain)
    {
      RegisterEach(topologies, key, domain);
      RegisterEach(inverseTopologies, key, domain);
    }

    /**
     Forget which groups the pod owns and register it with those its current spec asks
     for; called again after every relaxation.  A failed lookup leaves the rest unowned.
     */
    method Update(pod: Pod) returns (ok: bool, ghost antiFirst: bool)
      requires Valid() && pod.spec.Valid()
      modifies Repr()
      ensures Valid() && fresh(Repr() - old(Repr()))
      ensures (View(), ok) == Updated(old(View()), pod, antiFirst, universe, lookup)
    {
      hide Own, OwnAsked, OwnInverse, Disown, Asks, Views, Distinct, CanonicalUniverse;
      DisownEach(topologies, pod.uid);
      UpdateInverseAntiAffinity(pod, map[]);
      var asks;
      asks, antiFirst := NewGroups(pod);
      ok := UpdateTopologies(asks, pod.uid);
    }

    method UpdateInverseAntiAffinity(pod: Pod, labels: map<string, string>)
      requires Valid()
      modifies Repr()
      ensures Valid() && fresh(Repr() - old(Repr())) && topologies == old(topologies)
      ensures View() ==
              old(View()).(inverse := OwnInverse(old(View()).inverse, pod.spec.podAntiAffinity, pod.uid, universe,
                labels))
    {
      hide OwnInverseOne, Views, CanonicalUniverse;
      var terms := pod.spec.podAntiAffinity;
      ghost var before := View();
      for i := 0 to |terms|
        invariant Valid() && fresh(Repr() - old(Repr())) && topologies == old(topologies)
        invariant View() == before.(inverse := OwnInverse(before.inverse, terms[..i], pod.uid, universe, labels))
      {
        assert terms[..i + 1][..i] == terms[..i];
        OwnInverseGroup(AntiId(terms[i]), pod.uid, labels);
      }
      assert terms[..|terms|] == terms;
    }

    method OwnInverseGroup(id: GroupId, uid: UID, labels: map<string, string>)
      requires Valid()
      modifies Repr()
      ensures Valid() && fresh(Repr() - old(Repr())) && topologies == old(topologies)
      ensures View() == old(View()).(inverse := OwnInverseOne(old(View()).inverse, id, uid, universe, labels))
    {
      hide Views, NewGroup, Group.Record, Own, OwnInverseOne, CanonicalUniverse;
      ghost var before := View().inverse;
      if id !in inverseTopologies {
        var tg := new TopologyGroup(id, None, DomainsOf(universe, id.key));
        InsertInverse(tg);
      }
      ghost var created := View().inverse;
      if id.key in labels {
        RecordRunning(id, labels[id.key]);
      }
      OwnInverseSteps(before, created, View().inverse, id, uid, universe, labels);
      AddInverseOwner(id, uid);
    }

    method RecordRunning(id: GroupId, domain: string)
      requires Valid() && id in inverseTopologies
      modifies Repr()
      ensures Valid() && topologies == old(topologies) && inverseTopologies == old(inverseTopologies)
      ensures View() == old(View()).(inverse := old(View()).inverse[id := old(View()).inverse[id].Record({domain})])
    {
      hide Views, Distinct, Group.Record;
      RecordIn(inverseTopologies, id, domain);
    }

    /** Store a new group under its identity. */
    method InsertInverse(tg: TopologyGroup)
      requires Valid() && tg !in Repr() && tg.id !in inverseTopologies
      modifies this
      ensures Valid() && Repr() == old(Repr()) + {tg}
      ensures topologies == old(topologies) && inverseTopologies == old(inverseTopologies)[tg.id := tg]
      ensures View() == old(View()).(inverse := old(View()).inverse[tg.id := tg.View()])
    {
      hide Views, Distinct;
      InsertedValues(inverseTopologies, tg.id, tg);
      InsertedGroup(inverseTopologies, tg);
      inverseTopologies := inverseTopologies[tg.id := tg];
    }

    method InsertDirect(tg: TopologyGroup)
      requires Valid() && tg !in Repr() && tg.id !in topologies
      modifies this
      ensures Valid() && Repr() == old(Repr()) + {tg}
      ensures inverseTopologies == old(inverseTopologies) && topologies == old(topologies)[tg.id := tg]
      ensures View() == old(View()).(topologies := old(View()).topologies[tg.id := tg.View()])
    {
      hide Views, Distinct;
      InsertedValues(topologies, tg.id, tg);
      InsertedGroup(topologies, tg);
      topologies := topologies[tg.id := tg];
    }

    method AddDirectOwner(id: GroupId, uid: UID)
      requires Valid() && id in topologies
      modifies Repr()
      ensures Valid() && topologies == old(topologies) && inverseTopologies == old(inverseTopologies)
      ensures View() == old(View()).(topologies := Own(old(View()).topologies, id, old(View()).topologies[id], uid))
    {
      hide Views, Distinct;
      AddOwnerIn(topologies, id, uid);
    }

    method AddInverseOwner(id: GroupId, uid: UID)
      requires Valid() && id in inverseTopologies
      modifies Repr()
      ensures Valid() && topologies == old(topologies) && inverseTopologies == old(inverseTopologies)
      ensures View() == old(View()).(inverse := Own(old(View()).inverse, id, old(View()).inverse[id], uid))
    {
      hide Views, Distinct;
      AddOwnerIn(inverseTopologies, id, uid);
    }

    method UpdateTopologies(asks: seq<Ask>, uid: UID) returns (ok: bool)
      requires Valid()
      modifies Repr()
      ensures Valid() && fresh(Repr() - old(Repr())) && inverseTopologies == old(inverseTopologies)
      ensures View().inverse == old(View()).inverse
      ensures (View().topologies, ok) == OwnAsked(old(View()).topologies, asks, uid, universe, lookup)
    {
      hide Own, Views, CanonicalUniverse;
      ghost var before := View();
      for i := 0 to |asks|
        invariant Valid() && fresh(Repr() - old(Repr())) && inverseTopologies == old(inverseTopologies)
        invariant View().inverse == before.inverse
        invariant (View().topologies, true) == OwnAsked(before.topologies, asks[..i], uid, universe, lookup)
      {
        assert asks[..i + 1][..i] == asks[..i];
        ok := OwnGroup(asks[i], uid);
        if !ok {
          OwnAskedStops(before.topologies, asks, i + 1, uid, universe, lookup);
          return;
        }
      }
      assert asks[..|asks|] == asks;
      ok := true;
    }

    method OwnGroup(a: Ask, uid: UID) returns (ok: bool)
      requires Valid()
      modifies Repr()
      ensures Valid() && fresh(Repr() - old(Repr())) && inverseTopologies == old(inverseTopologies)
      ensures View().inverse == old(View()).inverse
      ensures (View().topologies, ok) == OwnOne(old(View()).topologies, a, uid, universe, lookup)
    {
      hide Views, Own, Counted, CanonicalUniverse;
      ghost var before := View();
      if a.id !in topologies {
        var tg, counted := NewCounted(a, universe, listing);
        if !counted {
          return false;
        }
        InsertDirect(tg);
        OwnTwice(before.topologies, a.id, tg.View(), uid);
      }
      AddDirectOwner(a.id, uid);
      ok := true;
    }

    /** The groups that constrain the pod, each once. */
    method MatchingTopologies(pod: Pod, reqs: Requirements, allow: set<string>) returns (refs: seq<Ref>)
      requires Valid()
      ensures forall i, j :: 0 <= i < j < |refs| ==> refs[i] != refs[j]
      ensures forall ref :: ref in refs <==> Matching(View(), pod, reqs, allow, ref)
    {
      refs := [];
      var todo := topologies.Keys;
      while todo != {}
        invariant todo <= topologies.Keys
        invariant forall i, j :: 0 <= i < j < |refs| ==> refs[i] != refs[j]
        invariant forall ref ::
          ref in refs <==> ref.Direct? && ref.id !in todo && Matching(View(), pod, reqs, allow, ref)
        decreases todo
      {
        var id :| id in todo;
        todo := todo - {id};
        if pod.uid in topologies[id].owners {
          refs := refs + [Direct(id)];
        }
      }
      todo := inverseTopologies.Keys;
      while todo != {}
        invariant todo <= inverseTopologies.Keys
        invariant forall i, j :: 0 <= i < j < |refs| ==> refs[i] != refs[j]
        invariant forall ref ::
          ref in refs <==> (ref.Direct? || ref.id !in todo) && Matching(View(), pod, reqs, allow, ref)
        decreases todo
      {
        var id :| id in todo;
        todo := todo - {id};
        if id.Counts(pod, reqs, allow) {
          refs := refs + [Inverse(id)];
        }
      }
    }

    /** What a group demands of the pod. */
    method Demanded(ref: Ref, pod: Pod, podReqs: Requirements, nodeReqs: Requirements) returns (r: Requirement)
      requires Present(View(), ref)
      ensures Demand(View(), pod, podReqs, nodeReqs, ref, r)
    {
      hide Choice;
      var group := if ref.Direct? then topologies[ref.id] else inverseTopologies[ref.id];
      assert group.View() == At(View(), ref);
      r := group.Get(pod, Get(podReqs, ref.id.key), Get(nodeReqs, ref.id.key));
    }

    /** Tighten a node's requirements by what every matching group demands of the pod. */
    method AddRequirements(podReqs: Requirements, nodeReqs: Requirements, pod: Pod, allow: set<string>)
      returns (out: Requirements, ok: bool)
      requires Valid()
      ensures ok ==> Tightened(View(), pod, podReqs, nodeReqs, allow, out)
      ensures !ok ==> Unsatisfiable(View(), pod, podReqs, nodeReqs, allow)
    {
      hide Demand, AddAll, GroupId.Counts, View;
      assert allocated(Repr());
      out := nodeReqs;
      var refs := MatchingTopologies(pod, nodeReqs, allow);
      ghost var rs := [];
      assert allocated(Repr());
      assert out == AddAll(nodeReqs, rs) by { AddAllEmpty(nodeReqs); }
      for i := 0 to |refs|
        invariant |rs| == i && out == AddAll(nodeReqs, rs)
        invariant forall j :: 0 <= j < i ==>
                    Matching(View(), pod, nodeReqs, allow, refs[j]) &&
                      Demand(View(), pod, podReqs, nodeReqs, refs[j], rs[j]) && rs[j].Len() != 0
      {
        var ref := refs[i];
        assert ref in refs;
        var r := Demanded(ref, pod, podReqs, nodeReqs);
        if r.Len() == 0 {
          return map[], false;
        }
        AddAllOneMore(nodeReqs, rs, r);
        out := Add(out, r);
        rs := rs + [r];
      }
      assert TightenedBy(View(), pod, podReqs, nodeReqs, allow, out, refs, rs);
      ok := true;
    }
  }

  lemma InsertedValues(gs: map<GroupId, TopologyGroup>, id: GroupId, tg: TopologyGroup)
    requires id !in gs
    ensures gs[id := tg].Values == gs.Values + {tg}
  {
    var gs' := gs[id := tg];
    assert gs'[id] == tg;
    forall g | g in gs.Values ensures g in gs'.Values {
      var i :| i in gs && gs[i] == g;
      assert gs'[i] == g;
    }
  }

  lemma InsertedGroup(gs: map<GroupId, TopologyGroup>, tg: TopologyGroup)
    requires Distinct(gs) && tg.id !in gs && tg !in gs.Values
    ensures Distinct(gs[tg.id := tg]) && Views(gs[tg.id := tg]) == Views(gs)[tg.id := tg.View()]
  {}

  lemma OwnInverseSteps(
    gs: Groups, created: Groups, counted: Groups, id: GroupId, uid: UID, universe: Universe, labels: map<string,
      string>)
    requires created == if id in gs then gs else gs[id := NewGroup(id, None, DomainsOf(universe, id.key))]
    requires counted == if id.key in labels then created[id := created[id].Record({labels[id.key]})] else created
    ensures Own(counted, id, counted[id], uid) == OwnInverseOne(gs, id, uid, universe, labels)
  {}

  lemma OwnTwice(gs: Groups, id: GroupId, g: Group, uid: UID)
    ensures id !in gs ==> Own(gs[id := g], id, g, uid) == Own(gs, id, g, uid)
  {}

  lemma AddAllEmpty(m: Requirements)
    ensures AddAll(m, []) == m
  {}

  lemma AddAllOneMore(m: Requirements, rs: seq<Requirement>, r: Requirement)
    ensures AddAll(m, rs + [r]) == Add(AddAll(m, rs), r)
  {
    AddAllAppend(m, rs, [r]);
    assert [r][1..] == [];
  }

  /** Once a lookup fails, the remaining groups are not looked at. */
  lemma {:induction false} OwnAskedStops(
    gs: Groups, asks: seq<Ask>, i: nat, uid: UID, universe: Universe, lookup: Lookup)
    requires i <= |asks| && !OwnAsked(gs, asks[..i], uid, universe, lookup).1
    ensures OwnAsked(gs, asks, uid, universe, lookup) == OwnAsked(gs, asks[..i], uid, universe, lookup)
    decreases |asks|
  {
    if i == |asks| {
      assert asks[..i] == asks;
    } else {
      var n := |asks| - 1;
      assert asks[..n][..i] == asks[..i];
      OwnAskedStops(gs, asks[..n], i, uid, universe, lookup);
    }
  }

  // ----- Walking a map of groups

  ghost predicate Distinct(gs: map<GroupId, TopologyGroup>) {
    && (forall id :: id in gs ==> gs[id].id == id)
    && (forall i, j :: i in gs && j in gs && i != j ==> gs[i] != gs[j])
  }

  ghost function Views(gs: map<GroupId, TopologyGroup>): (r: Groups)
    reads gs.Values
    ensures r.Keys == gs.Keys
  {
    map id | id in gs :: gs[id].View()
  }

  /** Record the pod in every group that counts it. */
  method RecordCounted(gs: map<GroupId, TopologyGroup>, pod: Pod, reqs: Requirements, allow: set<string>)
    requires Distinct(gs)
    modifies gs.Values
    ensures Views(gs) == map id | id in gs :: RecordDirect(old(Views(gs))[id], pod, reqs, allow)
  {
    ghost var before := Views(gs);
    var todo := gs.Keys;
    while todo != {}
      invariant todo <= gs.Keys
      invariant forall id :: id in gs ==>
                  gs[id].View() == if id in todo then before[id] else RecordDirect(before[id], pod, reqs, allow)
      decreases todo
    {
      hide RecordDirect;
      var id :| id in todo;
      todo := todo - {id};
      RecordIfCounted(gs[id], pod, reqs, allow);
    }
  }

  method RecordIfCounted(g: TopologyGroup, pod: Pod, reqs: Requirements, allow: set<string>)
    modifies g
    ensures g.View() == RecordDirect(old(g.View()), pod, reqs, allow)
  {
    hide GroupId.Counts, Group.Record;
    var d := Get(reqs, g.id.key);
    if g.id.Counts(pod, reqs, allow) {
      if g.id.kind.PodAntiAffinity? || (!d.complement && d.Len() == 1) {
        g.Record(d.values);
      }
    }
  }

  /** Record the pod in every group it owns. */
  method RecordOwned(gs: map<GroupId, TopologyGroup>, pod: Pod, reqs: Requirements)
    requires Distinct(gs)
    modifies gs.Values
    ensures Views(gs) == map id | id in gs :: RecordInverse(old(Views(gs))[id], pod, reqs)
  {
    ghost var before := Views(gs);
    var todo := gs.Keys;
    while todo != {}
      invariant todo <= gs.Keys
      invariant forall id :: id in gs ==>
                  gs[id].View() == if id in todo then before[id] else RecordInverse(before[id], pod, reqs)
      decreases todo
    {
      var id :| id in todo;
      todo := todo - {id};
      if pod.uid in gs[id].owners {
        gs[id].Record(Get(reqs, id.key).values);
      }
    }
  }

  method RecordIn(gs: map<GroupId, TopologyGroup>, id: GroupId, domain: string)
    requires Distinct(gs) && id in gs
    modifies gs[id]
    ensures Views(gs) == old(Views(gs))[id := old(Views(gs))[id].Record({domain})]
  {
    hide Group.Record;
    gs[id].Record({domain});
  }

  method AddOwnerIn(gs: map<GroupId, TopologyGroup>, id: GroupId, uid: UID)
    requires Distinct(gs) && id in gs
    modifies gs[id]
    ensures Views(gs) == Own(old(Views(gs)), id, old(Views(gs))[id], uid)
  {
    gs[id].AddOwner(uid);
  }

  method RegisterEach(gs: map<GroupId, TopologyGroup>, key: string, domain: string)
    requires Distinct(gs)
    modifies gs.Values
    ensures Views(gs) == RegisterIn(old(Views(gs)), key, domain)
  {
    ghost var before := Views(gs);
    var todo := gs.Keys;
    while todo != {}
      invariant todo <= gs.Keys
      invariant forall id :: id in gs ==>
                  gs[id].View() == if id in todo || id.key != key then before[id] else before[id].Register(domain)
      decreases todo
    {
      var id :| id in todo;
      todo := todo - {id};
      if id.key == key {
        gs[id].Register(domain);
      }
    }
  }

  method DisownEach(gs: map<GroupId, TopologyGroup>, uid: UID)
    requires Distinct(gs)
    modifies gs.Values
    ensures Views(gs) == Disown(old(Views(gs)), uid)
  {
    ghost var before := Views(gs);
    var todo := gs.Keys;
    while todo != {}
      invariant todo <= gs.Keys
      invariant forall id :: id in gs ==>
                  gs[id].View() == if id in todo then before[id] else before[id].(owners := before[id].owners - {uid})
      decreases todo
    {
      var id :| id in todo;
      todo := todo - {id};
      gs[id].RemoveOwner(uid);
    }
  }

  /** Count the existing pods, unless a lookup fails on the way. */
  method CountDomains(tg: TopologyGroup, listed: Option<seq<Listed>>, excluded: set<UID>) returns (ok: bool)
    modifies tg
    ensures ok <==> listed.Some? && DomainsListed(tg.id, listed.value, excluded).Some?
    ensures ok ==> tg.View() == RecordEach(old(tg.View()), DomainsListed(tg.id, listed.value, excluded).value)
  {
    hide FilterMatches, LabelRequirements, Group.Record;
    if listed.None? {
      return false;
    }
    var pods := listed.value;
    ghost var before := tg.View();
    for i := 0 to |pods|
      invariant DomainsListed(tg.id, pods[..i], excluded).Some?
      invariant tg.View() == RecordEach(before, DomainsListed(tg.id, pods[..i], excluded).value)
    {
      var p := pods[i];
      assert pods[..i + 1][..i] == pods[..i];
      if p.ignored {
        continue;
      }
      if p.uid in excluded {
        continue;
      }
      match p.node {
        case NodeMissing => continue;
        case NodeError =>
          FailureStays(tg.id, pods, excluded, i + 1);
          return false;
        case NodeFound(name, labels) =>
          var domain := DomainAt(tg.id, name, labels);
          if domain.None? {
            continue;
          }
          if !FilterMatches(tg.id.nodeFilter, LabelRequirements(labels), {}) {
            continue;
          }
          RecordOneMoreEach(before, DomainsListed(tg.id, pods[..i], excluded).value, domain.value);
          tg.Record({domain.value});
      }
    }
    assert pods[..|pods|] == pods;
    ok := true;
  }

  lemma RecordOneMoreEach(g: Group, ds: seq<string>, d: string)
    ensures RecordEach(g, ds + [d]) == RecordEach(g, ds).Record({d})
  {
    assert (ds + [d])[..|ds|] == ds;
  }

  /** The groups a pod asks for, the two kinds of affinity in whatever order the map yields them. */
  method NewGroups(pod: Pod) returns (asks: seq<Ask>, ghost antiFirst: bool)
    requires pod.spec.Valid()
    ensures asks == Asks(pod, antiFirst)
  {
    if {
      case true =>
        asks, antiFirst := SpreadAsks(pod) + (AffinityAsks(pod) + AntiAffinityAsks(pod)), false;
      case true =>
        asks, antiFirst := SpreadAsks(pod) + (AntiAffinityAsks(pod) + AffinityAsks(pod)), true;
    }
  }

  /** A new group, counted against the existing pods. */
  method NewCounted(a: Ask, universe: Universe, listing: Listing) returns (tg: TopologyGroup, ok: bool)
    ensures fresh(tg) && (ok <==> LookupOf(listing)(a.id).Some?)
    ensures ok ==> tg.id == a.id && tg.View() == Counted(a, universe, LookupOf(listing)(a.id).value)
  {
    hide DomainsListed;
    tg := new TopologyGroup(a.id, a.minDomains, DomainsOf(universe, a.id.key));
    ok := CountDomains(tg, listing.list(a.id), listing.excluded);
  }

  /** The counts for a batch leave out the pods of the batch. */
  function BatchLookup(pods: seq<Pod>, list: GroupId -> Option<seq<Listed>>): Lookup {
    LookupOf(Listing(list, set p | p in pods :: p.uid))
  }

  /** The topology of one scheduling run: running pods are tracked first, then the batch registers its groups. */
  method NewTopology(pods: seq<Pod>, running: seq<Running>, universe: Universe, list: GroupId -> Option<seq<Listed>>)
    returns (t: Topology, ok: bool, ghost orders: seq<bool>)
    requires AllSpecsValid(pods)
    ensures t.Valid() && fresh(t.Repr()) && t.universe == universe && t.lookup == BatchLookup(pods, list)
    ensures |orders| == |pods| &&
      (t.View(), ok) == InitialTopo(pods, orders, running, universe, BatchLookup(pods, list))
  {
    hide Topology.View, Topology.Valid, TrackRunning, UpdatedEach, LookupOf, CanonicalUniverse, AllSpecsValid;
    var excluded := set p | p in pods :: p.uid;
    t := new Topology(universe, Listing(list, excluded));
    Track(t, running, excluded);
    ok, orders := UpdateEach(t, pods);
  }

  method Track(t: Topology, running: seq<Running>, excluded: set<UID>)
    requires t.Valid()
    modifies t.Repr()
    ensures t.Valid() && fresh(t.Repr() - old(t.Repr()))
    ensures t.View() == old(t.View()).(inverse := TrackRunning(old(t.View()).inverse, running, excluded, t.universe))
  {
    hide OwnInverse, Topology.View, Topology.Valid;
    ghost var before := t.View();
    for i := 0 to |running|
      invariant t.Valid() && fresh(t.Repr() - old(t.Repr()))
      invariant t.View() == before.(inverse := TrackRunning(before.inverse, running[..i], excluded, t.universe))
    {
      assert running[..i + 1][..i] == running[..i];
      if running[i].pod.uid !in excluded {
        t.UpdateInverseAntiAffinity(running[i].pod, running[i].labels);
      }
    }
    assert running[..|running|] == running;
  }

  method UpdateEach(t: Topology, pods: seq<Pod>) returns (ok: bool, ghost orders: seq<bool>)
    requires t.Valid() && AllSpecsValid(pods)
    modifies t.Repr()
    ensures t.Valid() && fresh(t.Repr() - old(t.Repr()))
    ensures |orders| == |pods| && (t.View(), ok) == UpdatedEach(old(t.View()), pods, orders, t.universe, t.lookup)
  {
    hide Updated, Topology.View, Topology.Valid;
    ghost var before := t.View();
    ok, orders := true, [];
    for i := 0 to |pods|
      invariant t.Valid() && fresh(t.Repr() - old(t.Repr()))
      invariant |orders| == i && (t.View(), ok) == UpdatedEach(before, pods[..i], orders, t.universe, t.lookup)
    {
      ghost var antiFirst;
      var updated;
      updated, antiFirst := t.Update(pods[i]);
      ok := ok && updated;
      assert pods[..i + 1][..i] == pods[..i] && (orders + [antiFirst])[..i] == orders;
      orders := orders + [antiFirst];
    }
    assert pods[..|pods|] == pods;
  }
}
