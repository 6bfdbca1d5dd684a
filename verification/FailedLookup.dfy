/**
 A run in which required anti-affinity is violated.  Pod P insists on not sharing a zone
 with pod Q and prefers nodes with a GPU among its required node affinity terms.  There is
 one node, without a GPU.  P is refused and its GPU term dropped; with the other node
 filter its spread constraint is a new group, whose counts cannot be looked up.  P thereby
 loses the group of its anti-affinity term, Q is placed, and P follows Q onto the node.
 */
module FailedLookup {
  import opened Common
  import opened Labels
  import opened RequirementAlgebra
  import opened RequirementSets
  import opened Resources
  import opened HostPorts
  import opened Volumes
  import opened Pods
  import opened PreferenceRelaxation
  import opened TopologyGroups
  import opened Topologies
  import opened AntiAffinitySafety
  import opened RelaxedLookups
  import opened NodeClaims
  import opened ExistingNodes
  import opened Plans
  import opened Scheduling
  import opened SchedulerSetup

  // ----- The input

  function AppSelector(app: string): Option<LabelSelector> { Some(LabelSelector(map["app" := app], [])) }

  function Repelled(): PodTerm { PodTerm(ZONE, {"ns"}, AppSelector("q")) }

  function Evenly(): SpreadConstraint { SpreadConstraint(ZONE, 1, None, AppSelector("p"), false) }

  function OnGPU(): NodeTerm { [Expression("gpu", Exists, [], None)] }

  function InSomeZone(): NodeTerm { [Expression(ZONE, Exists, [], None)] }

  function PodP(required: seq<NodeTerm>): Pod {
    Pod("p", PodKey("ns", "p"), map["app" := "p"],
      PodSpec(map[], Some(required), [], [], [], [Repelled()], [], [Evenly()], []),
        PodResources([], [], None), [], Some(map[]))
  }

  function PodQ(): Pod {
    Pod("q", PodKey("ns", "q"), map["app" := "q"], PodSpec(map[], None, [], [], [], [], [], [], []),
        PodResources([], [], None), [], Some(map[]))
  }

  function Strict(): Pod { PodP([OnGPU(), InSomeZone()]) }

  function Relaxing(): Pod { PodP([InSomeZone()]) }

  function Node(): NodeSnapshot {
    NodeSnapshot("n", "n", true, map[ZONE := "a"], [], map[PODS := 10], map[PODS := 10], map[], map[], map[],
      Mounts(map[], map[], map[]))
  }

  ghost function Zones(): Universe
  {
    ZoneIsCanonical();
    map[ZONE := {"a"}]
  }

  lemma ZoneIsCanonical()
    ensures Canonical(ZONE) && ZONE != HOSTNAME
  {
    NormalizeIsCanonical("failure-domain.beta.kubernetes.io/zone");
    assert ZONE[0] != HOSTNAME[0];
  }

  lemma SpecsAreValid()
    ensures Strict().spec.Valid() && Relaxing().spec.Valid() && PodQ().spec.Valid() && AllSpecsValid([Strict(), PodQ()])
  {}

  /** The group that is new after the relaxation. */
  function NewID(): GroupId
  {
    SpecsAreValid();
    SpreadAsk(Relaxing(), Evenly()).id
  }

  function OldID(): GroupId
  {
    SpecsAreValid();
    SpreadAsk(Strict(), Evenly()).id
  }

  /** There are no other pods; only those of the new group cannot be listed. */
  function Fails(): Lookup { BatchLookup([Strict(), PodQ()], id => if id == NewID() then None else Some([])) }

  lemma FailsAt(id: GroupId)
    ensures Fails()(id) == if id == NewID() then None else Some([])
  {
    var pods := [Strict(), PodQ()];
    assert DomainsListed(id, [], set p | p in pods :: p.uid) == Some([]);
  }

  // ----- The topology along the run

  function ZoneGroup(id: GroupId, owners: set<UID>): Group { Group(id, None, owners, map["a" := 0], {"a"}) }

  function KnownGroups(owners: set<UID>): Groups {
    map[OldID() := ZoneGroup(OldID(), owners), AntiId(Repelled()) := ZoneGroup(AntiId(Repelled()), owners)]
  }

  function Inverses(): Groups { map[AntiId(Repelled()) := ZoneGroup(AntiId(Repelled()), {"p"})] }

  lemma FiltersDiffer()
    ensures OldID() != NewID() && OldID() != AntiId(Repelled()) && NewID() != AntiId(Repelled())
  {
    SpecsAreValid();
    hide AddAll;
    var gpu, zone :=
      Meet(LabelRequirements(map[]), Folded(OnGPU())), Meet(LabelRequirements(map[]), Folded(InSomeZone()));
    FoldedOne("gpu");
    FoldedOne(ZONE);
    assert "gpu" in gpu && "gpu" !in zone by { ZoneIsCanonical(); assert ZONE[0] != "gpu"[0]; }
    assert FilterOf(Strict().spec) != FilterOf(Relaxing().spec) by {
      assert Strict().spec.required.value[0] == OnGPU();
      assert gpu in FilterOf(Strict().spec);
      assert forall x :: x in FilterOf(Relaxing().spec) ==> x == zone;
    }
  }

  lemma FoldedOne(key: string)
    ensures AllValid([Expression(key, Exists, [], None)])
    ensures Folded([Expression(key, Exists, [], None)]) == map[Normalize(key) := AnyValue(key)]
  {
    var es := [Expression(key, Exists, [], None)];
    var rs := RequirementList(es);
    assert rs[1..] == [];
    assert AddAll(map[], rs) == AddAll(Add(map[], rs[0]), []);
  }

  lemma AsksOf(pod: Pod, antiFirst: bool)
    requires pod == Strict() || pod == Relaxing()
    ensures pod.spec.Valid()
    ensures Asks(pod, antiFirst) == [SpreadAsk(pod, Evenly()), Ask(AntiId(Repelled()), None)]
  {
    hide SpreadAsk;
    SpecsAreValid();
    assert SpreadAsks(pod) == [SpreadAsk(pod, Evenly())] && AffinityAsks(pod) == [];
    assert AntiAffinityAsks(pod) == [Ask(AntiId(Repelled()), None)];
  }

  lemma NewIsFresh(id: GroupId)
    requires id.key == ZONE
    ensures NewGroup(id, None, DomainsOf(Zones(), id.key)) == ZoneGroup(id, {})
  {
    assert NewGroup(id, None, {"a"}).domains == map["a" := 0];
  }

  lemma OwnedTwo(gs: Groups, a: Ask, b: Ask, uid: UID)
    ensures var first := OwnOne(gs, a, uid, Zones(), Fails());
      OwnAsked(gs, [a, b], uid, Zones(), Fails()) == if first.1
        then OwnOne(first.0, b, uid, Zones(), Fails()) else (first.0, false)
  {
    hide OwnOne;
    assert [a, b][..1] == [a] && [a][..0] == [];
    assert OwnAsked(gs, [a], uid, Zones(), Fails()) == OwnOne(gs, a, uid, Zones(), Fails());
  }

  lemma OwnedInverse(gs: Groups)
    ensures OwnInverse(gs, [Repelled()], "p", Zones(), map[]) ==
      OwnInverseOne(gs, AntiId(Repelled()), "p", Zones(), map[])
  {
    assert [Repelled()][..0] == [];
  }

  lemma FirstUpdate(antiFirst: bool)
    ensures Strict().spec.Valid()
    ensures Updated(Topo(map[], map[]), Strict(), antiFirst, Zones(), Fails()) ==
      (Topo(KnownGroups({"p"}), Inverses()), true)
  {
    hide SpreadAsk, NewGroup, OwnAsked, OwnInverse;
    AsksOf(Strict(), antiFirst);
    FiltersDiffer();
    var a, b := SpreadAsk(Strict(), Evenly()), Ask(AntiId(Repelled()), None);
    assert Disown(map[], "p") == map[];
    assert a.minDomains.None? && a.id.key == ZONE by { SpreadAskIs(Strict()); }
    NewIsFresh(a.id);
    NewIsFresh(b.id);
    OwnedTwo(map[], a, b, "p");
    OwnedInverse(map[]);
    FailsAt(a.id);
    FailsAt(b.id);
    hide Fails;
    assert a.id == OldID() && Fails()(a.id) == Some([]) && Fails()(b.id) == Some([]);
    assert Counted(a, Zones(), []) == ZoneGroup(a.id, {}) && Counted(b, Zones(), []) == ZoneGroup(b.id, {});
    assert {} + {"p"} == {"p"};
    assert OwnOne(map[], a, "p", Zones(), Fails()) == (map[a.id := ZoneGroup(a.id, {"p"})], true);
  }

  lemma SpreadAskIs(pod: Pod)
    requires pod.spec.Valid()
    ensures SpreadAsk(pod, Evenly()).minDomains.None? && SpreadAsk(pod, Evenly()).id.key == ZONE
  {}

  lemma UpdateOfQ(antiFirst: bool)
    ensures PodQ().spec.Valid()
    ensures var t := Topo(KnownGroups({"p"}), Inverses()); Updated(t, PodQ(), antiFirst, Zones(), Fails()) == (t, true)
  {
    hide SpreadAsk, NewID, OldID;
    SpecsAreValid();
    assert Asks(PodQ(), antiFirst) == [];
    assert {"p"} - {"q"} == {"p"};
    assert Disown(KnownGroups({"p"}), "q") == KnownGroups({"p"});
  }

  lemma Start(orders: seq<bool>)
    requires |orders| == 2
    ensures AllSpecsValid([Strict(), PodQ()])
    ensures InitialTopo([Strict(), PodQ()], orders, [], Zones(), Fails()) ==
      (Topo(KnownGroups({"p"}), Inverses()), true)
  {
    hide Updated, KnownGroups, Inverses;
    SpecsAreValid();
    var pods := [Strict(), PodQ()];
    FirstUpdate(orders[0]);
    UpdateOfQ(orders[1]);
    assert pods[..1] == [Strict()] && orders[..1] == [orders[0]] && [Strict()][..0] == [] && [orders[0]][..0] == [];
    assert UpdatedEach(Topo(map[], map[]), [Strict()], [orders[0]], Zones(), Fails()) ==
      (Topo(KnownGroups({"p"}), Inverses()), true);
  }

  lemma OldKey()
    ensures OldID().key == ZONE
  {
    SpecsAreValid();
    SpreadAskIs(Strict());
  }

  lemma HostNameIsNoZone()
    ensures RegisteredNodes(Topo(KnownGroups({"p"}), Inverses()), [Node()]) == Topo(KnownGroups({"p"}), Inverses())
  {
    hide NewID, OldID;
    ZoneIsCanonical();
    var t := Topo(KnownGroups({"p"}), Inverses());
    OldKey();
    assert [Node()][..0] == [];
    assert Registered(t, HOSTNAME, "n").topologies == t.topologies && Registered(t, HOSTNAME, "n").inverse == t.inverse;
  }

  /** The update fails at the new group, before the anti-affinity term is dealt with. */
  lemma SecondUpdate(antiFirst: bool)
    ensures Relaxing().spec.Valid()
    ensures Updated(Topo(KnownGroups({"p"}), Inverses()), Relaxing(), antiFirst, Zones(), Fails()) ==
      (Topo(KnownGroups({}), Inverses()), false)
  {
    hide SpreadAsk, NewGroup, OwnAsked, OwnInverse;
    AsksOf(Relaxing(), antiFirst);
    FiltersDiffer();
    var a, b := SpreadAsk(Relaxing(), Evenly()), Ask(AntiId(Repelled()), None);
    assert {"p"} - {"p"} == {} && {"p"} + {"p"} == {"p"};
    assert Disown(KnownGroups({"p"}), "p") == KnownGroups({});
    OwnedTwo(KnownGroups({}), a, b, "p");
    OwnedInverse(Inverses());
    FailsAt(a.id);
    hide Fails;
    assert a.id == NewID() && a.id !in KnownGroups({}) && Fails()(a.id).None?;
    assert OwnInverseOne(Inverses(), b.id, "p", Zones(), map[]) == Inverses();
  }

  // ----- The node along the run

  function Only(key: string, value: string): Requirement { Requirement(key, false, {value}, None, None, None) }

  function Place(): Requirements { map[ZONE := Only(ZONE, "a"), HOSTNAME := Only(HOSTNAME, "n")] }

  lemma NodeRequirementsAre()
    ensures NodeRequirements(Node()) == Place()
  {
    ZoneIsCanonical();
    HostnameIsCanonical();
    var labels := map[ZONE := "a"];
    assert labels[ZONE] == "a" && CanonicalKeys(labels) == {ZONE};
    assert AgreedValues(labels, ZONE) == {"a"};
    assert LabelRequirements(labels) == map[ZONE := Only(ZONE, "a")];
    assert Elements(["n"]) == {"n"};
    assert Exactly(HOSTNAME, "n") == Only(HOSTNAME, "n");
  }

  lemma OnlyMeets(key: string, value: string)
    requires Canonical(key)
    ensures Only(key, value).Intersection(Only(key, value)) == Only(key, value)
    ensures AnyValue(key).Intersection(Only(key, value)) == Only(key, value)
    ensures Only(key, value).Intersection(AnyValue(key)) == Only(key, value)
    ensures Only(key, value).Len() != 0
  {
    assert (set v | v in {value} && Within(v, None, None)) == {value};
    assert {value} * {value} == {value} && {value} - {} == {value};
  }

  lemma PlaceStays()
    ensures Meet(Place(), map[]) == Place() && Meet(Place(), Place()) == Place()
    ensures Meet(Place(), map[ZONE := AnyValue(ZONE)]) == Place()
    ensures AddAll(Place(), []) == Place() && AddAll(Place(), [AnyOf(ZONE, {"a"})]) == Place()
    ensures Compatible(Place(), map[], {}) && Compatible(Place(), Place(), {}) &&
      Compatible(Place(), map[ZONE := AnyValue(ZONE)], {})
  {
    hide Requirement.Intersection, Requirement.Len;
    ZoneIsCanonical();
    HostnameIsCanonical();
    OnlyMeets(ZONE, "a");
    OnlyMeets(HOSTNAME, "n");
    assert AnyOf(ZONE, {"a"}) == Only(ZONE, "a");
    assert [AnyOf(ZONE, {"a"})][1..] == [];
    assert AddAll(Place(), [AnyOf(ZONE, {"a"})]) == AddAll(Add(Place(), AnyOf(ZONE, {"a"})), []);
  }

  lemma RequirementsOfPods()
    ensures Strict().spec.Valid() && Relaxing().spec.Valid() && PodQ().spec.Valid()
    ensures PodRequirements(PodQ().spec) == map[] && StrictPodRequirements(PodQ().spec) == map[]
    ensures PodRequirements(Relaxing().spec) == map[ZONE := AnyValue(ZONE)]
    ensures PodRequirements(Strict().spec) == map["gpu" := AnyValue("gpu")]
  {
    hide Folded;
    SpecsAreValid();
    ZoneIsCanonical();
    FoldedOne(ZONE);
    FoldedOne("gpu");
    assert LabelRequirements(map[]) == map[];
    assert Relaxing().spec.required.value[0] == InSomeZone() && Strict().spec.required.value[0] == OnGPU();
  }

  /** A node that does not promise a GPU is not enough. */
  lemma NeedsGPU(reqs: Requirements, allow: set<string>)
    requires "gpu" !in reqs && "gpu" !in allow
    ensures Strict().spec.Valid() && !Compatible(reqs, PodRequirements(Strict().spec), allow)
  {
    hide Strict, PodRequirements;
    RequirementsOfPods();
    assert !AnyValue("gpu").AllowsAbsence();
  }

  lemma StrictIsRefused(n: Existing, topo: Topo)
    requires n.requirements == Place()
    ensures Strict().spec.Valid() && NodeRefused(n, topo, Strict())
  {
    hide Strict, PodRequirements, Compatible, Meet;
    assert "gpu" !in Place() by { assert "gpu"[0] != ZONE[0] && "gpu"[0] != HOSTNAME[0]; }
    NeedsGPU(n.requirements, {});
  }

  /** A node that only the pods of this run are on. */
  predicate Ours(n: Existing) {
    && n.node == Node() && n.requirements == Place() && n.mounts.limits == map[]
    && (forall k :: k in n.reserved ==> n.reserved[k] == [])
  }

  /** One more pod without demands finds room. */
  lemma FindsRoom(n: Existing, pod: Pod)
    requires Ours(n) && n.requests.Keys <= {PODS} && Amount(n.requests, PODS) <= 5 &&
      (pod == PodQ() || pod == Relaxing())
    ensures pod.spec.Valid() && NodeAdmits(n, pod, Place())
    ensures var n' := NodeWithPod(n, pod, Place());
      Ours(n') && n'.pods == n.pods + [pod] && n'.requests == map[PODS := Amount(n.requests, PODS) + 1]
  {
    hide PodRequirements, Meet, Compatible, Place, Fits, Plus, Existing.Available, PodSpec.Valid, ToleratesAll, Union;
    RequirementsOfPods();
    PlaceStays();
    ResourcesFit(n, pod);
    assert pod.volumes == Some(map[]) && pod.ports == [] && pod.spec.tolerations == [] && n.node.taints == [];
    assert ToleratesAll([], []) by { NothingToTolerate(); }
  }

  lemma NothingToTolerate()
    ensures ToleratesAll([], [])
  {}

  lemma ResourcesFit(n: Existing, pod: Pod)
    requires n.node == Node() && n.requests.Keys <= {PODS} && Amount(n.requests, PODS) <= 5 &&
      (pod == PodQ() || pod == Relaxing())
    ensures Plus(n.requests, pod.Requests()) == map[PODS := Amount(n.requests, PODS) + 1]
    ensures Fits(Plus(n.requests, pod.Requests()), n.Available())
  {
    hide Pod.Requests;
    RequestsAreOne();
    assert n.Available() == map[PODS := 10];
  }

  lemma RequestsAreOne()
    ensures PodQ().Requests() == map[PODS := 1] && Relaxing().Requests() == map[PODS := 1]
  {
    var none := PodResources([], [], None);
    assert PodRequests(none) == map[];
    var nothing: ResourceList := map[];
    assert AllRequests([none]) == [nothing];
    assert [nothing][..0] == [];
    assert Merge([nothing]) == Plus(nothing, nothing) == nothing;
  }

  // ----- The placements

  /** Nobody owns a group, and the only inverse group is that of P's term. */
  predicate Unowned(topo: Topo) {
    && (forall id :: id in topo.topologies ==> topo.topologies[id].owners == {})
    && topo.inverse.Keys == {AntiId(Repelled())}
  }

  lemma TermSelects()
    ensures AntiId(Repelled()).Selects(PodQ()) && !AntiId(Repelled()).Selects(Relaxing())
  {
    assert "app" in map["app" := "q"] && map["app" := "p"]["app"] == "p" && "p"[0] != "q"[0];
  }

  /** P's term sends Q where P is not yet, which is everywhere. */
  lemma QIsTightened()
    ensures Tightened(Topo(KnownGroups({}), Inverses()), PodQ(), map[], Place(), {}, Place())
  {
    hide Place, KnownGroups, Inverses, AddAll, Matching, Demand, PodQ;
    var t, ref, r := Topo(KnownGroups({}), Inverses()), Inverse(AntiId(Repelled())), AnyOf(ZONE, {"a"});
    QMatches();
    QIsAsked();
    PlaceStays();
    assert TightenedBy(t, PodQ(), map[], Place(), {}, Place(), [ref], [r]);
  }

  lemma QMatches()
    ensures forall ref ::
      ref == Inverse(AntiId(Repelled())) <==> Matching(Topo(KnownGroups({}), Inverses()), PodQ(), Place(), {}, ref)
  {
    hide Place, NewID, OldID, FilterMatches, GroupId.Selects;
    TermSelects();
    EmptyFilterMatches(Place(), {});
  }

  lemma QIsAsked()
    ensures var t, ref := Topo(KnownGroups({}), Inverses()), Inverse(AntiId(Repelled()));
      Present(t, ref) && Demand(t, PodQ(), map[], Place(), ref, AnyOf(ZONE, {"a"})) && AnyOf(ZONE, {"a"}).Len() != 0
  {
    hide Place, KnownGroups, PodQ;
    WholeZone(AntiId(Repelled()));
  }

  lemma WholeZone(id: GroupId)
    ensures Unoccupied(ZoneGroup(id, {"p"}), AnyValue(ZONE)) == AnyOf(ZONE, {"a"})
  {
    ZoneIsCanonical();
    var g := ZoneGroup(id, {"p"});
    assert AnyValue(ZONE).Has("a");
    assert (set d | d in g.emptyDomains && AnyValue(ZONE).Has(d) && g.Count(d) == 0) == {"a"};
  }

  /** P owns nothing any more, so nothing holds it back. */
  lemma PIsFree(topo: Topo, strict: Requirements)
    requires Unowned(topo)
    ensures Tightened(topo, Relaxing(), strict, Place(), {}, Place())
  {
    hide Place, AddAll, GroupId.Selects;
    TermSelects();
    PlaceStays();
    assert TightenedBy(topo, Relaxing(), strict, Place(), {}, Place(), [], []);
  }

  lemma RecordedIsUnowned(topo: Topo, pod: Pod)
    requires Unowned(topo)
    ensures Unowned(RecordPod(topo, pod, Place(), {}))
  {
    hide GroupId.Counts, Requirement.Len;
  }

  lemma PlaceOn(n: Existing, topo: Topo, pod: Pod)
    requires Ours(n) && n.requests.Keys <= {PODS} && Amount(n.requests, PODS) <= 5 &&
      (pod == PodQ() || pod == Relaxing())
    requires pod.spec.Valid() && Tightened(topo, pod, StrictPodRequirements(pod.spec), Place(), {}, Place())
    ensures var n' := NodeWithPod(n, pod, Place());
      Ours(n') && NodeAdded(n, topo, pod, n', RecordPod(topo, pod, Place(), {}))
  {
    hide PodRequirements, StrictPodRequirements, Meet, Place, NodeAdmits, Tightened, RecordPod, PodSpec.Valid;
    FindsRoom(n, pod);
    PlaceStays();
    RequirementsOfPods();
    var n' := NodeWithPod(n, pod, Place());
    assert NodeAddedWith(n, topo, pod, Place(), n', RecordPod(topo, pod, n'.requirements, {}));
  }

  // ----- The run

  ghost function OneNode(topo: Topo): Plan { Plan([FromState(Node(), map[])], [], map[], topo) }

  lemma TheNode()
    ensures Ours(FromState(Node(), map[])) && FromState(Node(), map[]).requests == map[] &&
      FromState(Node(), map[]).pods == []
  {
    NodeRequirementsAre();
  }

  lemma OnTheNode(
    topo: Topo, topo': Topo, n: Existing, n': Existing, pod: Pod, templates: seq<Template>, catalog: Catalog)
    requires pod.spec.Valid() && templates != [] && NodeAdded(n, topo, pod, n', topo')
    ensures Attempted(true, Plan([n], [], map[], topo), pod, templates, catalog, Plan([n'], [], map[], topo'))
  {
    hide NodeAdded;
    var p := Plan([n], [], map[], topo);
    assert NodesRefuse(p, pod, 0) && PutOnNode(p, pod, 0, Plan([n'], [], map[], topo'));
  }

  /** No pool promises a GPU. */
  predicate WithoutGPU(templates: seq<Template>) {
    templates != [] && forall t :: t in templates ==> "gpu" !in t.requirements
  }

  lemma StrictIsDeclined(p: Plan, t: Template, catalog: Catalog)
    requires "gpu" !in t.requirements
    ensures Strict().spec.Valid() && Declined(p, Strict(), t, catalog)
  {
    hide Strict, Registered, OnOffer, PodRequirements, Compatible, Meet;
    var c := Opened(t, "new", OnOffer(p, t.pool, TypesOf(catalog, t.pool)));
    assert "gpu" !in c.requirements by { GPUIsNoHostName(); }
    assert "gpu" !in WELL_KNOWN by { GPUIsNotWellKnown(); }
    NeedsGPU(c.requirements, WELL_KNOWN);
    assert Reordered(p, p) && p == NamedAll(p, []);
    assert Untouched(p, p) && Declines(p, Strict(), t, "new", TypesOf(catalog, t.pool));
  }

  lemma GPUIsNoHostName()
    ensures Normalize(HOSTNAME) == HOSTNAME && "gpu" != HOSTNAME
  {
    HostnameIsCanonical();
    assert "gpu"[0] != HOSTNAME[0];
  }

  lemma GPUIsNotWellKnown()
    ensures "gpu" !in WELL_KNOWN
  {
    assert |"gpu"| == 3 && |NODE_POOL| > 3 && |ZONE| > 3 && |REGION| > 3 && |INSTANCE_TYPE| > 3 && |ARCH| > 3 &&
      |OS| > 3;
    assert |CAPACITY_TYPE| > 3 && |WINDOWS_BUILD| > 3;
  }

  lemma FirstAttempt(topo: Topo, templates: seq<Template>, catalog: Catalog)
    requires WithoutGPU(templates)
    ensures Strict().spec.Valid() && Attempted(false, OneNode(topo), Strict(), templates, catalog, OneNode(topo))
  {
    hide Strict, NodeRefused, FromState, Declined;
    var p := OneNode(topo);
    TheNode();
    StrictIsRefused(p.nodes[0], topo);
    forall t | t in templates ensures Declined(p, Strict(), t, catalog) { StrictIsDeclined(p, t, catalog); }
    assert Reordered(p, p) && p == NamedAll(p, []);
  }

  lemma RelaxesTo(tolerate: bool)
    ensures Relaxed(Strict().spec, tolerate) == Some(Relaxing().spec)
  {
    assert [OnGPU(), InSomeZone()][1..] == [InSomeZone()];
  }

  lemma SharedZone(h: Host, batch: seq<Pod>)
    requires h.reqs == Place() && h.pods == [PodQ(), Relaxing()] && batch == [Strict(), PodQ()]
    ensures !Safe([h], batch)
  {
    hide GroupId.Selects;
    TermSelects();
    assert Strict() in batch && SamePod(Strict(), Relaxing()) && PodQ() in batch && SamePod(PodQ(), PodQ());
    assert InBatch(batch, Relaxing()) && InBatch(batch, PodQ()) && Carries(Relaxing(), Repelled());
    assert Allows(h.reqs, ZONE, "a");
    assert !Apart(h, h, ZONE);
    assert Relaxing() in h.pods && PodQ() in h.pods && Relaxing().uid != PodQ().uid by { assert "p"[0] != "q"[0]; }
  }

  ghost function After(): Topo { Topo(KnownGroups({}), Inverses()) }

  ghost function WithQ(): Plan {
    SpecsAreValid();
    Plan([NodeWithPod(FromState(Node(), map[]), PodQ(), Place())], [], map[], RecordPod(After(), PodQ(), Place(), {}))
  }

  ghost function WithBoth(): Plan {
    SpecsAreValid();
    Plan([NodeWithPod(WithQ().nodes[0], Relaxing(), Place())], [], map[],
      RecordPod(WithQ().topo, Relaxing(), Place(), {}))
  }

  lemma QFits()
    ensures var n := WithQ().nodes[0];
      Ours(n) && n.requests == map[PODS := 1] && n.pods == [PodQ()]
  {
    hide NodeAdmits, Ours, FromState, Place, PodQ, Relaxing, NodeWithPod, RecordPod, PodSpec.Valid;
    TheNode();
    FindsRoom(FromState(Node(), map[]), PodQ());
    assert [] + [PodQ()] == [PodQ()];
  }

  lemma QGoesFirst(templates: seq<Template>, catalog: Catalog)
    requires templates != []
    ensures PodQ().spec.Valid() && Attempted(true, OneNode(After()), PodQ(), templates, catalog, WithQ())
  {
    hide Attempted, RecordPod, NodeAdded, Tightened, StrictPodRequirements, PodQ, Place, Ours, FromState, NodeWithPod,
      KnownGroups, Inverses, PodSpec.Valid;
    RequirementsOfPods();
    QIsTightened();
    TheNode();
    var n := FromState(Node(), map[]);
    PlaceOn(n, After(), PodQ());
    OnTheNode(After(), WithQ().topo, n, WithQ().nodes[0], PodQ(), templates, catalog);
  }

  lemma PFollows(templates: seq<Template>, catalog: Catalog)
    requires templates != []
    ensures Relaxing().spec.Valid() && Attempted(true, WithQ(), Relaxing(), templates, catalog, WithBoth())
  {
    hide Attempted, RecordPod, NodeAdded, Tightened, StrictPodRequirements, PodQ, Relaxing, Place, Ours, FromState,
      NodeWithPod, Unowned, KnownGroups, Inverses, PodSpec.Valid;
    SpecsAreValid();
    QFits();
    NobodyOwns();
    RecordedIsUnowned(After(), PodQ());
    PIsFree(WithQ().topo, StrictPodRequirements(Relaxing().spec));
    PlaceOn(WithQ().nodes[0], WithQ().topo, Relaxing());
    OnTheNode(WithQ().topo, WithBoth().topo, WithQ().nodes[0], WithBoth().nodes[0], Relaxing(), templates, catalog);
  }

  lemma BothInOneZone()
    ensures !Safe(Hosts(WithBoth()), [Strict(), PodQ()])
  {
    hide NodeAdmits, Ours, FromState, Place, PodQ, Relaxing, NodeWithPod, RecordPod, PodSpec.Valid, Safe, Strict;
    QFits();
    var n := WithBoth().nodes[0];
    FindsRoom(WithQ().nodes[0], Relaxing());
    OursIsPlace(n);
    assert [PodQ()] + [Relaxing()] == [PodQ(), Relaxing()];
    assert Hosts(WithBoth()) == [NodeHost(n)];
    SharedZone(NodeHost(n), [Strict(), PodQ()]);
  }

  /**
   The topology is built without an error.  P is refused and relaxed, and the update of the
   topology fails.  Q is placed, then P.  At the end both are on one node, although P
   insists on another zone; this happens in whatever order the terms come.
   */
  lemma FailedUpdateExample(
    orders: seq<bool>, templates: seq<Template>, catalog: Catalog, antiFirst: bool, tolerate: bool)
    requires |orders| == 2 && WithoutGPU(templates)
    ensures Strict().spec.Valid() && Relaxing().spec.Valid() && PodQ().spec.Valid() && AllSpecsValid([Strict(), PodQ()])
    ensures
      var (topo, ok) := InitialTopo([Strict(), PodQ()], orders, [], Zones(), Fails());
      var start := OneNode(RegisteredNodes(topo, [Node()]));
      var (updated, done) := Updated(start.topo, Relaxing(), antiFirst, Zones(), Fails());
      && ok && Attempted(false, start, Strict(), templates, catalog, start)
      && Relaxed(Strict().spec, tolerate) == Some(Relaxing().spec) && !done
      && Attempted(true, start.(topo := updated), PodQ(), templates, catalog, WithQ())
      && Attempted(true, WithQ(), Relaxing(), templates, catalog, WithBoth())
      && !Safe(Hosts(WithBoth()), [Strict(), PodQ()])
    ensures !Followable(Strict(), tolerate, Fails())
  {
    hide Attempted, InitialTopo, Updated, KnownGroups, Inverses, Safe, Relaxed, RegisteredNodes, Strict, Relaxing,
      PodQ, FromState, Followable, WithQ, WithBoth, Hosts, PodSpec.Valid;
    SpecsAreValid();
    Start(orders);
    HostNameIsNoZone();
    SecondUpdate(antiFirst);
    RelaxesTo(tolerate);
    FirstAttempt(Topo(KnownGroups({"p"}), Inverses()), templates, catalog);
    QGoesFirst(templates, catalog);
    PFollows(templates, catalog);
    BothInOneZone();
    NotFollowable(tolerate);
  }

  lemma NobodyOwns()
    ensures Unowned(After())
  {
    hide NewID, OldID;
  }

  lemma OursIsPlace(n: Existing)
    requires Ours(n)
    ensures n.requirements == Place()
  {}

  /** The lookup is one a run of P may need. */
  lemma NotFollowable(tolerate: bool)
    ensures Strict().spec.Valid() && !Followable(Strict(), tolerate, Fails())
  {
    hide Relaxed, NewID, Fails;
    SpecsAreValid();
    RelaxesTo(tolerate);
    assert Strict().(spec := Relaxing().spec) == Relaxing();
    AsksOf(Relaxing(), false);
    assert NewID() == SpreadAsk(Relaxing(), Evenly()).id by { NewIDIs(); }
    FailsAt(NewID());
    assert HardAsks(Relaxing(), false)[0].id == NewID();
    assert HardAsks(Relaxing(), false)[0] in HardAsks(Relaxing(), false);
  }

  lemma NewIDIs()
    ensures Relaxing().spec.Valid() && NewID() == SpreadAsk(Relaxing(), Evenly()).id
  {
    SpecsAreValid();
  }
}
