/**
 A pod that ends up on a node without the label it selects.  The node has no label for the
 kind of its disk.  A first pod asks for anything but a hard disk, for which a node
 without the label will do; from then on the node has a requirement on the label, and a
 second pod that selects a solid-state disk is taken to be compatible with it.
 */
module MissingLabel {
  import opened Common
  import opened Labels
  import opened RequirementAlgebra
  import opened RequirementSets
  import opened Resources
  import opened HostPorts
  import opened Volumes
  import opened Pods
  import opened TopologyGroups
  import opened Topologies
  import opened NodeClaims
  import opened ExistingNodes

  const DISK := "disk"

  function NoHardDisk(): NodeTerm { [Expression(DISK, NotIn, ["hdd"], None)] }

  function PodWith(name: string, selector: map<string, string>, required: Option<seq<NodeTerm>>): Pod {
    Pod(name, PodKey("ns", name), map[], PodSpec(selector, required, [], [], [], [], [], [], []),
        PodResources([], [], None), [], Some(map[]))
  }

  function Picky(): Pod { PodWith("picky", map[], Some([NoHardDisk()])) }

  function Selecting(): Pod { PodWith("selecting", map[DISK := "ssd"], None) }

  function Bare(): NodeSnapshot {
    NodeSnapshot("n", "n", true, map[], [], map[PODS := 10], map[PODS := 10], map[], map[], map[],
      Mounts(map[], map[], map[]))
  }

  function Only(key: string, value: string): Requirement { Requirement(key, false, {value}, None, None, None) }

  function NotHard(): Requirement { Requirement(DISK, true, {"hdd"}, None, None, None) }

  /** The node before, between and after the two placements. */
  function At0(): Requirements { map[HOSTNAME := Only(HOSTNAME, "n")] }

  function At1(): Requirements { map[HOSTNAME := Only(HOSTNAME, "n"), DISK := NotHard()] }

  function At2(): Requirements { map[HOSTNAME := Only(HOSTNAME, "n"), DISK := Only(DISK, "ssd")] }

  function Nobody(): Topo { Topo(map[], map[]) }

  lemma DiskIsCanonical()
    ensures Canonical(DISK) && Normalize(DISK) == DISK && DISK != HOSTNAME
  {
    assert |DISK| == 4 && |HOSTNAME| > 4;
  }

  lemma NodeStartsBare()
    ensures NodeRequirements(Bare()) == At0()
  {
    HostnameIsCanonical();
    assert LabelRequirements(map[]) == map[];
    assert Elements(["n"]) == {"n"};
  }

  lemma SpecsAreValid()
    ensures Picky().spec.Valid() && Selecting().spec.Valid()
  {}

  lemma RequirementsOfPods()
    ensures Picky().spec.Valid() && Selecting().spec.Valid()
    ensures PodRequirements(Picky().spec) == map[DISK := NotHard()] == StrictPodRequirements(Picky().spec)
    ensures PodRequirements(Selecting().spec) == map[DISK := Only(DISK, "ssd")]
    ensures StrictPodRequirements(Selecting().spec) == map[DISK := Only(DISK, "ssd")]
  {
    DiskIsCanonical();
    SpecsAreValid();
    var e := NoHardDisk()[0];
    assert Elements(["hdd"]) == {"hdd"};
    assert RequirementList(NoHardDisk()) == [NotHard()];
    assert [NotHard()][1..] == [];
    assert Folded(NoHardDisk()) == AddAll(Add(map[], NotHard()), []) == map[DISK := NotHard()];
    assert LabelRequirements(map[]) == map[];
    var labels := map[DISK := "ssd"];
    assert labels[DISK] == "ssd" && CanonicalKeys(labels) == {DISK};
    assert AgreedValues(labels, DISK) == {"ssd"};
    assert LabelRequirements(labels) == map[DISK := Only(DISK, "ssd")];
  }

  lemma Intersections()
    ensures Only(DISK, "ssd").Intersection(NotHard()) == Only(DISK, "ssd")
    ensures NotHard().Intersection(Only(DISK, "ssd")) == Only(DISK, "ssd")
    ensures NotHard().Intersection(NotHard()) == NotHard()
    ensures forall k, v :: Only(k, v).Intersection(Only(k, v)) == Only(k, v)
    ensures NotHard().AllowsAbsence() && NotHard().Len() != 0 && !Only(DISK, "ssd").AllowsAbsence()
    ensures forall k, v :: Only(k, v).Len() == 1
  {
    assert "ssd"[0] != "hdd"[0];
    assert {"ssd"} - {"hdd"} == {"ssd"};
    assert (set v | v in {"ssd"} && Within(v, None, None)) == {"ssd"};
    assert (set v | v in {"hdd"} && Within(v, None, None)) == {"hdd"};
    assert {"hdd"} + {"hdd"} == {"hdd"};
    forall k, v ensures Only(k, v).Intersection(Only(k, v)) == Only(k, v) {
      assert {v} * {v} == {v};
      assert (set x | x in {v} && Within(x, None, None)) == {v};
    }
  }

  lemma NodeStays()
    ensures Meet(At0(), map[DISK := NotHard()]) == At1() && Meet(At1(), At1()) == At1()
    ensures Meet(At1(), map[DISK := Only(DISK, "ssd")]) == At2() && Meet(At2(), At2()) == At2()
    ensures Compatible(At0(), map[DISK := NotHard()], {}) && Compatible(At1(), At1(), {})
    ensures Compatible(At1(), map[DISK := Only(DISK, "ssd")], {}) && Compatible(At2(), At2(), {})
    ensures !Compatible(At0(), map[DISK := Only(DISK, "ssd")], {})
  {
    hide Requirement.Intersection, Requirement.Len, Requirement.AllowsAbsence;
    DiskIsCanonical();
    Intersections();
    var selected := map[DISK := Only(DISK, "ssd")];
    assert DISK in selected && DISK !in At0() && !selected[DISK].AllowsAbsence();
  }

  /** Without groups the topology asks for nothing. */
  lemma NothingAsked(pod: Pod, strict: Requirements, reqs: Requirements)
    ensures Tightened(Nobody(), pod, strict, reqs, {}, reqs) && RecordPod(Nobody(), pod, reqs, {}) == Nobody()
  {
    assert TightenedBy(Nobody(), pod, strict, reqs, {}, reqs, [], []);
  }

  lemma OnePodEach(pod: Pod)
    requires pod == Picky() || pod == Selecting()
    ensures pod.Requests() == map[PODS := 1]
  {
    var none := PodResources([], [], None);
    assert PodRequests(none) == map[];
    var nothing: ResourceList := map[];
    assert AllRequests([none]) == [nothing];
    assert [nothing][..0] == [];
    assert Merge([nothing]) == Plus(nothing, nothing) == nothing;
  }

  function Empty(): Existing { FromState(Bare(), map[]) }

  /** The node has room for a pod that its requirements suit. */
  predicate HasRoom(n: Existing) {
    && n.node == Bare() && n.mounts == Mounts(map[], n.mounts.podVolumes, map[]) && n.requests.Keys <= {PODS}
    && Amount(n.requests, PODS) <= 1 && forall k :: k in n.reserved ==> n.reserved[k] == []
  }

  lemma ResourcesFit(n: Existing, pod: Pod)
    requires HasRoom(n) && (pod == Picky() || pod == Selecting())
    ensures var requests := Plus(n.requests, pod.Requests());
      && requests == map[PODS := Amount(n.requests, PODS) + 1] && Fits(requests, n.Available())
  {
    hide Pod.Requests;
    OnePodEach(pod);
    assert n.Available() == map[PODS := 10];
  }

  lemma FindsRoom(n: Existing, pod: Pod, reqs: Requirements)
    requires HasRoom(n) && (pod == Picky() || pod == Selecting()) && pod.spec.Valid()
    requires Compatible(n.requirements, PodRequirements(pod.spec), {})
    requires reqs == Meet(n.requirements, PodRequirements(pod.spec)) && Meet(reqs, reqs) == reqs
    requires Compatible(reqs, reqs, {})
    ensures exists n' ::
      && NodeAdded(n, Nobody(), pod, n', Nobody()) && n'.requirements == reqs
      && n'.pods == n.pods + [pod] && n'.node == n.node && (Amount(n.requests, PODS) == 0 ==> HasRoom(n'))
  {
    hide PodRequirements, StrictPodRequirements, Compatible, Meet, Tightened, PodSpec.Valid, Fits, Plus, RecordPod,
      Existing.Available, Pod.Requests;
    ResourcesFit(n, pod);
    NothingAsked(pod, StrictPodRequirements(pod.spec), reqs);
    assert Union(map[], map[]) == map[];
    var n' := NodeWithPod(n, pod, reqs);
    assert NodeAddedWith(n, Nobody(), pod, reqs, n', Nobody());
  }

  /** Both pods are placed, though the node does not have the label that the second one selects. */
  lemma MissingLabelExample()
    ensures Picky().spec.Valid() && Selecting().spec.Valid()
    ensures exists n1, n2 ::
      && NodeAdded(Empty(), Nobody(), Picky(), n1, Nobody()) && NodeAdded(n1, Nobody(), Selecting(), n2, Nobody())
      && Selecting() in n2.pods && n2.node.labels == map[]
      && !Compatible(NodeRequirements(n2.node), PodRequirements(Selecting().spec), {})
  {
    hide PodRequirements, Meet, Compatible, NodeAdded, At0, At1, At2, NodeRequirements;
    NodeStartsBare();
    RequirementsOfPods();
    NodeStays();
    assert RemainingDaemons(map[], map[]) == map[];
    FindsRoom(Empty(), Picky(), At1());
    var n1 :| NodeAdded(Empty(), Nobody(), Picky(), n1, Nobody()) && n1.requirements == At1() &&
      n1.pods == [] + [Picky()] && n1.node == Bare() && HasRoom(n1);
    FindsRoom(n1, Selecting(), At2());
    var n2 :| NodeAdded(n1, Nobody(), Selecting(), n2, Nobody()) && n2.requirements == At2() &&
      n2.pods == n1.pods + [Selecting()] && n2.node == n1.node;
  }
}
