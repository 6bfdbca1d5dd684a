/**
 Topology spread over a whole run.  As long as the pods a spread constraint selects are
 those that carry it, and they allow the same domains, the counts of those domains never
 differ by more than `maxSkew`, whatever else is placed, opened or relaxed in between.
 */
module SpreadSafety {
  import opened Common
  import opened Labels
  import opened RequirementAlgebra
  import opened RequirementSets
  import opened Resources
  import opened HostPorts
  import opened Pods
  import opened PreferenceRelaxation
  import opened TopologyGroups
  import opened Topologies
  import opened AntiAffinitySafety
  import opened RelaxedLookups
  import opened NodeClaims
  import opened ExistingNodes
  import opened NodePoolLimits
  import opened Plans
  import opened Scheduling
  import opened SchedulerSetup
  import opened Solving
  import opened PlanMoves
  import opened GivenPods

  /**
   The counts of the eligible domains are within the skew; for host names, of which there can
   always be a new one, of zero.
   */
  predicate EvenGroup(g: Group, eligible: Requirement) {
    if g.id.key == HOSTNAME then forall d :: d in Supported(g, eligible) ==> g.Count(d) <= g.id.maxSkew
    else SkewAtMost(g, Supported(g, eligible), g.id.maxSkew)
  }

  lemma EvenIsWithinSkew(g: Group, eligible: Requirement)
    requires EvenGroup(g, eligible)
    ensures SkewAtMost(g, Supported(g, eligible), g.id.maxSkew)
  {}

  ghost predicate SameDomains(a: Requirement, b: Requirement) { forall v :: a.Has(v) <==> b.Has(v) }

  // ----- One placement

  lemma SameSupport(g: Group, a: Requirement, b: Requirement)
    requires SameDomains(a, b)
    ensures Supported(g, a) == Supported(g, b)
  {
    hide Requirement.Has;
  }

  /** A selected pod goes to the domain chosen for it. */
  lemma ChosenKeepsEven(
    g: Group, pod: Pod, podDomains: Requirement, nodeDomains: Requirement, d: string, eligible: Requirement)
    requires EvenGroup(g, eligible) && SameDomains(podDomains, eligible) && g.id.Selects(pod)
    requires forall v :: nodeDomains.Has(v) ==> podDomains.Has(v)
    requires SpreadChoice(g, pod, podDomains, nodeDomains, AnyOf(podDomains.key, {d}))
    ensures EvenGroup(g.Record({d}), eligible)
  {
    hide Requirement.Has, SkewAtMost, GroupId.Selects, Group.Record;
    SameSupport(g, podDomains, eligible);
    SameSupport(g.Record({d}), podDomains, eligible);
    assert g.Record({d}).id == g.id by { CountsOnly(g, {d}); }
    if g.id.key == HOSTNAME {
      var m: int :| IsMinCount(g, podDomains, m) &&
        SpreadChoiceAt(g, pod, podDomains.key, nodeDomains, m, AnyOf(podDomains.key, {d}));
      ChosenIsLeastAdmissible(g, pod, podDomains.key, nodeDomains, m, d);
      RecordOnHost(g, d, podDomains);
    } else {
      assert PlaceAndRecord(g, podDomains, g.Record({d}));
      PlacementKeepsSkew(g, podDomains, g.Record({d}));
    }
  }

  lemma RecordOnHost(g: Group, d: string, eligible: Requirement)
    requires d in g.domains && g.Count(d) + 1 <= g.id.maxSkew
    requires forall e :: e in Supported(g, eligible) ==> g.Count(e) <= g.id.maxSkew
    ensures var g' := g.Record({d}); forall e :: e in Supported(g', eligible) ==> g'.Count(e) <= g'.id.maxSkew
  {
    hide Requirement.Has;
  }

  lemma GetAllows(m: Requirements, key: string, v: string)
    requires WellFormed(m)
    ensures Get(m, key).Has(v) <==> Allows(m, key, v)
    ensures Canonical(key) ==> Get(m, key).key == key
  {}

  /** The topology sends a pod that owns a spread group to one domain chosen for it. */
  lemma TightenedIsChosen(
    t: Topo, pod: Pod, strict: Requirements, nodeReqs: Requirements, allow: set<string>, out: Requirements, id: GroupId)
    returns (d: string)
    requires WellFormed(strict) && WellFormed(nodeReqs) && Tightened(t, pod, strict, nodeReqs, allow, out)
    requires WellKeyed(t.topologies) && OwnedIn(t.topologies, id, pod.uid) && id.kind.Spread? && Canonical(id.key)
    ensures SpreadChoice(t.topologies[id], pod, Get(strict, id.key), Get(nodeReqs, id.key), AnyOf(id.key, {d}))
    ensures WellFormed(out) && Finite(out, id.key) && forall v :: Allows(out, id.key, v) ==> v == d
  {
    hide Requirement.Has, FilterMatches, SpreadChoiceAt;
    var refs: seq<Ref>, rs: seq<Requirement> :| TightenedBy(t, pod, strict, nodeReqs, allow, out, refs, rs);
    DemandsAreNormal(t, pod, strict, nodeReqs, allow, out, refs, rs);
    AddAllIsWellFormed(nodeReqs, rs);
    assert Matching(t, pod, nodeReqs, allow, Direct(id));
    var i :| 0 <= i < |refs| && refs[i] == Direct(id);
    GetAllows(strict, id.key, "");
    d := ChosenDomain(t.topologies[id], pod, Get(strict, id.key), Get(nodeReqs, id.key), rs[i]);
    AddAllFinite(nodeReqs, rs, i);
    forall v | Allows(out, id.key, v) ensures v == d {
      AddAllAllows(nodeReqs, rs, id.key, v);
      OnlyOne(id.key, d, v);
    }
  }

  lemma OnlyOne(key: string, d: string, v: string)
    requires AnyOf(key, {d}).Has(v)
    ensures v == d
  {}

  lemma ChosenDomain(g: Group, pod: Pod, podDomains: Requirement, nodeDomains: Requirement, r: Requirement)
    returns (d: string)
    requires SpreadChoice(g, pod, podDomains, nodeDomains, r) && r.Len() != 0
    ensures r == AnyOf(podDomains.key, {d})
  {
    hide LeastAdmissible, Admissible, IsMinCount;
    var m: int :| IsMinCount(g, podDomains, m) && SpreadChoiceAt(g, pod, podDomains.key, nodeDomains, m, r);
    d :| d != "" && LeastAdmissible(g, pod, nodeDomains, m, d) && r == AnyOf(podDomains.key, {d});
  }

  /** A finite requirement confined to one value is that value or nothing. */
  lemma ConfinedValues(m: Requirements, key: string, d: string)
    requires WellFormed(m) && Finite(m, key) && forall v :: Allows(m, key, v) ==> v == d
    ensures Get(m, key).Len() == 1 ==> Get(m, key).values == {d}
  {
    var r := m[key];
    if r.Len() == 1 {
      var v :| v in r.values;
      assert r.values == {v} by { SingletonOf(r.values, v); }
      assert r.Has(v) && Allows(m, key, v);
    }
  }

  lemma SingletonOf(s: set<string>, v: string)
    requires v in s && |s| == 1
    ensures s == {v}
  {
    assert |s - {v}| == 0;
    assert s == s - {v} + {v};
  }

  /** A placement through the topology keeps a spread group even. */
  lemma RecordedStaysEven(
    t: Topo, pod: Pod, strict: Requirements, nodeReqs: Requirements, allow: set<string>, out: Requirements,
      id: GroupId, eligible: Requirement)
    requires WellFormed(strict) && WellFormed(nodeReqs) && Narrows(nodeReqs, strict) &&
      Tightened(t, pod, strict, nodeReqs, allow, out)
    requires WellKeyed(t.topologies) && id in t.topologies && id.kind.Spread? && Canonical(id.key) &&
      EvenGroup(t.topologies[id], eligible)
    requires id.Selects(pod) ==> OwnedIn(t.topologies, id, pod.uid) && SameDomains(Get(strict, id.key), eligible)
    ensures EvenGroup(RecordDirect(t.topologies[id], pod, Meet(nodeReqs, out), allow), eligible)
  {
    hide EvenGroup, Tightened, FilterMatches, Requirement.Has, GroupId.Selects, Requirement.Len, SpreadChoice, Narrows,
      SameDomains;
    var g, after := t.topologies[id], Meet(nodeReqs, out);
    if id.Counts(pod, after, allow) {
      var d := TightenedIsChosen(t, pod, strict, nodeReqs, allow, out, id);
      assert WellFormed(after) && Finite(after, id.key) && (forall v :: Allows(after, id.key, v) ==> v == d) by {
        MeetIsWellFormed(nodeReqs, out);
        MeetFinite(nodeReqs, out, id.key);
        forall v | Allows(after, id.key, v) ensures v == d { MeetAllows(nodeReqs, out, id.key, v); }
      }
      ConfinedValues(after, id.key, d);
      assert forall v :: Get(nodeReqs, id.key).Has(v) ==> Get(strict, id.key).Has(v) by {
        NarrowerDomains(nodeReqs, strict, id.key);
      }
      assert Get(strict, id.key).key == id.key by { GetAllows(strict, id.key, ""); }
      ChosenKeepsEven(g, pod, Get(strict, id.key), Get(nodeReqs, id.key), d, eligible);
    }
  }

  lemma NarrowerDomains(nodeReqs: Requirements, strict: Requirements, key: string)
    requires WellFormed(nodeReqs) && WellFormed(strict) && Narrows(nodeReqs, strict)
    ensures forall v :: Get(nodeReqs, key).Has(v) ==> Get(strict, key).Has(v)
  {
    hide Requirement.Has;
    forall v | Get(nodeReqs, key).Has(v) ensures Get(strict, key).Has(v) {
      GetAllows(nodeReqs, key, v);
      GetAllows(strict, key, v);
    }
  }

  /** A preference only narrows what a pod insists on. */
  lemma PodRequirementsNarrow(spec: PodSpec)
    requires spec.Valid()
    ensures Narrows(PodRequirements(spec), StrictPodRequirements(spec))
  {
    hide HeaviestPreference, Folded, LabelRequirements, Meet;
    var base, preference := LabelRequirements(spec.nodeSelector), HeaviestPreference(spec);
    forall k, v | Allows(PodRequirements(spec), k, v) ensures Allows(StrictPodRequirements(spec), k, v) {
      if preference.Some? {
        MeetAllows(base, Folded(preference.value), k, v);
      }
      if spec.required.Some? && spec.required.value != [] {
        var wanted := if preference.Some? then Meet(base, Folded(preference.value)) else base;
        MeetAllows(wanted, Folded(spec.required.value[0]), k, v);
        MeetAllows(base, Folded(spec.required.value[0]), k, v);
      }
    }
  }

  // ----- One attempt

  /** The group is known and even. */
  ghost predicate Even(topo: Topo, id: GroupId, eligible: Requirement) {
    && AllConsistent(topo.topologies) && AllConsistent(topo.inverse)
    && id in topo.topologies && EvenGroup(topo.topologies[id], eligible)
  }

  /** If the constraint selects the pod, the pod carries it and allows exactly the eligible domains. */
  ghost predicate Carried(topo: Topo, pod: Pod, id: GroupId, eligible: Requirement)
    requires pod.spec.Valid()
  {
    id.Selects(pod) ==>
      OwnedIn(topo.topologies, id, pod.uid) && SameDomains(Get(StrictPodRequirements(pod.spec), id.key), eligible)
  }

  predicate SpreadOn(id: GroupId) { id.kind.Spread? && Canonical(id.key) }

  lemma PlacedStaysEven(
    topo: Topo, pod: Pod, reqs: Requirements, allow: set<string>, out: Requirements, after: Requirements, id: GroupId,
      eligible: Requirement)
    requires pod.spec.Valid() && WellFormed(reqs) && SpreadOn(id) && Even(topo, id, eligible) &&
      Carried(topo, pod, id, eligible)
    requires Tightened(topo, pod, StrictPodRequirements(pod.spec), Meet(reqs, PodRequirements(pod.spec)), allow, out)
    requires after == Meet(Meet(reqs, PodRequirements(pod.spec)), out)
    ensures Even(RecordPod(topo, pod, after, allow), id, eligible) &&
      SameOwners(topo, RecordPod(topo, pod, after, allow))
  {
    hide Tightened, Meet, PodRequirements, StrictPodRequirements, EvenGroup, RecordDirect, RecordInverse,
      AllConsistent, Carried, SameDomains;
    var strict, podReqs := StrictPodRequirements(pod.spec), PodRequirements(pod.spec);
    PodRequirementsPlain(pod.spec);
    MeetIsWellFormed(reqs, podReqs);
    assert Narrows(Meet(reqs, podReqs), strict) by {
      MeetNarrows(reqs, podReqs);
      PodRequirementsNarrow(pod.spec);
      NarrowsFurther(Meet(reqs, podReqs), podReqs, strict);
    }
    assert WellKeyed(topo.topologies) by { ConsistentIsKeyed(topo.topologies); }
    CarriedMeans(topo, pod, id, eligible);
    RecordedStaysEven(topo, pod, strict, Meet(reqs, podReqs), allow, out, id, eligible);
    RecordGrows(topo, pod, after, allow);
    RecordSameOwners(topo, pod, after, allow);
  }

  lemma ConsistentIsKeyed(gs: Groups)
    requires AllConsistent(gs)
    ensures WellKeyed(gs)
  {}

  lemma CarriedMeans(topo: Topo, pod: Pod, id: GroupId, eligible: Requirement)
    requires pod.spec.Valid() && Carried(topo, pod, id, eligible)
    ensures id.Selects(pod) ==>
              OwnedIn(topo.topologies, id, pod.uid) &&
                SameDomains(Get(StrictPodRequirements(pod.spec), id.key), eligible)
  {}

  /** A new host name has no pods yet. */
  lemma RegisteredStaysEven(topo: Topo, hostname: string, id: GroupId, eligible: Requirement)
    requires Even(topo, id, eligible) && id.maxSkew >= 0
    ensures Even(Registered(topo, HOSTNAME, hostname), id, eligible) &&
      SameOwners(topo, Registered(topo, HOSTNAME, hostname))
  {
    hide SkewAtMost, Requirement.Has;
    HostnameIsCanonical();
    assert WellKeyed(topo.topologies);
    RegisterGrows(topo.topologies, HOSTNAME, hostname);
    RegisterGrows(topo.inverse, HOSTNAME, hostname);
  }

  lemma {:induction false} NamedStaysEven(p: Plan, hostnames: seq<string>, id: GroupId, eligible: Requirement)
    requires Even(p.topo, id, eligible) && id.maxSkew >= 0
    ensures Even(NamedAll(p, hostnames).topo, id, eligible) && SameOwners(p.topo, NamedAll(p, hostnames).topo)
  {
    hide Even, Registered;
    if hostnames != [] {
      var n := |hostnames| - 1;
      NamedStaysEven(p, hostnames[..n], id, eligible);
      RegisteredStaysEven(NamedAll(p, hostnames[..n]).topo, hostnames[n], id, eligible);
    }
  }

  lemma UntouchedStaysEven(p: Plan, p': Plan, id: GroupId, eligible: Requirement)
    requires Untouched(p, p') && Even(p.topo, id, eligible) && id.maxSkew >= 0
    ensures Even(p'.topo, id, eligible) && SameOwners(p.topo, p'.topo)
  {
    hide Even, NamedAll;
    var p1, hostnames :| Reordered(p, p1) && p' == NamedAll(p1, hostnames);
    NamedStaysEven(p1, hostnames, id, eligible);
  }

  lemma SameOwnersCarried(topo: Topo, topo': Topo, pod: Pod, id: GroupId, eligible: Requirement)
    requires pod.spec.Valid() && SameOwners(topo, topo') && Carried(topo, pod, id, eligible)
    ensures Carried(topo', pod, id, eligible)
  {
    hide SameDomains, StrictPodRequirements;
  }

  lemma OnNodeStaysEven(
    n: Existing, topo: Topo, pod: Pod, n': Existing, topo': Topo, id: GroupId, eligible: Requirement)
    requires NodeInv(n) && pod.spec.Valid() && NodeAdded(n, topo, pod, n', topo')
    requires SpreadOn(id) && Even(topo, id, eligible) && Carried(topo, pod, id, eligible)
    ensures Even(topo', id, eligible) && SameOwners(topo, topo')
  {
    hide Even, Carried, Tightened, Meet, PodRequirements, StrictPodRequirements, NodeInv, SpreadOn, SameOwners,
      RecordPod, NodeAdmits;
    var out :| NodeAddedWith(n, topo, pod, out, n', topo');
    NodeIsWellFormed(n);
    assert pod.volumes.Some? by { AdmittedHasVolumes(n, pod, out); }
    PlacedStaysEven(topo, pod, n.requirements, {}, out, n'.requirements, id, eligible);
  }

  lemma OnClaimStaysEven(c: Claim, topo: Topo, pod: Pod, c': Claim, topo': Topo, id: GroupId, eligible: Requirement)
    requires ClaimInv(c) && pod.spec.Valid() && Added(c, topo, pod, c', topo')
    requires SpreadOn(id) && Even(topo, id, eligible) && Carried(topo, pod, id, eligible)
    ensures Even(topo', id, eligible) && SameOwners(topo, topo')
  {
    hide Even, Carried, Tightened, Meet, PodRequirements, StrictPodRequirements, ClaimInv, SpreadOn, SameOwners,
      RecordPod, Admits, Remaining;
    var out :| AddedWith(c, topo, pod, out, c', topo');
    ClaimIsWellFormed(c);
    PlacedStaysEven(topo, pod, c.requirements, WELL_KNOWN, out, c'.requirements, id, eligible);
  }

  /** An attempt keeps the group even and its owners the same, whether or not the pod is placed. */
  lemma AttemptStaysEven(
    ok: bool, p: Plan, pod: Pod, templates: seq<Template>, catalog: Catalog, p': Plan, start: Budgets, id: GroupId,
      eligible: Requirement)
    requires pod.spec.Valid() && PlanInv(p, start) && Attempted(ok, p, pod, templates, catalog, p')
    requires forall t :: t in templates ==> ValidTemplate(t)
    requires SpreadOn(id) && id.maxSkew >= 0 && Even(p.topo, id, eligible) && Carried(p.topo, pod, id, eligible)
    ensures Even(p'.topo, id, eligible) && SameOwners(p.topo, p'.topo)
  {
    hide NodeInv, ClaimInv, LimitInv, Even, Carried, SpreadOn, SameOwners, NodeAdded, Added, Untouched, NoRoom,
      ValidTemplate, Opened, Registered;
    if Untouched(p, p') && NoRoom(p, pod) && (ok <==> templates == []) {
      UntouchedStaysEven(p, p', id, eligible);
    } else if PlacedOnNode(p, pod, p') {
      var i: nat :| NodesRefuse(p, pod, i) && PutOnNode(p, pod, i, p');
      OnNodeStaysEven(p.nodes[i], p.topo, pod, p'.nodes[i], p'.topo, id, eligible);
    } else if PlacedOnClaim(p, pod, p') {
      var p1, i: nat :|
        Reordered(p, p1) && FewestFirst(p1.claims) && ClaimsRefuse(p1, pod, i) && PutOnClaim(p1, pod, i, p');
      PermutationMembers(p.claims, p1.claims);
      assert p1.claims[i] in p1.claims;
      OnClaimStaysEven(p1.claims[i], p1.topo, pod, p'.claims[i], p'.topo, id, eligible);
    } else {
      NewStaysEven(p, pod, templates, catalog, p', id, eligible);
    }
  }

  lemma NewStaysEven(
    p: Plan, pod: Pod, templates: seq<Template>, catalog: Catalog, p': Plan, id: GroupId, eligible: Requirement)
    requires pod.spec.Valid() && PlacedOnNew(p, pod, templates, catalog, p') &&
      forall t :: t in templates ==> ValidTemplate(t)
    requires SpreadOn(id) && id.maxSkew >= 0 && Even(p.topo, id, eligible) && Carried(p.topo, pod, id, eligible)
    ensures Even(p'.topo, id, eligible) && SameOwners(p.topo, p'.topo)
  {
    hide ClaimInv, Even, Carried, SpreadOn, SameOwners, Added, Untouched, ValidTemplate, Opened, Registered;
    var p1, i: nat, hostname :|
      && Untouched(p, p1) && i < |templates| && AllDeclined(p, pod, templates[..i], catalog) && FreshName(p1, hostname)
      && PutOnNew(p1, pod, templates[i], hostname, TypesOf(catalog, templates[i].pool), p');
    var t := templates[i];
    UntouchedStaysEven(p, p1, id, eligible);
    var named, its := Registered(p1.topo, HOSTNAME, hostname), OnOffer(p1, t.pool, TypesOf(catalog, t.pool));
    RegisteredStaysEven(p1.topo, hostname, id, eligible);
    OwnersTwice(p.topo, p1.topo, named);
    SameOwnersCarried(p.topo, named, pod, id, eligible);
    OpenedInv(t, hostname, its);
    OnClaimStaysEven(Opened(t, hostname, its), named, pod, p'.claims[|p1.claims|], p'.topo, id, eligible);
    OwnersTwice(p.topo, named, p'.topo);
  }

  // ----- Over a run

  /** The pod still asks for the group, and all its groups can be counted. */
  predicate KeepsAsking(pod: Pod, id: GroupId, lookup: Lookup)
    requires pod.spec.Valid()
  {
    CanOwn(map[], Asks(pod, false), lookup) && exists a :: a in Asks(pod, false) && a.id == id
  }

  predicate OwnedByAll(topo: Topo, id: GroupId, owners: set<UID>) {
    forall u :: u in owners ==> OwnedIn(topo.topologies, id, u)
  }

  /** An update changes no counts, and an owner that keeps asking stays one. */
  lemma UpdateStaysEven(
    topo: Topo, pod: Pod, antiFirst: bool, universe: Universe, lookup: Lookup, id: GroupId, eligible: Requirement,
      owners: set<UID>)
    requires pod.spec.Valid() && Even(topo, id, eligible) && OwnedByAll(topo, id, owners)
    requires pod.uid in owners ==> KeepsAsking(pod, id, lookup)
    ensures var t := Updated(topo, pod, antiFirst, universe, lookup).0;
      Even(t, id, eligible) && OwnedByAll(t, id, owners)
  {
    hide Updated, AllConsistent, KeepsAsking, SkewAtMost, Requirement.Has;
    var t := Updated(topo, pod, antiFirst, universe, lookup).0;
    UpdateKeeps(topo, pod, antiFirst, universe, lookup);
    ConsistentIsKeyed(topo.topologies);
    ConsistentIsKeyed(t.topologies);
    SameCountsEven(topo.topologies[id], t.topologies[id], eligible);
    if pod.uid in owners {
      StaysOwner(topo, pod, antiFirst, universe, lookup, id);
    }
  }

  lemma SameCountsEven(g: Group, g': Group, eligible: Requirement)
    requires g'.id == g.id && g'.domains == g.domains && EvenGroup(g, eligible)
    ensures EvenGroup(g', eligible)
  {
    hide Requirement.Has;
    assert Supported(g', eligible) == Supported(g, eligible);
    assert forall d :: g'.Count(d) == g.Count(d);
  }

  lemma StaysOwner(topo: Topo, pod: Pod, antiFirst: bool, universe: Universe, lookup: Lookup, id: GroupId)
    requires pod.spec.Valid() && AllConsistent(topo.topologies) && KeepsAsking(pod, id, lookup)
    ensures OwnedIn(Updated(topo, pod, antiFirst, universe, lookup).0.topologies, id, pod.uid)
  {
    hide OwnAsked, OwnInverse, OwnedIn, Asks, AllConsistent, Disown;
    var gs, asks := Disown(topo.topologies, pod.uid), Asks(pod, antiFirst);
    DisownKeeps(topo.topologies, pod.uid);
    var a :| a in Asks(pod, false) && a.id == id;
    EitherOrder(pod, antiFirst);
    var i :| 0 <= i < |asks| && asks[i] == a;
    assert CanOwn(gs, asks[..i + 1], lookup);
    OwnedIff(gs, asks, pod.uid, universe, lookup, id);
  }

  /** The step is about a pod that the constraint treats as one of its own, or not at all. */
  ghost predicate Steady(step: Step, around: Circumstances, id: GroupId, eligible: Requirement, owners: set<UID>) {
    step.pod.spec.Valid() ==>
      && (id.Selects(step.pod) ==>
            step.pod.uid in owners && SameDomains(Get(StrictPodRequirements(step.pod.spec), id.key), eligible))
      && (step.outcome.Relaxing? && step.pod.uid in owners && Relaxed(step.pod.spec, around.tolerate).Some? ==>
            var relaxed := step.pod.(spec := Relaxed(step.pod.spec, around.tolerate).value);
            relaxed.spec.Valid() ==> KeepsAsking(relaxed, id, around.lookup))
  }

  lemma StepStaysEven(
    p: Plan, step: Step, p': Plan, around: Circumstances, start: Budgets, id: GroupId, eligible: Requirement,
      owners: set<UID>)
    requires Leads(p, step, p', around) && Steady(step, around, id, eligible, owners) && PlanInv(p, start)
    requires forall t :: t in around.templates ==> ValidTemplate(t)
    requires forall pool :: pool in around.catalog ==> Physical(around.catalog[pool])
    requires SpreadOn(id) && id.maxSkew >= 0 && Even(p.topo, id, eligible) && OwnedByAll(p.topo, id, owners)
    ensures PlanInv(p', start) && Even(p'.topo, id, eligible) && OwnedByAll(p'.topo, id, owners)
  {
    hide Attempted, PlanInv, Even, Updated, Relaxed, KeepsAsking, SpreadOn, ValidTemplate, Physical, SameDomains,
      StrictPodRequirements, PodSpec.Valid, Separated, PlacedPods;
    var ok, tried := step.outcome.Done?, step.tried;
    assert Carried(p.topo, step.pod, id, eligible);
    AttemptKeeps(ok, p, step.pod, around.templates, around.catalog, tried, start, []);
    AttemptStaysEven(ok, p, step.pod, around.templates, around.catalog, tried, start, id, eligible);
    assert OwnedByAll(tried.topo, id, owners);
    if step.outcome.Relaxing? {
      var relaxed := step.pod.(spec := Relaxed(step.pod.spec, around.tolerate).value);
      UpdateStaysEven(tried.topo, relaxed, step.antiFirst, around.universe, around.lookup, id, eligible, owners);
      UpdateKeepsPlan(tried, p'.topo, start);
    }
  }

  lemma UpdateKeepsPlan(p: Plan, topo: Topo, start: Budgets)
    requires PlanInv(p, start)
    ensures PlanInv(p.(topo := topo), start)
  {}

  /**
   Over a whole run the group stays even: if the pods the constraint selects are owners of
   the group from the start, allow the eligible domains, and still ask for the group after
   a relaxation, the counts of eligible domains never differ by more than the skew.
   */
  lemma {:induction false} RunStaysEven(
    plans: seq<Plan>, steps: seq<Step>, around: Circumstances, start: Budgets, id: GroupId, eligible: Requirement,
      owners: set<UID>, n: nat)
    requires |plans| == |steps| + 1 && Traced(plans, steps, around) && n < |plans| && PlanInv(plans[0], start)
    requires forall t :: t in around.templates ==> ValidTemplate(t)
    requires forall pool :: pool in around.catalog ==> Physical(around.catalog[pool])
    requires SpreadOn(id) && id.maxSkew >= 0 && Even(plans[0].topo, id, eligible) &&
      OwnedByAll(plans[0].topo, id, owners)
    requires forall i :: 0 <= i < |steps| ==> Steady(steps[i], around, id, eligible, owners)
    ensures PlanInv(plans[n], start) && Even(plans[n].topo, id, eligible) && OwnedByAll(plans[n].topo, id, owners)
    ensures var g := plans[n].topo.topologies[id]; SkewAtMost(g, Supported(g, eligible), id.maxSkew)
  {
    hide Leads, PlanInv, OwnedByAll, Steady, SpreadOn, ValidTemplate, Physical, EvenGroup;
    if n > 0 {
      RunStaysEven(plans, steps, around, start, id, eligible, owners, n - 1);
      assert Leads(plans[n - 1], steps[n - 1], plans[n - 1 + 1], around);
      StepStaysEven(plans[n - 1], steps[n - 1], plans[n], around, start, id, eligible, owners);
    }
    ConsistentIsKeyed(plans[n].topo.topologies);
    EvenIsWithinSkew(plans[n].topo.topologies[id], eligible);
  }

  // ----- What that takes of the given pods

  /** However the pod is relaxed, it allows the eligible domains and asks for the group. */
  ghost predicate Devoted(o: Pod, id: GroupId, eligible: Requirement, tolerate: bool, lookup: Lookup) {
    forall spec :: Reaches(o.spec, spec, tolerate) && spec.Valid() ==>
      SameDomains(Get(StrictPodRequirements(spec), id.key), eligible) && KeepsAsking(o.(spec := spec), id, lookup)
  }

  /** The pods that the constraint selects are of the batch and devoted to the group. */
  ghost predicate AllDevoted(
    given: seq<Pod>, batch: seq<Pod>, id: GroupId, eligible: Requirement, tolerate: bool, lookup: Lookup)
  {
    forall o :: o in given && id.Selects(o) ==> o in batch && Devoted(o, id, eligible, tolerate, lookup)
  }

  function SelectedOwners(batch: seq<Pod>, id: GroupId): set<UID> { set o | o in batch && id.Selects(o) :: o.uid }

  lemma DevotedMeans(o: Pod, id: GroupId, eligible: Requirement, tolerate: bool, lookup: Lookup, spec: PodSpec)
    requires Devoted(o, id, eligible, tolerate, lookup) && Reaches(o.spec, spec, tolerate) && spec.Valid()
    ensures SameDomains(Get(StrictPodRequirements(spec), id.key), eligible) && KeepsAsking(o.(spec := spec), id, lookup)
  {}

  lemma DevotedIsSteady(
    step: Step, around: Circumstances, id: GroupId, eligible: Requirement, given: seq<Pod>, batch: seq<Pod>)
    requires AllSpecsValid(given) && DistinctPods(given) && From(given, step.pod, around.tolerate) &&
      (forall b :: b in batch ==> b in given)
    requires AllDevoted(given, batch, id, eligible, around.tolerate, around.lookup)
    ensures Steady(step, around, id, eligible, SelectedOwners(batch, id))
  {
    hide Reaches, Relaxed, Devoted, SameDomains, StrictPodRequirements, KeepsAsking, PodSpec.Valid, GroupId.Selects,
      From, KeepsHardTerms;
    var v, tolerate := step.pod, around.tolerate;
    var o := FromStandsFor(given, v, tolerate);
    SameSelection(id, o, v);
    if id.Selects(o) {
      DevotedMeans(o, id, eligible, tolerate, around.lookup, v.spec);
    }
    if v.uid in SelectedOwners(batch, id) && Relaxed(v.spec, tolerate).Some? {
      var b :| b in batch && id.Selects(b) && b.uid == v.uid;
      SameIdentity(given, b, o);
      var relaxed := v.(spec := Relaxed(v.spec, tolerate).value);
      ReachesNext(o.spec, v.spec, tolerate);
      if relaxed.spec.Valid() {
        DevotedMeans(o, id, eligible, tolerate, around.lookup, relaxed.spec);
        assert relaxed == o.(spec := relaxed.spec);
      }
    }
  }

  /** After a successful start every pod of the batch owns what it asks for. */
  lemma {:induction false} UpdatedEachOwnsAsked(
    t: Topo, pods: seq<Pod>, orders: seq<bool>, universe: Universe, lookup: Lookup, b: Pod, id: GroupId)
    requires AllSpecsValid(pods) && DistinctPods(pods) && |orders| == |pods| && b in pods
    requires AllConsistent(t.topologies) && AllConsistent(t.inverse)
    requires UpdatedEach(t, pods, orders, universe, lookup).1 && exists a :: a in Asks(b, false) && a.id == id
    ensures OwnedIn(UpdatedEach(t, pods, orders, universe, lookup).0.topologies, id, b.uid)
    decreases |pods|
  {
    hide OwnAsked, OwnInverse, AllConsistent, Asks, Disown;
    var n := |pods| - 1;
    var before, last := UpdatedEach(t, pods[..n], orders[..n], universe, lookup).0, pods[n];
    UpdatedEachOwns(t, pods[..n], orders[..n], universe, lookup);
    var gs := Disown(before.topologies, last.uid);
    DisownKeeps(before.topologies, last.uid);
    OwnAskedKeeps(gs, Asks(last, orders[n]), last.uid, universe, lookup);
    if b.uid == last.uid {
      assert b == last;
      var a :| a in Asks(b, false) && a.id == id;
      EitherOrder(b, orders[n]);
    } else {
      assert b in pods[..n];
      UpdatedEachOwnsAsked(t, pods[..n], orders[..n], universe, lookup, b, id);
    }
  }

  lemma {:induction false} RegisteredNodesOwned(topo: Topo, nodes: seq<NodeSnapshot>, id: GroupId, uid: UID)
    requires OwnedIn(topo.topologies, id, uid)
    ensures OwnedIn(RegisteredNodes(topo, nodes).topologies, id, uid)
  {
    if nodes != [] {
      RegisteredNodesOwned(topo, nodes[..|nodes| - 1], id, uid);
    }
  }

  lemma StartOwned(
    p: Plan, start: Budgets, batch: seq<Pod>, orders: seq<bool>, running: seq<Running>, around: Circumstances,
      nodes: seq<NodeSnapshot>,
    id: GroupId, eligible: Requirement)
    requires Begins(p, start, batch, orders, running, around, nodes)
    requires AllDevoted(batch, batch, id, eligible, around.tolerate, around.lookup)
    ensures OwnedByAll(p.topo, id, SelectedOwners(batch, id))
  {
    hide UpdatedEach, TrackRunning, RegisteredNodes, PlanInv, Separated, Hosts, OwnedIn, Devoted, GroupId.Selects,
      SameDomains, StrictPodRequirements, ValidTemplate, Physical;
    var excluded := set b | b in batch :: b.uid;
    var first := Topo(map[], TrackRunning(map[], running, excluded, around.universe));
    TrackRunningIsConsistent(map[], running, excluded, around.universe);
    forall u | u in SelectedOwners(batch, id) ensures OwnedIn(p.topo.topologies, id, u) {
      var b :| b in batch && id.Selects(b) && b.uid == u;
      assert b.(spec := b.spec) == b;
      DevotedMeans(b, id, eligible, around.tolerate, around.lookup, b.spec);
      UpdatedEachOwnsAsked(first, batch, orders, around.universe, around.lookup, b, id);
      RegisteredNodesOwned(InitialTopo(batch, orders, running, around.universe, around.lookup).0, nodes, id, u);
    }
  }

  /** Every group that is even at the start and to which the pods it selects are devoted is even at the end. */
  ghost predicate StaysEven(topo: Topo, topo': Topo, given: seq<Pod>, batch: seq<Pod>, tolerate: bool, lookup: Lookup) {
    forall id, eligible ::
      SpreadOn(id) && id.maxSkew >= 0 && Even(topo, id, eligible) &&
        AllDevoted(given, batch, id, eligible, tolerate, lookup) ==>
        Even(topo', id, eligible) &&
          SkewAtMost(topo'.topologies[id], Supported(topo'.topologies[id], eligible), id.maxSkew)
  }

  /**
   A constraint that holds when a run starts holds when it ends, if each given pod that it
   selects is of the batch, allows the eligible domains, and goes on asking for the group
   however it is relaxed.
   */
  lemma GivenPodsStayEven(
    plans: seq<Plan>, steps: seq<Step>, around: Circumstances, start: Budgets, given: seq<Pod>,
    batch: seq<Pod>, orders: seq<bool>, running: seq<Running>, nodes: seq<NodeSnapshot>)
    requires RunOf(plans, steps, around, given) && Begins(plans[0], start, batch, orders, running, around, nodes)
    requires forall b :: b in batch ==> b in given
    ensures StaysEven(plans[0].topo, plans[|steps|].topo, given, batch, around.tolerate, around.lookup)
  {
    hide Hosts, PlanInv, Separated, InitialTopo, RegisteredNodes, Leads, From, PodSpec.Valid, Devoted, OwnedByAll,
      Steady, SpreadOn, EvenGroup, SkewAtMost, GroupId.Selects, ValidTemplate, Physical, SelectedOwners, AllConsistent;
    forall id, eligible |
      SpreadOn(id) && id.maxSkew >= 0 && Even(plans[0].topo, id, eligible) &&
      AllDevoted(given, batch, id, eligible, around.tolerate, around.lookup)
      ensures var topo' := plans[|steps|].topo;
        Even(topo', id, eligible) &&
          SkewAtMost(topo'.topologies[id], Supported(topo'.topologies[id], eligible), id.maxSkew)
    {
      StartOwned(plans[0], start, batch, orders, running, around, nodes, id, eligible);
      forall i | 0 <= i < |steps| ensures Steady(steps[i], around, id, eligible, SelectedOwners(batch, id)) {
        DevotedIsSteady(steps[i], around, id, eligible, given, batch);
      }
      RunStaysEven(plans, steps, around, start, id, eligible, SelectedOwners(batch, id), |steps|);
    }
  }

  // ----- Who is devoted, and what others do

  /**
   A pod is devoted to a hard constraint of its own if at most one of its required terms is
   left and all its groups can be counted.
   */
  lemma HardConstraintDevotes(o: Pod, c: SpreadConstraint, tolerate: bool, lookup: Lookup)
    requires o.spec.Valid() && c in o.spec.spread && !c.scheduleAnyway && !CanDropRequired(o.spec)
    requires CanOwn(map[], Asks(o, false), lookup)
    ensures var id := SpreadAsk(o, c).id; Devoted(o, id, Get(StrictPodRequirements(o.spec), id.key), tolerate, lookup)
  {
    hide Reaches, PodSpec.Valid, Asks, CanOwn, SpreadAsk, StrictPodRequirements;
    var id := SpreadAsk(o, c).id;
    forall spec | Reaches(o.spec, spec, tolerate) && spec.Valid()
      ensures SameDomains(Get(StrictPodRequirements(spec), id.key), Get(StrictPodRequirements(o.spec), id.key))
      ensures KeepsAsking(o.(spec := spec), id, lookup)
    {
      ReachedKeepsHardTerms(o.spec, spec, tolerate);
      StrictOnlyOnHard(o.spec, spec);
      FewerAsks(o, spec, lookup);
      SpreadIsAsked(o.(spec := spec), c);
      SameFilter(o, o.(spec := spec));
    }
  }

  lemma StrictOnlyOnHard(spec: PodSpec, r: PodSpec)
    requires spec.Valid() && r.Valid() && r.nodeSelector == spec.nodeSelector && r.required == spec.required
    ensures StrictPodRequirements(r) == StrictPodRequirements(spec)
  {}

  lemma SpreadIsAsked(pod: Pod, c: SpreadConstraint)
    requires pod.spec.Valid() && c in pod.spec.spread
    ensures SpreadAsk(pod, c) in Asks(pod, false)
  {
    hide SpreadAsk, AffinityAsks, AntiAffinityAsks;
    var i :| 0 <= i < |pod.spec.spread| && pod.spec.spread[i] == c;
    assert Asks(pod, false)[i] == SpreadAsk(pod, c);
  }

  /** With the required terms settled, relaxing a pod only takes groups away. */
  lemma FewerAsks(o: Pod, spec: PodSpec, lookup: Lookup)
    requires o.spec.Valid() && spec.Valid() && KeepsHardTerms(o.spec, spec) && spec.required == o.spec.required
    requires CanOwn(map[], Asks(o, false), lookup)
    ensures CanOwn(map[], Asks(o.(spec := spec), false), lookup)
  {
    hide SpreadAsk, PodSpec.Valid, AffinityAsks, AntiAffinityAsks;
    var r := o.(spec := spec);
    SameFilter(o, r);
    forall a | a in Asks(r, false) ensures a in Asks(o, false) {
      if a in SpreadAsks(r) {
        var i :| 0 <= i < |spec.spread| && SpreadAsks(r)[i] == a;
        assert spec.spread[i] in spec.spread;
        SpreadIsAsked(o, spec.spread[i]);
      } else if a in AffinityAsks(r) {
        FewerAffinity(o, r, a);
      } else {
        FewerAntiAffinity(o, r, a);
      }
    }
  }

  /**
   A selected pod keeps the group even exactly if its domain is not ahead of another one by
   the whole skew already.
   */
  lemma RecordedEvenIff(g: Group, d: string, eligible: Requirement)
    requires EvenGroup(g, eligible) && d in Supported(g, eligible)
    ensures EvenGroup(g.Record({d}), eligible) <==>
            if g.id.key == HOSTNAME then g.Count(d) < g.id.maxSkew
            else forall e :: e in Supported(g, eligible) && e != d ==> g.Count(d) - g.Count(e) < g.id.maxSkew
  {
    hide Requirement.Has;
    var g' := g.Record({d});
    assert Supported(g', eligible) == Supported(g, eligible);
    assert g'.Count(d) == g.Count(d) + 1 && forall e :: e != d ==> g'.Count(e) == g.Count(e);
    if g.id.key != HOSTNAME && EvenGroup(g', eligible) {
      forall e | e in Supported(g, eligible) && e != d ensures g.Count(d) - g.Count(e) < g.id.maxSkew {
        assert g'.Count(d) - g'.Count(e) <= g.id.maxSkew;
      }
    }
  }

  // A group over two racks, of which one has one pod more, and a pod that the constraint selects
  // but that does not carry it.

  const RACK := "rack"

  function Racks(): GroupId { GroupId(RACK, Spread, {"ns"}, Some(LabelSelector(map["app" := "web"], [])), 1, {}) }

  function TwoRacks(n: nat): Topo {
    Topo(map[Racks() := Group(Racks(), None, {"owner"}, map["a" := n, "b" := 0], {"b"})], map[])
  }

  function Passenger(): Pod {
    Pod("passenger", PodKey("ns", "passenger"), map["app" := "web"], PodSpec(map[], None, [], [], [], [], [], [], []),
        PodResources([], [], None), [], Some(map[]))
  }

  function OnRackA(): Requirements { map[RACK := AnyOf(RACK, {"a"})] }

  lemma RackIsPlain()
    ensures SpreadOn(Racks()) && RACK != HOSTNAME && "a" != "b"
  {
    assert RACK[0] == 'r' && HOSTNAME[0] == 'k' && "a"[0] != "b"[0];
  }

  lemma RackCounts(n: nat)
    requires n > 0
    ensures Even(TwoRacks(n), Racks(), AnyValue(RACK)) <==> n == 1
  {
    hide Canonical;
    RackIsPlain();
    var g := TwoRacks(n).topologies[Racks()];
    assert Supported(g, AnyValue(RACK)) == {"a", "b"};
    assert g.Count("a") == n && g.Count("b") == 0;
    assert NoAlias(g);
  }

  lemma PassengerIsSelected()
    ensures Racks().Selects(Passenger()) && !OwnedIn(TwoRacks(1).topologies, Racks(), Passenger().uid)
  {
    assert "owner"[0] != "passenger"[0];
  }

  lemma PassengerGoesAnywhere()
    ensures Tightened(TwoRacks(1), Passenger(), map[], OnRackA(), {}, OnRackA())
  {
    hide OnRackA, Passenger, GroupId.Counts;
    PassengerIsSelected();
    assert forall ref :: !Matching(TwoRacks(1), Passenger(), OnRackA(), {}, ref);
    AddAllEmpty(OnRackA());
    assert TightenedBy(TwoRacks(1), Passenger(), map[], OnRackA(), {}, OnRackA(), [], []);
  }

  lemma PassengerCounts()
    ensures RecordPod(TwoRacks(1), Passenger(), OnRackA(), {}) == TwoRacks(2)
  {
    hide Passenger, Racks, FilterMatches, OnRackA, RecordDirect;
    var t := TwoRacks(1);
    assert t.topologies.Keys == {Racks()} && t.inverse == map[];
    PassengerIsRecorded();
    var after := RecordPod(t, Passenger(), OnRackA(), {});
    assert after.topologies.Keys == {Racks()} && after.topologies == TwoRacks(2).topologies;
    assert after.inverse == map[];
  }

  lemma PassengerIsRecorded()
    ensures RecordDirect(TwoRacks(1).topologies[Racks()], Passenger(), OnRackA(), {}) == TwoRacks(2).topologies[Racks()]
  {
    hide Passenger, Racks, FilterMatches, OnRackA;
    PassengerIsSelected();
    RackFields();
    EmptyFilterMatches(OnRackA(), {});
    OnlyRackA();
    RackIsPlain();
    var g, g' := TwoRacks(1).topologies[Racks()], TwoRacks(2).topologies[Racks()];
    assert g.domains.Keys == {"a", "b"};
    assert g.Record({"a"}).domains == g'.domains;
  }

  lemma OnlyRackA()
    ensures var d := Get(OnRackA(), RACK); d.values == {"a"} && !d.complement && d.Len() == 1
  {
    RackIsPlain();
  }

  lemma RackFields()
    ensures Racks().nodeFilter == {} && Racks().key == RACK && Racks().kind.Spread?
  {}

  /** Nothing keeps a selected pod that does not carry the constraint from the fuller domain, and it counts there. */
  lemma PassengerExample()
    ensures Racks().Selects(Passenger()) && !OwnedIn(TwoRacks(1).topologies, Racks(), Passenger().uid)
    ensures SpreadOn(Racks()) && Even(TwoRacks(1), Racks(), AnyValue(RACK))
    ensures Tightened(TwoRacks(1), Passenger(), map[], OnRackA(), {}, OnRackA())
    ensures !Even(RecordPod(TwoRacks(1), Passenger(), OnRackA(), {}), Racks(), AnyValue(RACK))
  {
    hide Even, Tightened, RecordPod, TwoRacks, OwnedIn, GroupId.Selects, SpreadOn, Racks, Passenger, OnRackA;
    RackIsPlain();
    RackCounts(1);
    RackCounts(2);
    PassengerIsSelected();
    PassengerGoesAnywhere();
    PassengerCounts();
  }
}
