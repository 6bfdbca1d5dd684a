/**
 What a run ends with.  The nodes are those it began with, each filled up; every claim
 stems from a template; and a pod that is left over was refused by every node, every claim
 and every template when all of them were as they are in the end.
 */
module RunOutcomes {
  import opened Common
  import opened Labels
  import opened RequirementAlgebra
  import opened RequirementSets
  import opened HostPorts
  import opened Volumes
  import opened InstanceTypes
  import opened Pods
  import opened PreferenceRelaxation
  import opened TopologyGroups
  import opened Topologies
  import opened AntiAffinitySafety
  import opened NodeClaims
  import opened ExistingNodes
  import opened NodePoolLimits
  import opened Plans
  import opened Scheduling
  import opened Solving
  import opened RunCounts

  // ----- Nodes

  ghost predicate NodesKept(nodes: seq<Existing>, nodes': seq<Existing>) {
    |nodes| == |nodes'| && forall i :: 0 <= i < |nodes| ==> NodeKeeps(nodes[i], nodes'[i])
  }

  lemma NodeKeepsItself(n: Existing)
    ensures NodeKeeps(n, n)
  {
    NarrowsItself(n.requirements);
  }

  lemma NodeKeepsTwice(a: Existing, b: Existing, c: Existing)
    requires NodeKeeps(a, b) && NodeKeeps(b, c)
    ensures NodeKeeps(a, c)
  {
    hide Narrows, PairwiseFree;
    NarrowsFurther(c.requirements, b.requirements, a.requirements);
  }

  lemma SameNodesKept(nodes: seq<Existing>)
    ensures NodesKept(nodes, nodes)
  {
    hide NodeKeeps;
    forall i | 0 <= i < |nodes| ensures NodeKeeps(nodes[i], nodes[i]) { NodeKeepsItself(nodes[i]); }
  }

  lemma NodesKeptTwice(a: seq<Existing>, b: seq<Existing>, c: seq<Existing>)
    requires NodesKept(a, b) && NodesKept(b, c)
    ensures NodesKept(a, c)
  {
    hide NodeKeeps;
    forall i | 0 <= i < |a| ensures NodeKeeps(a[i], c[i]) { NodeKeepsTwice(a[i], b[i], c[i]); }
  }

  lemma OneNodeKept(p: Plan, pod: Pod, i: nat, p': Plan, start: Budgets)
    requires pod.spec.Valid() && PlanInv(p, start) && PutOnNode(p, pod, i, p')
    ensures NodesKept(p.nodes, p'.nodes)
  {
    hide NodeInv, ClaimInv, LimitInv, NodeAdded, NodeKeeps;
    AddKeepsNode(p.nodes[i], p.topo, pod, p'.nodes[i], p'.topo);
    forall j | 0 <= j < |p.nodes| ensures NodeKeeps(p.nodes[j], p'.nodes[j]) { NodeKeepsItself(p.nodes[j]); }
  }

  // ----- Claims

  /** A label that the template does not define is well known, or was put up by a pod that does without it. */
  predicate Accounts(c: Claim, t: Template, k: string) {
    || k in t.requirements || k == HOSTNAME || k in WELL_KNOWN
    || (exists p :: p in c.pods && DoesWithout(p, k)) || (k in c.requirements && c.requirements[k].Op() == DoesNotExist)
  }

  /** The claim is for a node of the template: its taints and daemons, its labels or fewer, and its instance types. */
  ghost predicate StemsFrom(c: Claim, t: Template, catalog: Catalog) {
    && c.pool == t.pool && c.taints == t.taints && c.daemons == t.daemons
    && Narrows(c.requirements, t.requirements)
    && (forall it :: it in c.options ==> it in TypesOf(catalog, t.pool))
    && (forall k :: k in c.requirements ==> Accounts(c, t, k))
  }

  ghost predicate AllStem(claims: seq<Claim>, templates: seq<Template>, catalog: Catalog) {
    forall c :: c in claims ==> exists t :: t in templates && StemsFrom(c, t, catalog)
  }

  lemma AddAccounts(c: Claim, topo: Topo, pod: Pod, out: Requirements, t: Template, k: string)
    requires pod.spec.Valid() && Demanded(c, topo, pod, out) && Admits(c, pod, out)
    requires k in c.requirements ==> Accounts(c, t, k)
    requires k in WithPod(c, pod, out).requirements
    ensures Accounts(WithPod(c, pod, out), t, k)
  {
    hide Tightened, PodRequirements, StrictPodRequirements, Requirement.Intersection, Requirement.Op, ToleratesAll,
      Conflicts, Intersects, Remaining;
    var c', p := WithPod(c, pod, out), PodRequirements(pod.spec);
    var nodeReqs := Meet(c.requirements, p);
    if k in t.requirements || k == HOSTNAME || k in WELL_KNOWN {
    } else if k in c.requirements {
      if c.requirements[k].Op() == DoesNotExist {
        if k in p {
          EmptyStays(c.requirements[k], p[k]);
        }
        if k in out {
          EmptyStays(nodeReqs[k], out[k]);
        }
      } else {
        var q :| q in c.pods && DoesWithout(q, k);
        assert q in c'.pods;
      }
    } else if k in p {
      assert DoesWithout(pod, k) && pod in c'.pods;
    } else {
      AnswerAt(topo, pod, StrictPodRequirements(pod.spec), nodeReqs, WELL_KNOWN, out, k);
      FiniteAbsence(out[k]);
    }
  }

  lemma AddStems(c: Claim, topo: Topo, pod: Pod, c': Claim, topo': Topo, t: Template, catalog: Catalog)
    requires pod.spec.Valid() && Added(c, topo, pod, c', topo') && StemsFrom(c, t, catalog)
    ensures StemsFrom(c', t, catalog)
  {
    hide Demanded, Admits, Accounts, Remaining, Meet, PodRequirements, RecordPod, Narrows;
    var out :| AddedWith(c, topo, pod, out, c', topo');
    AddNarrows(c, pod, out);
    NarrowsFurther(c'.requirements, c.requirements, t.requirements);
    RemainingSuits(c.options, c'.requirements, c'.requests);
    forall k | k in c'.requirements ensures Accounts(c', t, k) {
      AddAccounts(c, topo, pod, out, t, k);
    }
  }

  lemma OpenedStems(p: Plan, t: Template, hostname: string, catalog: Catalog)
    requires ValidTemplate(t)
    ensures StemsFrom(Opened(t, hostname, OnOffer(p, t.pool, TypesOf(catalog, t.pool))), t, catalog)
  {
    hide Affordable;
    var c := Opened(t, hostname, OnOffer(p, t.pool, TypesOf(catalog, t.pool)));
    HostnameIsCanonical();
    forall key, v | Allows(c.requirements, key, v) ensures Allows(t.requirements, key, v) {
      AddAllows(t.requirements, Exactly(HOSTNAME, hostname), key, v);
    }
    OnOfferMembers(p, t.pool, TypesOf(catalog, t.pool));
  }

  lemma OnOfferMembers(p: Plan, pool: string, its: seq<InstanceType>)
    ensures forall it :: it in OnOffer(p, pool, its) ==> it in its
  {}

  lemma ReplacedStems(claims: seq<Claim>, i: nat, c: Claim, templates: seq<Template>, catalog: Catalog)
    requires i < |claims| && AllStem(claims, templates, catalog)
    requires exists t :: t in templates && StemsFrom(c, t, catalog)
    ensures AllStem(claims[i := c], templates, catalog)
  {
    hide StemsFrom;
    var claims' := claims[i := c];
    forall x | x in claims' ensures exists t :: t in templates && StemsFrom(x, t, catalog) {
      var j :| 0 <= j < |claims'| && claims'[j] == x;
      if j != i {
        assert claims[j] == x && x in claims;
      }
    }
  }

  // ----- Host names

  /** The number of claims that may go by the host name. */
  function Bearers(claims: seq<Claim>, v: string): nat {
    if claims == [] then 0 else Bearers(claims[1..], v) + if Allows(claims[0].requirements, HOSTNAME, v) then 1 else 0
  }

  /** No host name is left to two claims. */
  ghost predicate OwnNames(claims: seq<Claim>) { forall v :: Bearers(claims, v) <= 1 }

  lemma {:induction false} BearersSplit(xs: seq<Claim>, ys: seq<Claim>, v: string)
    ensures Bearers(xs + ys, v) == Bearers(xs, v) + Bearers(ys, v)
  {
    hide Allows;
    if xs == [] {
      assert xs + ys == ys;
    } else {
      assert (xs + ys)[1..] == xs[1..] + ys;
      BearersSplit(xs[1..], ys, v);
    }
  }

  lemma BearersOne(c: Claim, v: string)
    ensures Bearers([c], v) == if Allows(c.requirements, HOSTNAME, v) then 1 else 0
  {
    assert [c][1..] == [];
  }

  lemma BearersAt(claims: seq<Claim>, i: nat, v: string)
    requires i < |claims|
    ensures Bearers(claims, v) ==
            Bearers(Without(claims, i), v) + if Allows(claims[i].requirements, HOSTNAME, v) then 1 else 0
  {
    hide Bearers, Allows;
    assert claims == (claims[..i] + [claims[i]]) + claims[i + 1..];
    BearersSplit(claims[..i] + [claims[i]], claims[i + 1..], v);
    BearersSplit(claims[..i], [claims[i]], v);
    BearersSplit(claims[..i], claims[i + 1..], v);
    BearersOne(claims[i], v);
  }

  lemma {:induction false} BearersPermuted(xs: seq<Claim>, ys: seq<Claim>, v: string)
    requires multiset(xs) == multiset(ys)
    ensures Bearers(xs, v) == Bearers(ys, v)
    decreases |xs|
  {
    hide Allows;
    if xs == [] {
      PermutationMembers(xs, ys);
      assert ys == [];
    } else {
      var i := PermutationHead(xs, ys);
      BearersPermuted(xs[1..], Without(ys, i), v);
      BearersAt(ys, i, v);
    }
  }

  lemma PermutedNames(xs: seq<Claim>, ys: seq<Claim>)
    requires multiset(xs) == multiset(ys) && OwnNames(xs)
    ensures OwnNames(ys)
  {
    forall v ensures Bearers(ys, v) <= 1 { BearersPermuted(xs, ys, v); }
  }

  lemma NarrowedNames(claims: seq<Claim>, i: nat, c: Claim)
    requires i < |claims| && OwnNames(claims) && Narrows(c.requirements, claims[i].requirements)
    ensures OwnNames(claims[i := c])
  {
    hide Allows;
    var claims' := claims[i := c];
    assert Without(claims', i) == Without(claims, i);
    forall v ensures Bearers(claims', v) <= 1 {
      BearersAt(claims, i, v);
      BearersAt(claims', i, v);
    }
  }

  lemma {:induction false} NoBearers(claims: seq<Claim>, v: string)
    requires forall c :: c in claims ==> !Allows(c.requirements, HOSTNAME, v)
    ensures Bearers(claims, v) == 0
  {
    hide Allows;
    if claims != [] {
      NoBearers(claims[1..], v);
    }
  }

  lemma NewNames(p: Plan, hostname: string, c: Claim)
    requires OwnNames(p.claims) && FreshName(p, hostname)
    requires forall v :: Allows(c.requirements, HOSTNAME, v) ==> v == hostname
    ensures OwnNames(p.claims + [c])
  {
    hide Allows;
    forall v ensures Bearers(p.claims + [c], v) <= 1 {
      BearersSplit(p.claims, [c], v);
      BearersOne(c, v);
      if v == hostname {
        NoBearers(p.claims, v);
      }
    }
  }

  lemma OpenedNames(t: Template, hostname: string, its: seq<InstanceType>)
    requires ValidTemplate(t)
    ensures forall v :: Allows(Opened(t, hostname, its).requirements, HOSTNAME, v) ==> v == hostname
  {
    HostnameIsCanonical();
    forall v | Allows(Opened(t, hostname, its).requirements, HOSTNAME, v) ensures v == hostname {
      AddAllows(t.requirements, Exactly(HOSTNAME, hostname), HOSTNAME, v);
      assert Elements([hostname]) == {hostname};
    }
  }

  // ----- One attempt

  lemma AttemptOutcome(
    ok: bool, p: Plan, pod: Pod, templates: seq<Template>, catalog: Catalog, p': Plan, start: Budgets)
    requires pod.spec.Valid() && PlanInv(p, start) && Attempted(ok, p, pod, templates, catalog, p')
    requires (forall t :: t in templates ==> ValidTemplate(t)) && AllStem(p.claims, templates, catalog)
    requires OwnNames(p.claims)
    ensures NodesKept(p.nodes, p'.nodes) && AllStem(p'.claims, templates, catalog) && OwnNames(p'.claims)
  {
    hide OwnNames, PlanInv, Untouched, NoRoom, ValidTemplate, AllStem, NodesKept, PutOnNode, PlacedOnClaim, PlacedOnNew,
      AllDeclined;
    SameNodesKept(p.nodes);
    if Untouched(p, p') {
      UntouchedParts(p, p');
      PermutedStem(p.claims, p'.claims, templates, catalog);
      PermutedNames(p.claims, p'.claims);
    } else if PlacedOnNode(p, pod, p') {
      var i: nat :| NodesRefuse(p, pod, i) && PutOnNode(p, pod, i, p');
      OneNodeKept(p, pod, i, p', start);
      SameClaims(p, pod, i, p');
    } else if PlacedOnClaim(p, pod, p') {
      ClaimOutcome(p, pod, p', templates, catalog);
    } else {
      NewOutcome(p, pod, p', templates, catalog);
    }
  }

  lemma SameClaims(p: Plan, pod: Pod, i: nat, p': Plan)
    requires pod.spec.Valid() && PutOnNode(p, pod, i, p')
    ensures p'.claims == p.claims
  {}

  /** Nothing that counts is touched. */
  lemma UntouchedParts(p: Plan, p': Plan)
    requires Untouched(p, p')
    ensures p'.nodes == p.nodes && p'.remaining == p.remaining && multiset(p'.claims) == multiset(p.claims)
  {
    hide NamedAll;
    var p1, hostnames :| Reordered(p, p1) && p' == NamedAll(p1, hostnames);
    NamedSameParts(p1, hostnames);
  }

  lemma PermutedStem(claims: seq<Claim>, claims': seq<Claim>, templates: seq<Template>, catalog: Catalog)
    requires multiset(claims) == multiset(claims') && AllStem(claims, templates, catalog)
    ensures AllStem(claims', templates, catalog)
  {
    hide StemsFrom;
    PermutationMembers(claims, claims');
  }

  lemma ClaimOutcome(p: Plan, pod: Pod, p': Plan, templates: seq<Template>, catalog: Catalog)
    requires pod.spec.Valid() && PlacedOnClaim(p, pod, p') && AllStem(p.claims, templates, catalog)
    requires OwnNames(p.claims)
    ensures p'.nodes == p.nodes && AllStem(p'.claims, templates, catalog) && OwnNames(p'.claims)
  {
    hide StemsFrom, Added, OwnNames, NodesRefuse, ClaimsRefuse, Narrows;
    var p1, i: nat :|
      Reordered(p, p1) && FewestFirst(p1.claims) && ClaimsRefuse(p1, pod, i) && PutOnClaim(p1, pod, i, p');
    PermutedStem(p.claims, p1.claims, templates, catalog);
    assert p1.claims[i] in p1.claims;
    var t :| t in templates && StemsFrom(p1.claims[i], t, catalog);
    AddStems(p1.claims[i], p1.topo, pod, p'.claims[i], p'.topo, t, catalog);
    ReplacedStems(p1.claims, i, p'.claims[i], templates, catalog);
    PermutedNames(p.claims, p1.claims);
    AddedNarrows(p1.claims[i], p1.topo, pod, p'.claims[i], p'.topo);
    NarrowedNames(p1.claims, i, p'.claims[i]);
  }

  lemma NamesOfNew(
    p: Plan, c: Claim, topo: Topo, pod: Pod, c': Claim, topo': Topo, t: Template, hostname: string)
    requires pod.spec.Valid() && ValidTemplate(t) && OwnNames(p.claims) && FreshName(p, hostname)
    requires Added(c, topo, pod, c', topo') && exists its :: c == Opened(t, hostname, its)
    ensures OwnNames(p.claims + [c'])
  {
    hide OwnNames, FreshName, Added, Opened, Allows;
    var its :| c == Opened(t, hostname, its);
    OpenedNames(t, hostname, its);
    AddedNarrows(c, topo, pod, c', topo');
    assert forall v :: Allows(c'.requirements, HOSTNAME, v) ==> v == hostname;
    NewNames(p, hostname, c');
  }

  lemma NewOutcome(p: Plan, pod: Pod, p': Plan, templates: seq<Template>, catalog: Catalog)
    requires pod.spec.Valid() && PlacedOnNew(p, pod, templates, catalog, p') && AllStem(p.claims, templates, catalog)
    requires (forall t :: t in templates ==> ValidTemplate(t)) && OwnNames(p.claims)
    ensures p'.nodes == p.nodes && AllStem(p'.claims, templates, catalog) && OwnNames(p'.claims)
  {
    hide OwnNames, FreshName, Allows, Narrows, StemsFrom, Added, Untouched, AllDeclined, ValidTemplate, Opened,
      Registered, SubtractMax;
    var p1, i: nat, hostname :|
      && Untouched(p, p1) && i < |templates| && AllDeclined(p, pod, templates[..i], catalog) && FreshName(p1, hostname)
      && PutOnNew(p1, pod, templates[i], hostname, TypesOf(catalog, templates[i].pool), p');
    var t, c' := templates[i], p'.claims[|p1.claims|];
    UntouchedParts(p, p1);
    PermutedStem(p.claims, p1.claims, templates, catalog);
    OpenedStems(p1, t, hostname, catalog);
    var started := Opened(t, hostname, OnOffer(p1, t.pool, TypesOf(catalog, t.pool)));
    AddStems(started, Registered(p1.topo, HOSTNAME, hostname), pod, c', p'.topo, t, catalog);
    assert forall x :: x in p'.claims ==> x in p1.claims || x == c';
    PermutedNames(p.claims, p1.claims);
    NamesOfNew(p1, started, Registered(p1.topo, HOSTNAME, hostname), pod, c', p'.topo, t, hostname);
  }

  // ----- Over a run

  /** The nodes of a run are those it began with, and its claims stem from the templates. */
  lemma {:induction false} RunOutcome(
    plans: seq<Plan>, steps: seq<Step>, around: Circumstances, start: Budgets, n: nat)
    requires OrderlyRun(plans, steps, around, start) && n < |plans| && plans[0].claims == []
    ensures NodesKept(plans[0].nodes, plans[n].nodes) && AllStem(plans[n].claims, around.templates, around.catalog)
    ensures OwnNames(plans[n].claims)
  {
    hide Orderly, NodesKept, StemsFrom, Attempted, Updated, Relaxed, PlanInv, ValidTemplate, Physical, PodSpec.Valid,
      TopoInv, AllConsistent, WellKeyed;
    if n == 0 {
      SameNodesKept(plans[0].nodes);
    } else {
      var p, step := plans[n - 1], steps[n - 1];
      RunOutcome(plans, steps, around, start, n - 1);
      StaysOrderly(plans, steps, around, start, n - 1);
      OrderlyMeans(p, start);
      assert Leads(p, step, plans[n - 1 + 1], around);
      AttemptOutcome(step.outcome.Done?, p, step.pod, around.templates, around.catalog, step.tried, start);
      NodesKeptTwice(plans[0].nodes, p.nodes, step.tried.nodes);
    }
  }

  // ----- Pods that are left over

  /** The same nodes and claims, limits and counts. */
  ghost predicate SameRoom(p: Plan, p': Plan) {
    && p'.nodes == p.nodes && p'.remaining == p.remaining && multiset(p'.claims) == multiset(p.claims)
    && p'.topo.topologies.Keys == p.topo.topologies.Keys
    && forall id, d :: CountIn(p'.topo, id, d) == CountIn(p.topo, id, d)
  }

  /** The pod has nothing left to give up, and nothing takes it. */
  ghost predicate NoPlace(p: Plan, pod: Pod, around: Circumstances) {
    && pod.spec.Valid() && Relaxed(pod.spec, around.tolerate).None?
    && NoRoom(p, pod) && AllDeclined(p, pod, around.templates, around.catalog)
  }

  lemma FailingHasNoPlace(p: Plan, step: Step, p': Plan, around: Circumstances, start: Budgets)
    requires Leads(p, step, p', around) && step.outcome.Failing? && Orderly(p, start)
    ensures NoPlace(p, step.pod, around) && SameRoom(p, p')
  {
    hide NoRoom, AllDeclined, Relaxed, PodSpec.Valid, Untouched, CountIn, WellKeyed, AllConsistent, TopoInv, PlanInv,
      Orderly, PlacedOnNode, PlacedOnClaim, PlacedOnNew, NoNode;
    OrderlyMeans(p, start);
    UntouchedParts(p, p');
    forall id, d ensures CountIn(p'.topo, id, d) == CountIn(p.topo, id, d) { UntouchedCounts(p, p', id, d); }
    UntouchedCounts(p, p', GroupId("", Spread, {}, None, 0, {}), "");
  }

  lemma {:induction false} FailuresKeepRoom(
    plans: seq<Plan>, steps: seq<Step>, around: Circumstances, start: Budgets, i: nat, n: nat)
    requires OrderlyRun(plans, steps, around, start) && i <= n <= |steps|
    requires forall j :: i <= j < n ==> steps[j].outcome.Failing?
    ensures SameRoom(plans[i], plans[n])
    decreases n
  {
    hide Orderly, Sound, Leads, CountIn, NoPlace;
    if i < n {
      FailuresKeepRoom(plans, steps, around, start, i, n - 1);
      StaysOrderly(plans, steps, around, start, n - 1);
      assert Leads(plans[n - 1], steps[n - 1], plans[n - 1 + 1], around);
      FailingHasNoPlace(plans[n - 1], steps[n - 1], plans[n], around, start);
    }
  }

  /** An attempt with the pod, after which nothing has changed, found no place for it. */
  ghost predicate FoundNoPlace(plans: seq<Plan>, steps: seq<Step>, around: Circumstances, u: UID)
    requires |plans| == |steps| + 1
  {
    exists i ::
      && 0 <= i < |steps| && steps[i].pod.uid == u && steps[i].outcome.Failing?
      && NoPlace(plans[i], steps[i].pod, around) && SameRoom(plans[i], plans[|steps|])
  }

  /** A pod that a run leaves over has no place in the plan that the run ends with. */
  lemma LeftOverHasNoPlace(
    plans: seq<Plan>, steps: seq<Step>, around: Circumstances, start: Budgets, waiting: seq<UID>, u: UID)
    requires OrderlyRun(plans, steps, around, start) && EndsWithFailures(Attempts(steps), waiting) && u in waiting
    ensures FoundNoPlace(plans, steps, around, u)
  {
    hide Orderly, Sound, Leads, NoPlace, SameRoom;
    var n, k := |steps|, |waiting|;
    var j :| 0 <= j < k && waiting[j] == u;
    var i := n - k + j;
    assert Attempts(steps)[i] == Attempt(u, Failing);
    forall m | i <= m < n ensures steps[m].outcome.Failing? {
      assert Attempts(steps)[n - k + (m - (n - k))] == Attempt(waiting[m - (n - k)], Failing);
    }
    FailuresKeepRoom(plans, steps, around, start, i, n);
    StaysOrderly(plans, steps, around, start, i);
    assert Leads(plans[i], steps[i], plans[i + 1], around);
    FailingHasNoPlace(plans[i], steps[i], plans[i + 1], around, start);
  }
}
