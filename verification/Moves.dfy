/** What one attempt does to the hosts and the topology, whichever way it goes. */
module PlanMoves {
  import opened Common
  import opened Labels
  import opened RequirementAlgebra
  import opened RequirementSets
  import opened Pods
  import opened TopologyGroups
  import opened Topologies
  import opened AntiAffinitySafety
  import opened AffinityDemands
  import opened NodeClaims
  import opened ExistingNodes
  import opened NodePoolLimits
  import opened Plans
  import opened Scheduling

  /** At most one pod is placed, after claims were reordered and host names registered. */
  ghost predicate Moves(p: Plan, pod: Pod, p': Plan)
    requires pod.spec.Valid()
  {
    || Untouched(p, p')
    || exists p1 :: Untouched(p, p1) && Placement(Hosts(p1), p1.topo, pod, Hosts(p'), p'.topo)
  }

  lemma UntouchedItself(p: Plan)
    ensures Untouched(p, p)
  {
    assert Reordered(p, p) && p == NamedAll(p, []);
  }

  lemma ReorderedIsUntouched(p: Plan, p': Plan)
    requires Reordered(p, p')
    ensures Untouched(p, p')
  {
    assert p' == NamedAll(p', []);
  }

  lemma NamedIsUntouched(p: Plan, p': Plan, hostname: string)
    requires Untouched(p, p')
    ensures Untouched(p, Named(p', hostname))
  {
    hide Registered, Reordered;
    var p1, hostnames :| Reordered(p, p1) && p' == NamedAll(p1, hostnames);
    assert (hostnames + [hostname])[..|hostnames|] == hostnames;
    assert Named(p', hostname) == NamedAll(p1, hostnames + [hostname]);
  }

  lemma AttemptMoves(
    ok: bool, p: Plan, pod: Pod, templates: seq<Template>, catalog: Catalog, p': Plan, start: Budgets)
    requires pod.spec.Valid() && PlanInv(p, start) && TopoInv(p.topo, []) &&
      Attempted(ok, p, pod, templates, catalog, p')
    requires forall t :: t in templates ==> ValidTemplate(t)
    ensures Moves(p, pod, p')
  {
    hide PlanInv, TopoInv, Untouched, NoRoom, ValidTemplate, Placement, Hosts, PutOnNode, PutOnClaim, PutOnNew,
      Reordered;
    if Untouched(p, p') {
    } else if PlacedOnNode(p, pod, p') {
      var i: nat :| NodesRefuse(p, pod, i) && PutOnNode(p, pod, i, p');
      PutOnNodePlaces(p, pod, i, p', start);
      UntouchedItself(p);
    } else if PlacedOnClaim(p, pod, p') {
      var p1, i: nat :|
        Reordered(p, p1) && FewestFirst(p1.claims) && ClaimsRefuse(p1, pod, i) && PutOnClaim(p1, pod, i, p');
      ReorderKeepsPlan(p, p1, start);
      ReorderedIsUntouched(p, p1);
      assert TopoInv(p1.topo, []) by { SameTopo(p, p1); }
      PutOnClaimPlaces(p1, pod, i, p', start);
    } else {
      NewMoves(p, pod, templates, catalog, p');
    }
  }

  lemma SameTopo(p: Plan, p': Plan)
    requires Reordered(p, p')
    ensures p'.topo == p.topo
  {}

  lemma NewMoves(p: Plan, pod: Pod, templates: seq<Template>, catalog: Catalog, p': Plan)
    requires pod.spec.Valid() && TopoInv(p.topo, []) && PlacedOnNew(p, pod, templates, catalog, p')
    requires forall t :: t in templates ==> ValidTemplate(t)
    ensures Moves(p, pod, p')
  {
    hide TopoInv, Untouched, ValidTemplate, Placement, Hosts, PutOnNew, Registered;
    var p1, i: nat, hostname :|
      && Untouched(p, p1) && i < |templates| && AllDeclined(p, pod, templates[..i], catalog) && FreshName(p1, hostname)
      && PutOnNew(p1, pod, templates[i], hostname, TypesOf(catalog, templates[i].pool), p');
    var t := templates[i];
    var p2 := Named(p1, hostname);
    NamedIsUntouched(p, p1, hostname);
    UntouchedKeepsTopo(p, p2, []);
    PutOnNewPlaces(p1, pod, t, hostname, TypesOf(catalog, t.pool), p');
    assert Hosts(p2) == Hosts(p1) by { SameHosts(p1, p2); }
  }

  lemma {:induction false} NamedAllGrows(p: Plan, hostnames: seq<string>, batch: seq<Pod>)
    requires TopoInv(p.topo, batch)
    ensures var topo' := NamedAll(p, hostnames).topo;
      && TopoInv(topo', batch) && Grows(p.topo.topologies, topo'.topologies) && Grows(p.topo.inverse, topo'.inverse)
    ensures NamedAll(p, hostnames) == p.(topo := NamedAll(p, hostnames).topo)
  {
    hide Group.Count, RegisterIn;
    if hostnames != [] {
      var n := |hostnames| - 1;
      NamedAllGrows(p, hostnames[..n], batch);
      var topo := NamedAll(p, hostnames[..n]).topo;
      HostnameIsCanonical();
      RegisterGrows(topo.topologies, HOSTNAME, hostnames[n]);
      RegisterGrows(topo.inverse, HOSTNAME, hostnames[n]);
    }
  }

  lemma UntouchedKeepsTopo(p: Plan, p': Plan, batch: seq<Pod>)
    requires Untouched(p, p') && TopoInv(p.topo, batch)
    ensures TopoInv(p'.topo, batch) && Grows(p.topo.topologies, p'.topo.topologies) &&
      Grows(p.topo.inverse, p'.topo.inverse)
    ensures forall h :: h in Hosts(p') <==> h in Hosts(p)
  {
    hide TopoInv, Grows, NamedAll, Hosts;
    var p1, hostnames :| Reordered(p, p1) && p' == NamedAll(p1, hostnames);
    NamedAllGrows(p1, hostnames, batch);
    PermutationMembers(p.claims, p1.claims);
    forall h ensures h in Hosts(p') <==> h in Hosts(p) {
      HostsMembers(p, h);
      HostsMembers(p', h);
    }
  }

  // ----- Owners

  /** The owners of every group are the same. */
  predicate SameOwners(topo: Topo, topo': Topo) {
    forall id :: id in topo.topologies ==>
      id in topo'.topologies && topo'.topologies[id].owners == topo.topologies[id].owners
  }

  lemma OwnersTwice(a: Topo, b: Topo, c: Topo)
    requires SameOwners(a, b) && SameOwners(b, c)
    ensures SameOwners(a, c)
  {}

  lemma RecordSameOwners(topo: Topo, pod: Pod, reqs: Requirements, allow: set<string>)
    ensures SameOwners(topo, RecordPod(topo, pod, reqs, allow))
  {
    hide GroupId.Counts, Requirement.Len;
  }

  lemma {:induction false} NamedSameOwners(p: Plan, hostnames: seq<string>)
    ensures SameOwners(p.topo, NamedAll(p, hostnames).topo)
  {
    if hostnames != [] {
      NamedSameOwners(p, hostnames[..|hostnames| - 1]);
    }
  }

  lemma UntouchedSameOwners(p: Plan, p': Plan)
    requires Untouched(p, p')
    ensures SameOwners(p.topo, p'.topo)
  {
    hide NamedAll;
    var p1, hostnames :| Reordered(p, p1) && p' == NamedAll(p1, hostnames);
    NamedSameOwners(p1, hostnames);
  }

  lemma MovesSameOwners(p: Plan, pod: Pod, p': Plan)
    requires pod.spec.Valid() && Moves(p, pod, p')
    ensures SameOwners(p.topo, p'.topo)
  {
    hide Untouched, Clears, JoinsAll, Placed, RecordPod, SameOwners, Hosts, PodSpec.Valid, StrictPodRequirements;
    if Untouched(p, p') {
      UntouchedSameOwners(p, p');
    } else {
      var p1 :| Untouched(p, p1) && Placement(Hosts(p1), p1.topo, pod, Hosts(p'), p'.topo);
      var h, reqs, allow :| PlacementOn(Hosts(p1), p1.topo, pod, h, reqs, allow, Hosts(p'), p'.topo);
      UntouchedSameOwners(p, p1);
      RecordSameOwners(p1.topo, pod, reqs, allow);
      OwnersTwice(p.topo, p1.topo, p'.topo);
    }
  }
}
