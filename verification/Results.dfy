/** Trimming the results of a run to as many instance types as a launch request may name. */
module SchedulingResults {
  import opened Common
  import opened RequirementSets
  import opened Resources
  import opened InstanceTypes
  import opened Pods
  import opened Topologies
  import opened NodeClaims
  import opened NodePoolLimits
  import opened Plans
  import opened Scheduling
  import opened Solving

  const MAX_INSTANCE_TYPES: nat := 60

  /** The cheapest options are kept, if they are diverse enough; otherwise the claim cannot be launched. */
  ghost predicate Trimmed(c: Claim, c': Claim, maxItems: nat, ok: bool) {
    Truncated(c.options, c.requirements, maxItems, c'.options, ok) && c' == c.(options := c'.options)
  }

  lemma TrimmedKeeps(c: Claim, c': Claim, maxItems: nat, ok: bool)
    requires Trimmed(c, c', maxItems, ok) && maxItems > 0
    ensures c'.pods == c.pods && c'.pool == c.pool && c'.requirements == c.requirements
    ensures forall it :: it in c'.options ==> it in c.options
    ensures c.options != [] ==> c'.options != []
    ensures ok ==> |c'.options| <= maxItems && Flexible(c'.options, c'.requirements)
  {
    hide Truncated, Covered;
    TruncationKeepsCheapest(c.options, c.requirements, maxItems, c'.options, ok);
  }

  method TrimClaim(c: NodeClaim, maxItems: nat) returns (ok: bool)
    requires Keyed(c.requirements)
    modifies c`options
    ensures Trimmed(old(c.View()), c.View(), maxItems, ok)
  {
    hide Truncated;
    var kept;
    kept, ok := Truncate(c.options, c.requirements, maxItems);
    c.options := kept;
  }

  // ----- What is left of the claims

  function Kept(claims: seq<Claim>, oks: seq<bool>): seq<Claim>
    requires |claims| == |oks|
  {
    if claims == [] then []
    else
      var n := |claims| - 1;
      Kept(claims[..n], oks[..n]) + (if oks[n] then [claims[n]] else [])
  }

  function Lost(claims: seq<Claim>, oks: seq<bool>): seq<Pod>
    requires |claims| == |oks|
  {
    if claims == [] then []
    else
      var n := |claims| - 1;
      Lost(claims[..n], oks[..n]) + (if oks[n] then [] else claims[n].pods)
  }

  /** Every claim was trimmed, and kept exactly if that succeeded. */
  ghost predicate Sifted(before: seq<Claim>, maxItems: nat, after: seq<Claim>, oks: seq<bool>) {
    |before| == |after| == |oks| && forall i :: 0 <= i < |before| ==> Trimmed(before[i], after[i], maxItems, oks[i])
  }

  /** No pod is lost: it stays on a claim that is kept or is reported with those that are not. */
  lemma {:induction false} SiftingKeepsPods(before: seq<Claim>, maxItems: nat, after: seq<Claim>, oks: seq<bool>)
    requires Sifted(before, maxItems, after, oks) && maxItems > 0
    ensures PodsOnClaims(before) == PodsOnClaims(Kept(after, oks)) + multiset(Lost(after, oks))
    decreases |before|
  {
    hide Trimmed, PodsOnClaims;
    if before == [] {
      NoClaims();
    } else {
      var n := |before| - 1;
      SiftingKeepsPods(before[..n], maxItems, after[..n], oks[..n]);
      TrimmedKeeps(before[n], after[n], maxItems, oks[n]);
      assert before == before[..n] + [before[n]];
      ClaimsSplit(before[..n], [before[n]]);
      OneClaim(before[n]);
      if oks[n] {
        ClaimsSplit(Kept(after[..n], oks[..n]), [after[n]]);
        OneClaim(after[n]);
      } else {
        assert Kept(after, oks) == Kept(after[..n], oks[..n]);
      }
    }
  }

  lemma NoClaims()
    ensures PodsOnClaims([]) == multiset{}
  {}

  lemma {:induction false} SiftingLoad(
    before: seq<Claim>, maxItems: nat, after: seq<Claim>, oks: seq<bool>, pool: string, r: string)
    requires Sifted(before, maxItems, after, oks) && maxItems > 0 && Launchable(before)
    ensures Launchable(Kept(after, oks)) && Load(Kept(after, oks), pool, r) <= Load(before, pool, r)
    ensures forall c' :: c' in Kept(after, oks) ==> exists c :: c in before && c.pool == c'.pool
    decreases |before|
  {
    hide Trimmed, Load, Physical, Largest;
    if before == [] {
      NoLoad([], pool, r);
    } else {
      var n := |before| - 1;
      var c, c', kept := before[n], after[n], Kept(after[..n], oks[..n]);
      SiftingLoad(before[..n], maxItems, after[..n], oks[..n], pool, r);
      assert before == before[..n] + [c] && c in before;
      LoadSplit(before[..n], [c], pool, r);
      TrimmedLoad(c, c', maxItems, oks[n], pool, r);
      LoadSplit(kept, [c'], pool, r);
      assert !oks[n] ==> Kept(after, oks) == kept;
    }
  }

  lemma TrimmedLoad(c: Claim, c': Claim, maxItems: nat, ok: bool, pool: string, r: string)
    requires Trimmed(c, c', maxItems, ok) && maxItems > 0 && c.options != [] && Physical(c.options)
    ensures Launchable([c]) && Launchable([c']) && c'.pool == c.pool && 0 <= Load([c], pool, r) &&
      Load([c'], pool, r) <= Load([c], pool, r)
  {
    hide Trimmed, Load;
    TrimmedKeeps(c, c', maxItems, ok);
    LoadOfOne(c, pool, r);
    LoadOfOne(c', pool, r);
    LargestOfFewer(c'.options, c.options, r);
    assert c.options[0] in c.options && NonNegative(c.options[0].capacity);
  }

  /** The pools stay within their limits. */
  lemma SiftingKeepsLimits(
    before: seq<Claim>, maxItems: nat, after: seq<Claim>, oks: seq<bool>, remaining: Budgets, start: Budgets)
    requires Sifted(before, maxItems, after, oks) && maxItems > 0 && LimitInv(before, remaining, start)
    ensures LimitInv(Kept(after, oks), remaining, start)
  {
    hide Load, Trimmed;
    SiftingLoad(before, maxItems, after, oks, "", "");
    forall pool, r | pool in start && r in start[pool]
      ensures WithinBudget(Kept(after, oks), remaining, start, pool, r) {
      assert WithinBudget(before, remaining, start, pool, r);
      SiftingLoad(before, maxItems, after, oks, pool, r);
    }
  }

  lemma SiftStep(before: seq<Claim>, maxItems: nat, after: seq<Claim>, oks: seq<bool>, c: Claim, c': Claim, ok: bool)
    requires Sifted(before, maxItems, after, oks) && Trimmed(c, c', maxItems, ok)
    ensures Sifted(before + [c], maxItems, after + [c'], oks + [ok])
    ensures Kept(after + [c'], oks + [ok]) == if ok then Kept(after, oks) + [c'] else Kept(after, oks)
    ensures Lost(after + [c'], oks + [ok]) == if ok then Lost(after, oks) else Lost(after, oks) + c'.pods
  {
    hide Trimmed;
    assert (after + [c'])[..|after|] == after && (oks + [ok])[..|oks|] == oks;
  }

  lemma UIDsOfMore(xs: seq<Pod>, ys: seq<Pod>)
    ensures Elements(PodUIDs(xs + ys)) == Elements(PodUIDs(xs)) + set p | p in ys :: p.uid
  {
    assert PodUIDs(xs + ys) == PodUIDs(xs) + PodUIDs(ys);
    forall u | u in PodUIDs(ys) ensures exists p :: p in ys && p.uid == u {
      var i :| 0 <= i < |ys| && PodUIDs(ys)[i] == u;
      assert ys[i] in ys;
    }
    forall p | p in ys ensures p.uid in PodUIDs(ys) {
      var i :| 0 <= i < |ys| && ys[i] == p;
      assert PodUIDs(ys)[i] == p.uid;
    }
  }

  /** Trim one claim; those after it and those already kept are not affected. */
  method TrimAt(claims: seq<NodeClaim>, i: nat, c: NodeClaim, maxItems: nat, valid: seq<NodeClaim>) returns (ok: bool)
    requires i < |claims| && NoDuplicates(claims) && claims[i] == c && Keyed(c.requirements) && c !in valid
    modifies c`options
    ensures Trimmed(old(c.View()), c.View(), maxItems, ok)
    ensures ClaimViews(claims[..i + 1]) == old(ClaimViews(claims[..i])) + [c.View()]
    ensures ClaimViews(claims[i + 1..]) == old(ClaimViews(claims[i + 1..])) &&
      ClaimViews(valid) == old(ClaimViews(valid))
  {
    hide Trimmed, Keyed;
    ok := TrimClaim(c, maxItems);
    assert claims[..i + 1] == claims[..i] + [c];
  }

  /** Trim all claims; the pods of a claim that cannot be launched are reported as errors. */
  method TruncateInstanceTypes(claims: seq<NodeClaim>, podErrors: set<UID>, maxItems: nat)
    returns (valid: seq<NodeClaim>, errors: set<UID>, ghost oks: seq<bool>)
    requires DistinctClaims(claims) && forall c :: c in claims ==> Keyed(c.requirements)
    modifies claims
    ensures Sifted(old(ClaimViews(claims)), maxItems, ClaimViews(claims), oks)
    ensures ClaimViews(valid) == Kept(ClaimViews(claims), oks)
    ensures errors == podErrors + Elements(PodUIDs(Lost(ClaimViews(claims), oks)))
    ensures forall c :: c in valid ==> c in claims
  {
    hide Trimmed, Keyed, Sifted, Kept, Lost, PodUIDs, ClaimViews, ClaimObjects;
    valid, errors, oks := [], podErrors, [];
    ghost var before := ClaimViews(claims);
    NothingSifted(claims, maxItems);
    for i := 0 to |claims|
      invariant |oks| == i && (forall c :: c in claims ==> c.requirements == old(c.requirements))
      invariant Sifted(before[..i], maxItems, ClaimViews(claims[..i]), oks) &&
        |ClaimViews(claims[..i])| == i == |before[..i]|
      invariant ClaimViews(claims[i..]) == before[i..] && forall c :: c in valid ==> c in claims[..i]
      invariant ClaimViews(valid) == Kept(ClaimViews(claims[..i]), oks)
      invariant errors == podErrors + Elements(PodUIDs(Lost(ClaimViews(claims[..i]), oks)))
    {
      var c := claims[i];
      ghost var after := ClaimViews(claims[..i]);
      FirstView(claims[i..]);
      assert c !in claims[..i] && claims[i..][1..] == claims[i + 1..] && before[..i + 1] == before[..i] + [before[i]];
      var ok := TrimAt(claims, i, c, maxItems, valid);
      SiftStep(before[..i], maxItems, after, oks, before[i], c.View(), ok);
      oks := oks + [ok];
      if ok {
        NewView(valid, c);
        valid := valid + [c];
      } else {
        UIDsOfMore(Lost(after, oks[..i]), c.pods);
        errors := errors + set p | p in c.pods :: p.uid;
      }
    }
    assert claims[..|claims|] == claims && before[..|before|] == before;
  }

  // ----- From the end of the loop to the results

  function FinalizedAll(claims: seq<Claim>): (r: seq<Claim>)
    ensures |r| == |claims| && forall i :: 0 <= i < |claims| ==> r[i] == Finalized(claims[i])
  {
    seq(|claims|, i requires 0 <= i < |claims| => Finalized(claims[i]))
  }

  method FinalizeEach(claims: seq<NodeClaim>)
    requires NoDuplicates(claims)
    modifies claims
    ensures ClaimViews(claims) == FinalizedAll(old(ClaimViews(claims)))
  {
    for i := 0 to |claims|
      invariant forall j ::
        0 <= j < |claims| ==>
          claims[j].View() == if j < i then Finalized(old(claims[j].View())) else old(claims[j].View())
    {
      claims[i].FinalizeScheduling();
    }
  }

  lemma {:induction false} FinalizedPods(claims: seq<Claim>)
    ensures PodsOnClaims(FinalizedAll(claims)) == PodsOnClaims(claims)
  {
    if claims != [] {
      assert FinalizedAll(claims)[1..] == FinalizedAll(claims[1..]);
      FinalizedPods(claims[1..]);
    }
  }

  lemma {:induction false} FinalizedLoad(claims: seq<Claim>, pool: string, r: string)
    requires Launchable(claims)
    ensures Launchable(FinalizedAll(claims)) && Load(FinalizedAll(claims), pool, r) == Load(claims, pool, r)
  {
    forall c | c in FinalizedAll(claims) ensures c.options != [] && Physical(c.options) {
      var i :| 0 <= i < |claims| && FinalizedAll(claims)[i] == c;
      assert claims[i] in claims;
    }
    if claims != [] {
      assert FinalizedAll(claims)[1..] == FinalizedAll(claims[1..]);
      FinalizedLoad(claims[1..], pool, r);
    }
  }

  lemma FinalizedLimits(claims: seq<Claim>, remaining: Budgets, start: Budgets)
    requires LimitInv(claims, remaining, start)
    ensures LimitInv(FinalizedAll(claims), remaining, start)
  {
    hide Load, Physical;
    var after := FinalizedAll(claims);
    FinalizedLoad(claims, "", "");
    forall pool, r | pool in start && r in start[pool] ensures WithinBudget(after, remaining, start, pool, r) {
      assert WithinBudget(claims, remaining, start, pool, r);
      FinalizedLoad(claims, pool, r);
      if c :| c in after && c.pool == pool {
        var i :| 0 <= i < |after| && after[i] == c;
        assert claims[i] in claims && claims[i].pool == pool;
      }
    }
  }

  /** What is returned for the claims a plan ended with. */
  ghost predicate Concluded(before: seq<Claim>, kept: seq<Claim>, lost: seq<Pod>) {
    exists after, oks :: ConcludedAs(before, kept, lost, after, oks)
  }

  ghost predicate ConcludedAs(before: seq<Claim>, kept: seq<Claim>, lost: seq<Pod>, after: seq<Claim>, oks: seq<bool>) {
    && Sifted(FinalizedAll(before), MAX_INSTANCE_TYPES, after, oks)
    && kept == Kept(after, oks) && lost == Lost(after, oks)
  }

  /**
   Every returned claim is a claim of the plan with its pods, without its host name and
   with at most as many of its options as a launch may name, which satisfy its minValues;
   a pod of the plan's claims is on a returned claim or lost; pools stay within limits.
   */
  lemma ConcludedKeeps(before: seq<Claim>, kept: seq<Claim>, lost: seq<Pod>, remaining: Budgets, start: Budgets)
    requires Concluded(before, kept, lost) && LimitInv(before, remaining, start)
    ensures PodsOnClaims(before) == PodsOnClaims(kept) + multiset(lost) && LimitInv(kept, remaining, start)
    ensures forall k :: k in kept ==> exists c :: c in before && LaunchOf(c, k)
  {
    hide Sifted, LimitInv, Trimmed;
    var after, oks :| ConcludedAs(before, kept, lost, after, oks);
    SiftedLengths(FinalizedAll(before), after, oks);
    FinalizedPods(before);
    SiftingKeepsPods(FinalizedAll(before), MAX_INSTANCE_TYPES, after, oks);
    FinalizedLimits(before, remaining, start);
    SiftingKeepsLimits(FinalizedAll(before), MAX_INSTANCE_TYPES, after, oks, remaining, start);
    forall k | k in kept ensures exists c :: c in before && LaunchOf(c, k) {
      var i := KeptFrom(after, oks, k);
      SiftedAt(FinalizedAll(before), after, oks, i);
      TrimmedKeeps(FinalizedAll(before)[i], k, MAX_INSTANCE_TYPES, oks[i]);
      TrimmedOnly(FinalizedAll(before)[i], k, MAX_INSTANCE_TYPES, oks[i]);
      assert before[i] in before && LaunchOf(before[i], k);
    }
  }

  ghost predicate LaunchOf(c: Claim, k: Claim) {
    && k == Finalized(c).(options := k.options) && (forall it :: it in k.options ==> it in c.options)
    && |k.options| <= 60 && Flexible(k.options, k.requirements)
  }

  lemma SiftedLengths(before: seq<Claim>, after: seq<Claim>, oks: seq<bool>)
    requires Sifted(before, MAX_INSTANCE_TYPES, after, oks)
    ensures |before| == |after| == |oks|
  {}

  lemma SiftedAt(before: seq<Claim>, after: seq<Claim>, oks: seq<bool>, i: nat)
    requires Sifted(before, MAX_INSTANCE_TYPES, after, oks) && i < |oks|
    ensures |before| == |after| == |oks| && Trimmed(before[i], after[i], MAX_INSTANCE_TYPES, oks[i])
  {}

  lemma TrimmedOnly(c: Claim, c': Claim, maxItems: nat, ok: bool)
    requires Trimmed(c, c', maxItems, ok)
    ensures c' == c.(options := c'.options)
  {}

  lemma {:induction false} KeptFrom(claims: seq<Claim>, oks: seq<bool>, k: Claim) returns (i: nat)
    requires |claims| == |oks| && k in Kept(claims, oks)
    ensures i < |claims| && oks[i] && claims[i] == k
  {
    var n := |claims| - 1;
    if oks[n] && claims[n] == k {
      i := n;
    } else {
      i := KeptFrom(claims[..n], oks[..n], k);
    }
  }

  /** Finalize and trim the claims of a run. */
  method Conclude(s: Scheduler, podErrors: set<UID>)
    returns (valid: seq<NodeClaim>, errors: set<UID>, ghost lost: seq<Pod>)
    requires s.Valid()
    modifies s.newNodeClaims
    ensures Concluded(old(ClaimViews(s.newNodeClaims)), ClaimViews(valid), lost)
    ensures NodeViews(s.existingNodes) == old(NodeViews(s.existingNodes)) &&
      (forall c :: c in valid ==> c in s.newNodeClaims)
    ensures errors == podErrors + Elements(PodUIDs(lost))
  {
    hide Sifted, Kept, Lost, PodUIDs, PlanInv, AllNumbered, Keyed, WellFormed;
    ghost var before, nodes := ClaimViews(s.newNodeClaims), NodeViews(s.existingNodes);
    var claims := s.newNodeClaims;
    ClaimsAreKeyed(s);
    assert forall c :: c in claims ==> c !in NodeObjects(s.existingNodes);
    assert allocated(NodeObjects(s.existingNodes));
    hide Topology.View, Topology.Valid, Topology.Repr, Scheduler.View, NodeObjects, ClaimObjects, NodeViews;
    FinalizeEach(claims);
    assert forall c :: c in claims ==> Keyed(c.requirements) by { FinalizedKeyed(before, claims); }
    ghost var oks;
    valid, errors, oks := TruncateInstanceTypes(claims, podErrors, MAX_INSTANCE_TYPES);
    SiftedLengths(FinalizedAll(before), ClaimViews(claims), oks);
    lost := Lost(ClaimViews(claims), oks);
    assert ConcludedAs(before, ClaimViews(valid), lost, ClaimViews(claims), oks);
  }

  lemma FinalizedKeyed(before: seq<Claim>, claims: seq<NodeClaim>)
    requires ClaimViews(claims) == FinalizedAll(before) && forall c :: c in before ==> Keyed(c.requirements)
    ensures forall c :: c in claims ==> Keyed(c.requirements)
  {
    forall c | c in claims ensures Keyed(c.requirements) {
      var i :| 0 <= i < |claims| && claims[i] == c;
      assert ClaimViews(claims)[i] == Finalized(before[i]) && before[i] in before;
    }
  }

  lemma NothingSifted(claims: seq<NodeClaim>, maxItems: nat)
    ensures claims[..0] == [] && claims[0..] == claims && |ClaimViews(claims)| == |claims|
    ensures ClaimViews([]) == [] && Sifted([], maxItems, [], []) && Kept([], []) == [] && PodUIDs(Lost([], [])) == []
  {}

  lemma FirstView(claims: seq<NodeClaim>)
    requires claims != []
    ensures ClaimViews(claims) == [claims[0].View()] + ClaimViews(claims[1..])
  {}

  lemma NewView(claims: seq<NodeClaim>, c: NodeClaim)
    ensures ClaimViews(claims + [c]) == ClaimViews(claims) + [c.View()]
  {}
}
