/**
 The five ways to choose nodes for disruption, and the proof that what they choose stays
 within the budgets.
 */
module DisruptionMethods {
  import opened Common
  import opened DisruptionBudgets
  import opened MultiNodeSearch
  import opened InstanceTypes
  import opened Consolidation

  function CountIn(cs: seq<Candidate>, pool: string): nat {
    if cs == [] then 0 else CountIn(cs[..|cs| - 1], pool) + (if cs[|cs| - 1].pool == pool then 1 else 0)
  }

  /** The candidates fit the allowance for the reason in every pool. */
  ghost predicate FitsBudgets(cs: seq<Candidate>, m: Allowance, reason: Reason) {
    forall pool :: CountIn(cs, pool) <= Left(m, pool, reason)
  }

  // ----- The promise

  /** The nodes of a pool that are chosen. */
  function ChosenIn(cs: seq<Candidate>, pool: string): set<string> { set c | c in cs && c.pool == pool :: c.name }

  lemma {:induction false} ChosenBounded(cs: seq<Candidate>, pool: string)
    ensures |ChosenIn(cs, pool)| <= CountIn(cs, pool)
  {
    if cs != [] {
      var n, c := |cs| - 1, cs[|cs| - 1];
      ChosenBounded(cs[..n], pool);
      assert cs == cs[..n] + [c];
      assert ChosenIn(cs, pool) == ChosenIn(cs[..n], pool) + (if c.pool == pool then {c.name} else {});
    }
  }

  /**
   Disrupting candidates that fit the allowance leaves no more nodes of the pool disrupted
   than were already, or than the tightest budget allows, whichever is more.
   */
  lemma BudgetIsKept(nodes: seq<ClusterNode>, pool: NodePool, m: Allowance, reason: Reason, cs: seq<Candidate>)
    requires Grants(m, nodes, pool) && FitsBudgets(cs, m, reason)
    ensures var before := DisruptingNodes(nodes, pool.name);
      |before + ChosenIn(cs, pool.name)| <= Max(|before|, LimitFor(pool, reason, |Members(nodes, pool.name)|))
  {
    hide Members, DisruptingNodes, ChosenIn, LimitFor;
    var before, chosen := DisruptingNodes(nodes, pool.name), ChosenIn(cs, pool.name);
    ChosenBounded(cs, pool.name);
    assert CountIn(cs, pool.name) <= Left(m, pool.name, reason);
    UnionBound(before, chosen);
  }

  lemma UnionBound(a: set<string>, b: set<string>)
    ensures |a + b| <= |a| + |b|
  {
    assert a + b == a + (b - a) && |b - a| <= |b|;
  }

  /** A pool with a misconfigured budget gives nothing to disrupt. */
  lemma MisconfiguredClosesPool(
    nodes: seq<ClusterNode>, pool: NodePool, m: Allowance, reason: Reason, cs: seq<Candidate>)
    requires Grants(m, nodes, pool) && FitsBudgets(cs, m, reason) && AnyMisconfigured(pool.budgets)
    ensures ChosenIn(cs, pool.name) == {}
  {
    hide Members, DisruptingNodes, ChosenIn;
    ChosenBounded(cs, pool.name);
    assert CountIn(cs, pool.name) <= Left(m, pool.name, reason);
  }

  // ----- Spending

  class Ledger {
    var mapping: Allowance

    constructor (mapping: Allowance)
      ensures this.mapping == mapping
    {
      this.mapping := mapping;
    }

    function Available(pool: string, reason: Reason): int reads this { Left(mapping, pool, reason) }

    /** One node of the pool less. */
    method Spend(pool: string, reason: Reason)
      requires pool in mapping && reason in mapping[pool]
      modifies this
      ensures forall p, r ::
        Left(mapping, p, r) == Left(old(mapping), p, r) - (if p == pool && r == reason then 1 else 0)
    {
      mapping := mapping[pool := mapping[pool][reason := mapping[pool][reason] - 1]];
    }
  }

  /** A candidate is left out only if the allowance of its pool is spent. */
  ghost predicate Exhausts(picked: seq<Candidate>, cs: seq<Candidate>, m: Allowance, reason: Reason) {
    forall c :: c in cs && c !in picked ==> CountIn(picked, c.pool) == Left(m, c.pool, reason)
  }

  lemma StaysExhausted(picked: seq<Candidate>, cs: seq<Candidate>, m: Allowance, reason: Reason, c: Candidate)
    requires Exhausts(picked, cs, m, reason) && FitsBudgets(picked + [c], m, reason)
    ensures Exhausts(picked + [c], cs + [c], m, reason)
  {
    assert (picked + [c])[..|picked|] == picked;
    forall x | x in cs + [c] && x !in picked + [c] ensures CountIn(picked + [c], x.pool) == Left(m, x.pool, reason) {
      assert CountIn(picked, x.pool) == Left(m, x.pool, reason) &&
        CountIn(picked + [c], x.pool) <= Left(m, x.pool, reason);
    }
  }

  /** The pool of some candidate has nothing left. */
  ghost predicate SomeSpent(picked: seq<Candidate>, cs: seq<Candidate>, m: Allowance, reason: Reason) {
    exists c :: c in cs && CountIn(picked, c.pool) == Left(m, c.pool, reason)
  }

  lemma StaysSpent(picked: seq<Candidate>, cs: seq<Candidate>, m: Allowance, reason: Reason, c: Candidate)
    requires SomeSpent(picked, cs, m, reason) && FitsBudgets(picked + [c], m, reason)
    ensures SomeSpent(picked + [c], cs, m, reason)
  {
    var x :| x in cs && CountIn(picked, x.pool) == Left(m, x.pool, reason);
    assert (picked + [c])[..|picked|] == picked;
    assert CountIn(picked + [c], x.pool) <= Left(m, x.pool, reason);
  }

  /** The candidates with or without pods. */
  function OfKind(cs: seq<Candidate>, empty: bool): (r: seq<Candidate>)
    ensures forall c :: c in r <==> c in cs && c.empty == empty
  {
    if cs == [] then []
    else OfKind(cs[..|cs| - 1], empty) + (if cs[|cs| - 1].empty == empty then [cs[|cs| - 1]] else [])
  }

  /** What was picked and what is left make up what there was. */
  ghost predicate Spends(before: Allowance, after: Allowance, picked: seq<Candidate>, reason: Reason) {
    forall pool ::
      Left(after, pool, reason) >= 0 && CountIn(picked, pool) + Left(after, pool, reason) == Left(before, pool, reason)
  }

  lemma SpendsOne(
    before: Allowance, after: Allowance, after': Allowance, picked: seq<Candidate>, c: Candidate, reason: Reason)
    requires Spends(before, after, picked, reason) && Left(after, c.pool, reason) > 0
    requires forall p, r :: Left(after', p, r) == Left(after, p, r) - (if p == c.pool && r == reason then 1 else 0)
    ensures Spends(before, after', picked + [c], reason)
  {
    assert (picked + [c])[..|picked|] == picked;
    forall pool ensures CountIn(picked + [c], pool) == CountIn(picked, pool) + (if c.pool == pool then 1 else 0) {}
  }

  lemma SpendsWithin(before: Allowance, after: Allowance, picked: seq<Candidate>, reason: Reason)
    requires Spends(before, after, picked, reason)
    ensures FitsBudgets(picked, before, reason)
  {}

  lemma SpendsNothing(m: Allowance, reason: Reason)
    requires NoDeficit(m)
    ensures Spends(m, m, [], reason)
  {}

  lemma {:induction false} PrefixWithin(cs: seq<Candidate>, n: nat, m: Allowance, reason: Reason)
    requires FitsBudgets(cs, m, reason) && n <= |cs|
    ensures FitsBudgets(cs[..n], m, reason)
  {
    forall pool ensures CountIn(cs[..n], pool) <= CountIn(cs, pool) {
      PrefixCount(cs, n, pool);
    }
  }

  lemma {:induction false} PrefixCount(cs: seq<Candidate>, n: nat, pool: string)
    requires n <= |cs|
    ensures CountIn(cs[..n], pool) <= CountIn(cs, pool)
  {
    if n == |cs| {
      assert cs[..n] == cs;
    } else {
      PrefixCount(cs[..|cs| - 1], n, pool);
      assert cs[..|cs| - 1][..n] == cs[..n];
    }
  }

  lemma OneWithin(c: Candidate, m: Allowance, reason: Reason)
    requires NoDeficit(m) && Left(m, c.pool, reason) > 0
    ensures FitsBudgets([c], m, reason)
  {
    assert [c][..0] == [];
  }

  // ----- The methods

  /**
   The budget stands in the way of the drifted node, it is being deleted already, or its pods
   cannot be rescheduled.
   */
  predicate NotNow(c: Candidate, m: Allowance, simulate: Candidate -> Simulation) {
    Left(m, c.pool, Drifted) == 0 || simulate(c).Deleting? || simulate(c).Unschedulable?
  }

  /**
   Drifted nodes that are empty go together.  If there are none to go, the first node that is
   not passed over decides: it goes if its pods can be rescheduled, and the method fails if
   the simulation does.
   */
  method ComputeDrift(ledger: Ledger, candidates: seq<Candidate>, simulate: Candidate -> Simulation)
    returns (cmd: seq<Candidate>, ok: bool, ghost empties: seq<Candidate>, ghost at: nat)
    requires NoDeficit(ledger.mapping)
    modifies ledger
    ensures FitsBudgets(cmd, old(ledger.mapping), Drifted) && forall c :: c in cmd ==> c in candidates
    ensures Subsequence(empties, candidates) && (forall c :: c in empties ==> c in candidates && c.empty)
    ensures Exhausts(empties, OfKind(candidates, true), old(ledger.mapping), Drifted)
    ensures empties != [] ==> ok && cmd == empties
    ensures empties == [] ==>
      && at <= |candidates| && (forall c :: c in candidates[..at] ==> NotNow(c, old(ledger.mapping), simulate))
      && (at < |candidates| ==> !candidates[at].empty && !NotNow(candidates[at], old(ledger.mapping), simulate))
      && (ok <==> at < |candidates| ==> simulate(candidates[at]).Scheduled?)
      && cmd == if at < |candidates| && ok then [candidates[at]] else []
  {
    hide Subsequence, Picking, Spends, FitsBudgets, Exhausts;
    ghost var before := ledger.mapping;
    cmd, ok, at := [], true, 0;
    ghost var constrained := false;
    PicksNothing(before, Drifted, true);
    for i := 0 to |candidates|
      invariant Picking(cmd, candidates[..i], before, ledger.mapping, Drifted, true, constrained)
    {
      var c := candidates[i];
      assert candidates[..i + 1] == candidates[..i] + [c];
      ghost var left := ledger.mapping;
      if !c.empty {
        PassesOther(cmd, candidates[..i], c, before, left, Drifted, true, constrained);
        continue;
      }
      LeftIsNatural(cmd, candidates[..i], before, left, Drifted, true, constrained, c.pool);
      if ledger.Available(c.pool, Drifted) > 0 {
        ledger.Spend(c.pool, Drifted);
        PicksOne(cmd, candidates[..i], c, before, left, ledger.mapping, Drifted, true, constrained);
        cmd := cmd + [c];
      } else {
        PassesSpent(cmd, candidates[..i], c, before, left, Drifted, true, constrained);
        constrained := true;
      }
    }
    assert candidates[..|candidates|] == candidates;
    PickingFits(cmd, candidates, before, ledger.mapping, Drifted, true, constrained);
    PickingMeans(cmd, candidates, before, ledger.mapping, Drifted, true, constrained);
    empties := cmd;
    if cmd != [] {
      return;
    }
    NothingSpent(before, ledger.mapping, Drifted);
    for i := 0 to |candidates|
      invariant at == i && cmd == [] && ok
      invariant forall pool :: Left(ledger.mapping, pool, Drifted) == Left(before, pool, Drifted)
      invariant forall c :: c in candidates[..i] ==> NotNow(c, before, simulate)
    {
      var c := candidates[i];
      assert candidates[..i + 1] == candidates[..i] + [c];
      if ledger.Available(c.pool, Drifted) == 0 {
        at := i + 1;
        continue;
      }
      LeftOutIsSpent(candidates, before, Drifted, c);
      match simulate(c) {
        case Deleting =>
          at := i + 1;
          continue;
        case Broken =>
          ok := false;
          return;
        case Unschedulable =>
          at := i + 1;
          continue;
        case Scheduled(_) =>
          OneWithin(c, before, Drifted);
          cmd := [c];
          return;
      }
    }
  }

  lemma PickingMeans(
    picked: seq<Candidate>, seen: seq<Candidate>, before: Allowance, left: Allowance, reason: Reason, empty: bool,
    constrained: bool)
    requires Picking(picked, seen, before, left, reason, empty, constrained)
    ensures Subsequence(picked, seen) && (forall c :: c in picked ==> c in seen && c.empty == empty)
    ensures Exhausts(picked, OfKind(seen, empty), before, reason) && Spends(before, left, picked, reason)
  {}

  lemma NothingSpent(before: Allowance, after: Allowance, reason: Reason)
    requires Spends(before, after, [], reason)
    ensures forall pool :: Left(after, pool, reason) == Left(before, pool, reason)
  {}

  lemma LeftOutIsSpent(cs: seq<Candidate>, m: Allowance, reason: Reason, c: Candidate)
    requires Exhausts([], OfKind(cs, true), m, reason) && c in cs && Left(m, c.pool, reason) != 0
    ensures !c.empty
  {}

  lemma NothingPicked(cs: seq<Candidate>)
    ensures Subsequence([], cs[..0])
  {}

  /** Empty nodes, as many as the budgets allow. */
  method ComputeEmptiness(ledger: Ledger, candidates: seq<Candidate>) returns (cmd: seq<Candidate>)
    requires NoDeficit(ledger.mapping)
    modifies ledger
    ensures FitsBudgets(cmd, old(ledger.mapping), Empty) && forall c :: c in cmd ==> c in candidates
    ensures Exhausts(cmd, candidates, old(ledger.mapping), Empty) && Subsequence(cmd, candidates)
  {
    hide Subsequence;
    ghost var before := ledger.mapping;
    cmd := [];
    SpendsNothing(before, Empty);
    NothingPicked(candidates);
    for i := 0 to |candidates|
      invariant Spends(before, ledger.mapping, cmd, Empty)
      invariant forall c :: c in cmd ==> c in candidates
      invariant Exhausts(cmd, candidates[..i], before, Empty) && Subsequence(cmd, candidates[..i])
    {
      var c := candidates[i];
      SubsequenceGrows(cmd, candidates, i);
      assert candidates[..i + 1] == candidates[..i] + [c];
      if ledger.Available(c.pool, Empty) > 0 {
        ghost var left := ledger.mapping;
        ledger.Spend(c.pool, Empty);
        SpendsOne(before, left, ledger.mapping, cmd, c, Empty);
        SpendsWithin(before, ledger.mapping, cmd + [c], Empty);
        StaysExhausted(cmd, candidates[..i], before, Empty, c);
        cmd := cmd + [c];
      }
    }
    assert candidates[..|candidates|] == candidates;
    SpendsWithin(before, ledger.mapping, cmd, Empty);
  }

  /** What has been picked of the candidates seen so far, and what is left of the allowance. */
  ghost predicate Picking(
    picked: seq<Candidate>, seen: seq<Candidate>, before: Allowance, left: Allowance, reason: Reason, empty: bool,
    constrained: bool)
  {
    && Spends(before, left, picked, reason) && Subsequence(picked, seen)
    && (forall c :: c in picked ==> c in seen && c.empty == empty)
    && Exhausts(picked, OfKind(seen, empty), before, reason)
    && (!constrained ==> forall c :: c in seen && c.empty == empty ==> c in picked)
    && (constrained ==> SomeSpent(picked, if empty then OfKind(seen, true) else seen, before, reason))
  }

  lemma SeesOneMore(seen: seq<Candidate>, c: Candidate, empty: bool)
    ensures (seen + [c])[..|seen|] == seen
    ensures OfKind(seen + [c], empty) == OfKind(seen, empty) + if c.empty == empty then [c] else []
  {
    assert (seen + [c])[..|seen|] == seen;
  }

  lemma SubsequenceSees(picked: seq<Candidate>, seen: seq<Candidate>, c: Candidate)
    requires Subsequence(picked, seen)
    ensures Subsequence(picked, seen + [c]) && Subsequence(picked + [c], seen + [c])
  {
    hide Subsequence;
    var more := seen + [c];
    assert more[..|seen|] == seen && more[..|seen| + 1] == more;
    SubsequenceGrows(picked, more, |seen|);
  }

  lemma PassesOther(
    picked: seq<Candidate>, seen: seq<Candidate>, c: Candidate, before: Allowance, left: Allowance, reason: Reason,
    empty: bool, constrained: bool)
    requires Picking(picked, seen, before, left, reason, empty, constrained) && c.empty != empty
    ensures Picking(picked, seen + [c], before, left, reason, empty, constrained)
  {
    hide CountIn, OfKind, Subsequence, Spends;
    SeesOneMore(seen, c, empty);
    SeesOneMore(seen, c, true);
    SubsequenceSees(picked, seen, c);
  }

  lemma PassesSpent(
    picked: seq<Candidate>, seen: seq<Candidate>, c: Candidate, before: Allowance, left: Allowance, reason: Reason,
    empty: bool, constrained: bool)
    requires Picking(picked, seen, before, left, reason, empty, constrained)
    requires Left(left, c.pool, reason) == 0 && (empty ==> c.empty)
    ensures Picking(picked, seen + [c], before, left, reason, empty, true)
  {
    hide CountIn, OfKind, Subsequence;
    SeesOneMore(seen, c, empty);
    SeesOneMore(seen, c, true);
    SubsequenceSees(picked, seen, c);
    assert CountIn(picked, c.pool) == Left(before, c.pool, reason);
  }

  lemma PicksOne(
    picked: seq<Candidate>, seen: seq<Candidate>, c: Candidate, before: Allowance, left: Allowance, left': Allowance,
    reason: Reason, empty: bool, constrained: bool)
    requires Picking(picked, seen, before, left, reason, empty, constrained)
    requires c.empty == empty && Left(left, c.pool, reason) > 0
    requires forall p, r :: Left(left', p, r) == Left(left, p, r) - if p == c.pool && r == reason then 1 else 0
    ensures Picking(picked + [c], seen + [c], before, left', reason, empty, constrained)
  {
    hide CountIn, OfKind, Subsequence, Spends, Exhausts, SomeSpent, FitsBudgets;
    SeesOneMore(seen, c, empty);
    SeesOneMore(seen, c, true);
    SubsequenceSees(picked, seen, c);
    SpendsOne(before, left, left', picked, c, reason);
    SpendsWithin(before, left', picked + [c], reason);
    StaysExhausted(picked, OfKind(seen, empty), before, reason, c);
    if constrained {
      StaysSpent(picked, if empty then OfKind(seen, true) else seen, before, reason, c);
      MoreToSpend(picked + [c], if empty then OfKind(seen, true) else seen, before, reason, c);
    }
  }

  lemma MoreToSpend(picked: seq<Candidate>, cs: seq<Candidate>, m: Allowance, reason: Reason, c: Candidate)
    requires SomeSpent(picked, cs, m, reason)
    ensures SomeSpent(picked, cs + [c], m, reason)
  {}

  lemma PicksNothing(m: Allowance, reason: Reason, empty: bool)
    requires NoDeficit(m)
    ensures Picking([], [], m, m, reason, empty, false)
  {
    SpendsNothing(m, reason);
  }

  /**
   Candidates with or without pods, as many as the budgets allow; `constrained` tells whether
   a budget stood in the way.
   */
  method PickWithin(ledger: Ledger, candidates: seq<Candidate>, reason: Reason, empty: bool)
    returns (picked: seq<Candidate>, constrained: bool)
    requires NoDeficit(ledger.mapping)
    modifies ledger
    ensures Picking(picked, candidates, old(ledger.mapping), ledger.mapping, reason, empty, constrained)
    ensures FitsBudgets(picked, old(ledger.mapping), reason)
  {
    hide Picking, FitsBudgets, Spends;
    ghost var before := ledger.mapping;
    picked, constrained := [], false;
    PicksNothing(before, reason, empty);
    for i := 0 to |candidates|
      invariant Picking(picked, candidates[..i], before, ledger.mapping, reason, empty, constrained)
    {
      var c := candidates[i];
      assert candidates[..i + 1] == candidates[..i] + [c];
      ghost var left := ledger.mapping;
      if empty && !c.empty {
        PassesOther(picked, candidates[..i], c, before, left, reason, empty, constrained);
        continue;
      }
      if ledger.Available(c.pool, reason) == 0 {
        PassesSpent(picked, candidates[..i], c, before, left, reason, empty, constrained);
        constrained := true;
        continue;
      }
      if !empty && c.empty {
        PassesOther(picked, candidates[..i], c, before, left, reason, empty, constrained);
        continue;
      }
      LeftIsPositive(picked, candidates[..i], before, left, reason, empty, constrained, c.pool);
      ledger.Spend(c.pool, reason);
      PicksOne(picked, candidates[..i], c, before, left, ledger.mapping, reason, empty, constrained);
      picked := picked + [c];
    }
    assert candidates[..|candidates|] == candidates;
    PickingFits(picked, candidates, before, ledger.mapping, reason, empty, constrained);
  }

  lemma LeftIsPositive(
    picked: seq<Candidate>, seen: seq<Candidate>, before: Allowance, left: Allowance, reason: Reason, empty: bool,
    constrained: bool, pool: string)
    requires Picking(picked, seen, before, left, reason, empty, constrained) && Left(left, pool, reason) != 0
    ensures Left(left, pool, reason) > 0 && pool in left && reason in left[pool]
  {
    hide CountIn, OfKind, Subsequence, Exhausts, SomeSpent;
  }

  lemma LeftIsNatural(
    picked: seq<Candidate>, seen: seq<Candidate>, before: Allowance, left: Allowance, reason: Reason, empty: bool,
    constrained: bool, pool: string)
    requires Picking(picked, seen, before, left, reason, empty, constrained)
    ensures Left(left, pool, reason) >= 0
  {
    hide CountIn, OfKind, Subsequence, Exhausts, SomeSpent;
  }

  lemma PickingFits(
    picked: seq<Candidate>, seen: seq<Candidate>, before: Allowance, left: Allowance, reason: Reason, empty: bool,
    constrained: bool)
    requires Picking(picked, seen, before, left, reason, empty, constrained)
    ensures FitsBudgets(picked, before, reason)
  {
    hide Subsequence, Exhausts, SomeSpent;
    SpendsWithin(before, left, picked, reason);
  }

  /** The current form of the proposed candidates. */
  function MapCandidates(proposed: seq<Candidate>, current: seq<Candidate>): (r: seq<Candidate>)
    ensures forall c :: c in r <==> c in current && exists p :: p in proposed && p.name == c.name
  {
    if current == [] then []
    else
      var n := |current| - 1;
      MapCandidates(proposed, current[..n]) +
      (if exists c :: c in proposed && c.name == current[n].name then [current[n]] else [])
  }

  /** The state of the cluster when a command is validated, a while after it was computed. */
  datatype Later = Later(current: seq<Candidate>, nominated: set<string>, mapping: Allowance)

  /** All candidates are still there, none is about to receive a pod, and together they fit the current budgets. */
  ghost predicate StillThere(cs: seq<Candidate>, later: Later, reason: Reason) {
    var mapped := MapCandidates(cs, later.current);
    |mapped| == |cs| && FitsBudgets(mapped, later.mapping, reason) &&
      forall c :: c in mapped ==> c.name !in later.nominated
  }

  method ValidateCandidates(
    candidates: seq<Candidate>, current: seq<Candidate>, nominated: set<string>, ledger: Ledger, reason: Reason)
    returns (validated: seq<Candidate>, ok: bool)
    requires NoDeficit(ledger.mapping)
    modifies ledger
    ensures ok <==> StillThere(candidates, Later(current, nominated, old(ledger.mapping)), reason)
    ensures validated == if ok then MapCandidates(candidates, current) else []
  {
    var mapped := MapCandidates(candidates, current);
    if |mapped| != |candidates| {
      return [], false;
    }
    ghost var before := ledger.mapping;
    SpendsNothing(before, reason);
    for i := 0 to |mapped|
      invariant Spends(before, ledger.mapping, mapped[..i], reason)
      invariant forall c :: c in mapped[..i] ==> c.name !in nominated
    {
      var c := mapped[i];
      assert mapped[..i + 1] == mapped[..i] + [c];
      if c.name in nominated {
        return [], false;
      }
      if ledger.Available(c.pool, reason) == 0 {
        TooMany(before, ledger.mapping, mapped, i, reason);
        return [], false;
      }
      ghost var left := ledger.mapping;
      ledger.Spend(c.pool, reason);
      SpendsOne(before, left, ledger.mapping, mapped[..i], c, reason);
    }
    assert mapped[..|mapped|] == mapped;
    SpendsWithin(before, ledger.mapping, mapped, reason);
    validated, ok := mapped, true;
  }

  lemma TooMany(before: Allowance, after: Allowance, cs: seq<Candidate>, i: nat, reason: Reason)
    requires i < |cs| && Spends(before, after, cs[..i], reason) && Left(after, cs[i].pool, reason) == 0
    ensures !FitsBudgets(cs, before, reason)
  {
    PrefixCount(cs, i + 1, cs[i].pool);
    assert cs[..i + 1][..i] == cs[..i];
    assert CountIn(cs, cs[i].pool) > Left(before, cs[i].pool, reason);
  }

  /**
   Empty nodes that are still empty when looked at again; `settled` tells that there is
   nothing to do, budgets aside.
   */
  method ComputeEmptyNode(ledger: Ledger, candidates: seq<Candidate>, consolidated: bool, later: Later)
    returns (cmd: seq<Candidate>, settled: bool, ghost picked: seq<Candidate>)
    requires NoDeficit(ledger.mapping) && NoDeficit(later.mapping)
    modifies ledger
    ensures FitsBudgets(cmd, old(ledger.mapping), Empty) && forall c :: c in cmd ==> c in candidates && c.empty
    ensures !consolidated ==>
      && Exhausts(picked, OfKind(candidates, true), old(ledger.mapping), Empty)
      && cmd == if StillThere(picked, later, Empty) && StillEmpty(picked, later.current) then picked else []
    ensures settled ==> cmd == [] && forall c :: c in candidates ==> !c.empty
  {
    ghost var before := ledger.mapping;
    SpendsNothing(before, Empty);
    SpendsWithin(before, before, [], Empty);
    cmd, settled, picked := [], false, [];
    if consolidated {
      return;
    }
    var chosen, constrained := PickWithin(ledger, candidates, Empty, true);
    picked := chosen;
    if chosen == [] {
      settled := !constrained;
      return;
    }
    var fresh' := new Ledger(later.mapping);
    var validated, ok := ValidateCandidates(chosen, later.current, later.nominated, fresh', Empty);
    if ok && forall c :: c in validated ==> c.empty {
      cmd := chosen;
    }
  }

  predicate StillEmpty(cs: seq<Candidate>, current: seq<Candidate>) {
    forall c :: c in MapCandidates(cs, current) ==> c.empty
  }

  /**
   How the simulation went that repeats the one behind a command: it broke, left pods over,
   or opened claims with these options.
   */
  datatype Resimulation = Rebroken | LeftOver | Opening(options: seq<seq<InstanceType>>)

  /**
   The repeated simulation needs no node for a removal, and for a replacement one node that
   every option is good for.
   */
  predicate StillValid(command: Action, again: Resimulation) {
    again.Opening? &&
    match command
    case DeleteNodes => again.options == []
    case ReplaceBy(options, _) =>
      |again.options| == 1 &&
        forall it :: it in options ==> exists other :: other in again.options[0] && other.name == it.name
  }

  function TypeNamesOf(its: seq<InstanceType>): set<string> { set it | it in its :: it.name }

  /**
   A command stands iff the repeated simulation places every pod, opens as many claims as the
   command launches, and would launch every type the command may launch, others perhaps too.
   */
  lemma StillValidIff(command: Action, again: Resimulation)
    ensures StillValid(command, again) <==>
      && again.Opening? && |again.options| == (if command.DeleteNodes? then 0 else 1)
      && (command.ReplaceBy? ==> TypeNamesOf(command.options) <= TypeNamesOf(again.options[0]))
  {
    if again.Opening? && command.ReplaceBy? && |again.options| == 1 {
      forall it | it in command.options ensures it.name in TypeNamesOf(command.options) {}
    }
  }

  /**
   If the pods have come to need other types than the command was made for, it does not stand:
   nothing is launched that was not found to save.
   */
  lemma OtherTypesInvalidate(cs: seq<Candidate>, command: Action, again: Resimulation)
    requires Justified(cs, Proposing(command)) && command.ReplaceBy? && again.Opening? && |again.options| == 1
    requires forall other :: other in again.options[0] ==> other.name !in TypeNamesOf(command.options)
    ensures !StillValid(command, again)
  {
    assert command.options[0] in command.options && command.options[0].name in TypeNamesOf(command.options);
  }

  /** What the cluster looks like as a command is validated: before, during and after the simulation is repeated. */
  datatype Validation = Validation(before: Later, again: Resimulation, after: Later)

  /** Everything a validated command rests on. */
  ghost predicate Validated(cs: seq<Candidate>, command: Action, v: Validation, reason: Reason) {
    && StillThere(cs, v.before, reason) && cs != []
    && StillValid(command, v.again)
    && StillThere(MapCandidates(cs, v.before.current), v.after, reason)
  }

  /** The candidates are validated, the simulation repeated, and the candidates validated again. */
  method IsValid(cs: seq<Candidate>, command: Action, v: Validation, reason: Reason) returns (ok: bool)
    requires NoDeficit(v.before.mapping) && NoDeficit(v.after.mapping)
    ensures ok <==> Validated(cs, command, v, reason)
  {
    hide MapCandidates, NoDeficit, FitsBudgets;
    var ledger := new Ledger(v.before.mapping);
    var first, valid := ValidateCandidates(cs, v.before.current, v.before.nominated, ledger, reason);
    if !valid {
      return false;
    }
    if |first| == 0 {
      return false;
    }
    if !StillValid(command, v.again) {
      return false;
    }
    ledger := new Ledger(v.after.mapping);
    var second;
    second, ok := ValidateCandidates(first, v.after.current, v.after.nominated, ledger, reason);
  }

  function AsAttempt(p: Proposal): Attempt {
    match p
    case Failing => Failed
    case Crashing => Failed
    case Nothing => Infeasible
    case Proposing(_) => Feasible
  }

  /** What the attempt for each prefix comes to. */
  function Prefixes(picked: seq<Candidate>, propose: seq<Candidate> -> Proposal): nat -> Attempt {
    (k: nat) => if k <= |picked| then AsAttempt(propose(picked[..k])) else Infeasible
  }

  /**
   How the search ended: at the longest prefix tried that consolidates and, unless time was up
   at the round it had come to, whose extension by one node does not.
   */
  predicate Searched(
    picked: seq<Candidate>, propose: seq<Candidate> -> Proposal, late: nat -> bool, outcome: Outcome, timedOut: bool,
    tried: seq<nat>)
  {
    var n, cap := |picked|, Min(|picked|, 100);
    && Rounds(tried, n, cap, late) && (timedOut ==> late(|tried|) && !outcome.Error?)
    && Over(tried, outcome, timedOut, n, cap, Prefixes(picked, propose))
    && (outcome.Found? ==> 2 <= outcome.length <= n && propose(picked[..outcome.length]).Proposing?)
  }

  /**
   If shorter prefixes of a prefix that consolidates do so too, a search that is never late
   ends at the longest of up to 101 nodes, or at one for which an attempt failed.
   */
  lemma SearchedLongest(
    picked: seq<Candidate>, propose: seq<Candidate> -> Proposal, late: nat -> bool, outcome: Outcome, timedOut: bool,
    tried: seq<nat>, k: nat)
    requires Searched(picked, propose, late, outcome, timedOut, tried) && (forall i :: !late(i)) && !outcome.Error?
    requires forall i, j ::
      2 <= i <= j <= |picked| && propose(picked[..j]).Proposing? ==> propose(picked[..i]).Proposing?
    requires 2 <= k <= |picked| && k <= 101 && propose(picked[..k]).Proposing?
    ensures outcome.Found? && k <= outcome.length
  {
    assert propose(picked[..2]).Proposing?;
  }

  /**
   The longest prefix of the affordable nodes that consolidates together, if it is still
   valid when looked at again.  The command is one that `propose` found for exactly these
   nodes, so a replacement costs less than they do together.
   */
  method ComputeMultiNode(
    ledger: Ledger, candidates: seq<Candidate>, consolidated: bool, propose: seq<Candidate> -> Proposal,
      late: nat -> bool, v: Validation)
    returns (cmd: seq<Candidate>, command: Action, ok: bool, settled: bool,
      ghost picked: seq<Candidate>, ghost outcome: Outcome, ghost timedOut: bool, ghost tried: seq<nat>)
    requires NoDeficit(ledger.mapping) && NoDeficit(v.before.mapping) && NoDeficit(v.after.mapping)
    requires forall cs :: Justified(cs, propose(cs))
    modifies ledger
    ensures FitsBudgets(cmd, old(ledger.mapping), Underutilized) && forall c :: c in cmd ==> c in candidates && !c.empty
    ensures cmd != [] ==>
      && 2 <= |cmd| <= 101 && propose(cmd) == Proposing(command) && Justified(cmd, Proposing(command))
      && Validated(cmd, command, v, Underutilized)
    ensures settled || !ok ==> cmd == []
    ensures !consolidated ==>
      && Exhausts(picked, OfKind(candidates, false), old(ledger.mapping), Underutilized)
      && Subsequence(picked, candidates)
      && Searched(picked, propose, late, outcome, timedOut, tried) && (ok <==> !outcome.Error?)
      && (settled ==> outcome.Nothing?)
      && (outcome.Nothing? && !settled ==> SomeSpent(picked, candidates, old(ledger.mapping), Underutilized))
      && (outcome.Found? ==>
            var found := propose(picked[..outcome.length]).command;
            cmd == if Validated(picked[..outcome.length], found, v, Underutilized)
              then picked[..outcome.length] else [])
  {
    hide Justified, Validated, SomeSpent, Exhausts, Subsequence, Pow2;
    ghost var before := ledger.mapping;
    SpendsNothing(before, Underutilized);
    SpendsWithin(before, before, [], Underutilized);
    cmd, command, ok, settled := [], DeleteNodes, true, false;
    picked, outcome, timedOut, tried := [], Outcome.Nothing, false, [];
    if consolidated {
      return;
    }
    var nodes, constrained := PickWithin(ledger, candidates, Underutilized, false);
    var maxParallel := Min(|nodes|, 100);
    var result, overdue;
    result, overdue, tried := FirstN(|nodes|, maxParallel, Prefixes(nodes, propose), late);
    picked, outcome, timedOut := nodes, result, overdue;
    match result {
      case Error => ok := false;
      case Nothing => settled := !constrained;
      case Found(k) =>
        PrefixWithin(nodes, k, before, Underutilized);
        var found := propose(nodes[..k]);
        assert Justified(nodes[..k], found);
        var valid := IsValid(nodes[..k], found.command, v, Underutilized);
        if valid {
          cmd, command := nodes[..k], found.command;
        }
    }
  }

  /** The budget stands in the way, the node is empty, or it does not consolidate on its own. */
  predicate PassedOver(c: Candidate, ledger: Ledger, propose: seq<Candidate> -> Proposal) reads ledger {
    ledger.Available(c.pool, Underutilized) == 0 || c.empty || !propose([c]).Proposing?
  }

  /** The first affordable node that consolidates on its own, if it is still valid when looked at again. */
  method ComputeSingleNode(
    ledger: Ledger, candidates: seq<Candidate>, consolidated: bool, propose: seq<Candidate> -> Proposal,
      late: nat -> bool, v: Validation)
    returns (cmd: seq<Candidate>, command: Action, settled: bool, ghost at: nat, ghost timedOut: bool)
    requires NoDeficit(ledger.mapping) && NoDeficit(v.before.mapping) && NoDeficit(v.after.mapping)
    requires forall cs :: Justified(cs, propose(cs))
    ensures FitsBudgets(cmd, ledger.mapping, Underutilized) && |cmd| <= 1 &&
      forall c :: c in cmd ==> c in candidates && !c.empty
    ensures cmd != [] ==>
      && propose(cmd) == Proposing(command) && Justified(cmd, Proposing(command)) &&
        Validated(cmd, command, v, Underutilized)
    ensures settled ==> cmd == [] && forall c :: c in candidates ==>
      ledger.Available(c.pool, Underutilized) != 0 && (c.empty || !propose([c]).Proposing?)
    ensures !consolidated ==> at <= |candidates| && forall c :: c in candidates[..at] ==> PassedOver(c, ledger, propose)
    ensures !consolidated && !timedOut && at < |candidates| ==>
      && !PassedOver(candidates[at], ledger, propose)
      && var found := propose([candidates[at]]).command;
      cmd == if Validated([candidates[at]], found, v, Underutilized) then [candidates[at]] else []
    ensures !consolidated && !timedOut && at == |candidates| && !settled ==>
      exists c :: c in candidates && ledger.Available(c.pool, Underutilized) == 0
    ensures timedOut ==> at < |candidates| && late(at)
    ensures forall i :: 0 <= i < at && i < |candidates| ==>
      candidates[i].empty || ledger.Available(candidates[i].pool, Underutilized) == 0 || !late(i)
  {
    hide Justified, Validated;
    ghost var before := ledger.mapping;
    SpendsNothing(before, Underutilized);
    SpendsWithin(before, before, [], Underutilized);
    cmd, command, settled, at, timedOut := [], DeleteNodes, false, 0, false;
    if consolidated {
      return;
    }
    var constrained := false;
    for i := 0 to |candidates|
      invariant at == i && forall c :: c in candidates[..at] ==> PassedOver(c, ledger, propose)
      invariant constrained ==> exists c :: c in candidates && ledger.Available(c.pool, Underutilized) == 0
      invariant forall j :: 0 <= j < i ==>
        candidates[j].empty || ledger.Available(candidates[j].pool, Underutilized) == 0 || !late(j)
      invariant !constrained ==> forall c :: c in candidates[..i] ==>
                  ledger.Available(c.pool, Underutilized) != 0 && (c.empty || !propose([c]).Proposing?)
    {
      var c := candidates[i];
      assert candidates[..i + 1] == candidates[..i] + [c];
      if ledger.Available(c.pool, Underutilized) == 0 {
        constrained, at := true, i + 1;
        continue;
      }
      if c.empty {
        at := i + 1;
        continue;
      }
      if late(i) {
        timedOut := true;
        return;
      }
      var found := propose([c]);
      if !found.Proposing? {
        at := i + 1;
        continue;
      }
      assert Justified([c], found);
      OneWithin(c, before, Underutilized);
      var valid := IsValid([c], found.command, v, Underutilized);
      if valid {
        cmd, command := [c], found.command;
      }
      return;
    }
    assert candidates[..|candidates|] == candidates;
    settled := !constrained;
  }

  // ----- A method on a snapshot of the cluster

  datatype Kind = Drift | Emptiness | EmptyNodes | SeveralNodes | SingleNode

  function ReasonOf(kind: Kind): Reason {
    match kind
    case Drift => Drifted
    case Emptiness => Empty
    case EmptyNodes => Empty
    case SeveralNodes => Underutilized
    case SingleNode => Underutilized
  }

  /** What the methods learn from outside as they run. */
  datatype Outside = Outside(
    simulate: Candidate -> Simulation, propose: seq<Candidate> -> Proposal, late: nat -> bool, consolidated: bool,
      later: Validation)

  /** The nodes as they are once the chosen ones are marked for deletion. */
  function Marked(nodes: seq<ClusterNode>, cs: seq<Candidate>): (r: seq<ClusterNode>)
    ensures |r| == |nodes|
  {
    seq(|nodes|, i requires 0 <= i < |nodes| =>
      if exists c :: c in cs && c.name == nodes[i].name then nodes[i].(marked := true) else nodes[i])
  }

  /** The candidates are nodes of the snapshot, with their pools. */
  predicate AreNodes(cs: seq<Candidate>, nodes: seq<ClusterNode>) {
    forall c, n :: c in cs && n in nodes && c.name == n.name ==> c.pool == n.pool
  }

  lemma MarkedDisrupts(nodes: seq<ClusterNode>, cs: seq<Candidate>, pool: string)
    requires AreNodes(cs, nodes)
    ensures DisruptingNodes(Marked(nodes, cs), pool) <= DisruptingNodes(nodes, pool) + ChosenIn(cs, pool)
  {
    forall name | name in DisruptingNodes(Marked(nodes, cs), pool)
      ensures name in DisruptingNodes(nodes, pool) + ChosenIn(cs, pool) {
      var n :| n in Marked(nodes, cs) && n.Counts(pool) && n.Disrupting() && n.name == name;
      var i :| 0 <= i < |nodes| && Marked(nodes, cs)[i] == n;
      assert nodes[i] in nodes;
      if c :| c in cs && c.name == nodes[i].name {
        assert c.pool == pool;
      }
    }
  }

  /** The whole promise of the budgets on a snapshot. */
  ghost predicate BudgetKept(nodes: seq<ClusterNode>, pool: NodePool, reason: Reason, cs: seq<Candidate>) {
    |DisruptingNodes(Marked(nodes, cs), pool.name)| <=
    Max(|DisruptingNodes(nodes, pool.name)|, LimitFor(pool, reason, |Members(nodes, pool.name)|))
  }

  /**
   So no budget that applies to the reason is exceeded by what is newly disrupted: neither a
   number of nodes, nor a percentage of the pool rounded up, nor one that cannot be read.
   */
  lemma NoBudgetExceeded(nodes: seq<ClusterNode>, pool: NodePool, reason: Reason, cs: seq<Candidate>, b: Budget)
    requires BudgetKept(nodes, pool, reason, cs) && b in pool.budgets
    requires b.reasons.None? || reason in b.reasons.value
    requires reason in WELL_KNOWN_REASONS && !b.schedule.Inactive?
    ensures var before, after := |DisruptingNodes(nodes, pool.name)|, |DisruptingNodes(Marked(nodes, cs), pool.name)|;
      after <= before ||
      match b.limit
      case Count(n) => b.schedule.Active? && after <= n
      case Percent(p) => b.schedule.Active? && 100 * (after - 1) < p * |Members(nodes, pool.name)|
      case Malformed => false
  {
    hide Members, DisruptingNodes, Marked, Least;
    var n := |Members(nodes, pool.name)|;
    LeastIsMinimum(pool.budgets, reason, n);
    AllowedIs(b, n);
  }

  lemma MarkingKeepsBudget(nodes: seq<ClusterNode>, pool: NodePool, m: Allowance, reason: Reason, cs: seq<Candidate>)
    requires Grants(m, nodes, pool) && FitsBudgets(cs, m, reason) && AreNodes(cs, nodes)
    ensures BudgetKept(nodes, pool, reason, cs)
  {
    hide Members, DisruptingNodes, ChosenIn, LimitFor, Grants, FitsBudgets, AreNodes;
    BudgetIsKept(nodes, pool, m, reason, cs);
    MarkedDisrupts(nodes, cs, pool.name);
    SubsetCardinality(DisruptingNodes(Marked(nodes, cs), pool.name),
      DisruptingNodes(nodes, pool.name) + ChosenIn(cs, pool.name));
  }

  /**
   From the snapshot to the command: whichever method runs, marking the nodes it chooses
   leaves at most as many nodes of each pool disrupting as there were, or as the tightest
   budget for the reason allows.
   */
  method ComputeCommand(
    kind: Kind, nodes: seq<ClusterNode>, pools: seq<NodePool>, candidates: seq<Candidate>, outside: Outside)
    returns (cmd: seq<Candidate>, command: Action)
    requires DistinctNames(nodes) && DistinctPools(pools) && AreNodes(candidates, nodes)
    requires NoDeficit(outside.later.before.mapping) && NoDeficit(outside.later.after.mapping)
    requires forall cs :: Justified(cs, outside.propose(cs))
    ensures forall pool :: pool in pools ==> BudgetKept(nodes, pool, ReasonOf(kind), cmd)
    ensures forall c :: c in cmd ==> c in candidates
    ensures (kind.SeveralNodes? || kind.SingleNode?) && cmd != [] ==>
      Justified(cmd, Proposing(command)) && Validated(cmd, command, outside.later, Underutilized)
  {
    hide Justified, Validated, Grants, FitsBudgets, BudgetKept, NoDeficit, DistinctNames, DistinctPools;
    command := DeleteNodes;
    var mapping := BuildDisruptionBudgets(nodes, pools);
    var ledger := new Ledger(mapping);
    var ok, settled;
    ghost var picked, outcome, timedOut, tried, at;
    match kind {
      case Drift => cmd, ok, picked, at := ComputeDrift(ledger, candidates, outside.simulate);
      case Emptiness => cmd := ComputeEmptiness(ledger, candidates);
      case EmptyNodes =>
        cmd, settled, picked := ComputeEmptyNode(ledger, candidates, outside.consolidated, outside.later.before);
      case SeveralNodes =>
        cmd, command, ok, settled, picked, outcome, timedOut, tried :=
          ComputeMultiNode(ledger, candidates, outside.consolidated, outside.propose, outside.late, outside.later);
      case SingleNode =>
        cmd, command, settled, at, timedOut :=
          ComputeSingleNode(ledger, candidates, outside.consolidated, outside.propose, outside.late, outside.later);
    }
    forall pool | pool in pools ensures BudgetKept(nodes, pool, ReasonOf(kind), cmd) {
      MarkingKeepsBudget(nodes, pool, mapping, ReasonOf(kind), cmd);
    }
  }
}
