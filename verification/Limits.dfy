/**
 Node pool limits during one scheduling run.  Every claim may turn into any of its
 instance types, so a pool's remaining resources are reduced by the most the claim
 could become, and only instance types that fit what remains are offered to a new claim.
 */
module NodePoolLimits {
  import opened Common
  import opened Resources
  import opened InstanceTypes
  import opened NodeClaims

  type Budgets = map<string, ResourceList>

  predicate Physical(its: seq<InstanceType>) { forall it :: it in its ==> NonNegative(it.capacity) }

  // ----- Filtering and subtracting

  predicate WithinLimits(it: InstanceType, remaining: ResourceList) {
    forall r :: r in remaining ==> Amount(it.capacity, r) <= remaining[r]
  }

  function Affordable(its: seq<InstanceType>, remaining: ResourceList): (r: seq<InstanceType>)
    ensures forall it :: it in r <==> it in its && WithinLimits(it, remaining)
  {
    if its == [] then []
    else
      var before, last := Affordable(its[..|its| - 1], remaining), its[|its| - 1];
      assert forall it :: it in its <==> it in its[..|its| - 1] || it == last;
      if WithinLimits(last, remaining) then before + [last] else before
  }

  /** A type is offered iff launching it overdraws none of the limited resources. */
  lemma AffordableIff(its: seq<InstanceType>, remaining: ResourceList, it: InstanceType)
    ensures it in Affordable(its, remaining) <==> it in its && NonNegative(Subtract(remaining, it.capacity))
  {
    var left := Subtract(remaining, it.capacity);
    assert forall r :: r in remaining ==> r in left && left[r] == remaining[r] - Amount(it.capacity, r);
  }

  method FilterByRemainingResources(its: seq<InstanceType>, remaining: ResourceList)
    returns (filtered: seq<InstanceType>)
    ensures filtered == Affordable(its, remaining)
  {
    filtered := [];
    for i := 0 to |its|
      invariant filtered == Affordable(its[..i], remaining)
    {
      assert its[..i + 1][..i] == its[..i];
      var viable := true;
      var todo := remaining.Keys;
      while todo != {}
        invariant todo <= remaining.Keys
        invariant viable <==> forall r :: r in remaining && r !in todo ==> Amount(its[i].capacity, r) <= remaining[r]
        decreases todo
      {
        var r :| r in todo;
        todo := todo - {r};
        if Amount(its[i].capacity, r) > remaining[r] {
          viable := false;
        }
      }
      if viable {
        filtered := filtered + [its[i]];
      }
    }
    assert its[..|its|] == its;
  }

  /** A pool that is over a limit gets no new claim, whatever its instance types. */
  lemma OverLimitBlocks(its: seq<InstanceType>, remaining: ResourceList, r: string)
    requires Physical(its) && r in remaining && remaining[r] < 0
    ensures Affordable(its, remaining) == []
  {
    forall it | it in its ensures !WithinLimits(it, remaining) {}
    var affordable := Affordable(its, remaining);
    assert forall it :: it !in affordable;
  }

  function Capacities(its: seq<InstanceType>): seq<ResourceList> {
    seq(|its|, i requires 0 <= i < |its| => its[i].capacity)
  }

  /** What is left when the largest of the instance types is launched. */
  function SubtractMax(remaining: ResourceList, its: seq<InstanceType>): ResourceList {
    if its == [] then remaining else Subtract(remaining, MaxResources(Capacities(its)))
  }

  method ReserveLargest(remaining: ResourceList, its: seq<InstanceType>) returns (left: ResourceList)
    ensures left == SubtractMax(remaining, its)
  {
    if its == [] {
      return remaining;
    }
    var all: seq<ResourceList> := [];
    for i := 0 to |its|
      invariant all == Capacities(its[..i])
    {
      all := all + [its[i].capacity];
    }
    assert its[..|its|] == its;
    var largest := MaxResources(all);
    left := map[];
    var todo := remaining.Keys;
    while todo != {}
      invariant todo <= remaining.Keys
      invariant left == Subtract(remaining - todo, largest)
      decreases todo
    {
      var r :| r in todo;
      todo := todo - {r};
      left := left[r := remaining[r] - Amount(largest, r)];
    }
    assert remaining - todo == remaining;
  }

  // ----- The load claims put on a pool

  /** The most of a resource that a choice among the instance types can use. */
  function Largest(its: seq<InstanceType>, r: string): (m: int)
    requires its != []
    ensures (forall it :: it in its ==> Amount(it.capacity, r) <= m) &&
      exists it :: it in its && Amount(it.capacity, r) == m
  {
    var n := |its| - 1;
    assert its == its[..n] + [its[n]];
    if n == 0 then Amount(its[0].capacity, r) else Max(Largest(its[..n], r), Amount(its[n].capacity, r))
  }

  lemma LargestOfFewer(few: seq<InstanceType>, many: seq<InstanceType>, r: string)
    requires few != [] && many != [] && forall it :: it in few ==> it in many
    ensures Largest(few, r) <= Largest(many, r)
  {
    var m := Largest(few, r);
    var it :| it in few && Amount(it.capacity, r) == m;
  }

  lemma SubtractMaxIsLargest(remaining: ResourceList, its: seq<InstanceType>, r: string)
    requires its != [] && Physical(its) && r in remaining
    ensures r in SubtractMax(remaining, its) && SubtractMax(remaining, its)[r] == remaining[r] - Largest(its, r)
  {
    var caps := Capacities(its);
    MaxResourcesBounds(caps, r);
    forall it | it in its ensures Amount(it.capacity, r) <= Amount(MaxResources(caps), r) {
      var i :| 0 <= i < |its| && its[i] == it;
      assert caps[i] == it.capacity;
      if r in MaxResources(caps) && r !in it.capacity {
        var j :| 0 <= j < |caps| && r in caps[j] && caps[j][r] == MaxResources(caps)[r];
        assert its[j] in its;
      }
    }
    if r in MaxResources(caps) {
      var j :| 0 <= j < |caps| && r in caps[j] && caps[j][r] == MaxResources(caps)[r];
      assert its[j] in its && Amount(its[j].capacity, r) == Amount(MaxResources(caps), r);
    } else {
      assert its[0] in its && caps[0] == its[0].capacity;
    }
  }

  function Load(claims: seq<Claim>, pool: string, r: string): int
    requires forall c :: c in claims ==> c.options != []
  {
    if claims == [] then 0
    else Load(claims[1..], pool, r) + (if claims[0].pool == pool then Largest(claims[0].options, r) else 0)
  }

  predicate Launchable(claims: seq<Claim>) { forall c :: c in claims ==> c.options != [] && Physical(c.options) }

  lemma {:induction false} LoadSplit(xs: seq<Claim>, ys: seq<Claim>, pool: string, r: string)
    requires Launchable(xs) && Launchable(ys)
    ensures Load(xs + ys, pool, r) == Load(xs, pool, r) + Load(ys, pool, r)
  {
    if xs == [] {
      assert xs + ys == ys;
    } else {
      LoadSplit(xs[1..], ys, pool, r);
      assert (xs + ys)[1..] == xs[1..] + ys;
    }
  }

  lemma LoadWithout(claims: seq<Claim>, i: nat, pool: string, r: string)
    requires Launchable(claims) && i < |claims|
    ensures Load(claims, pool, r) == Load(Without(claims, i), pool, r) + Load([claims[i]], pool, r)
  {
    hide Load;
    assert claims == claims[..i] + ([claims[i]] + claims[i + 1..]);
    LoadSplit(claims[..i], [claims[i]] + claims[i + 1..], pool, r);
    LoadSplit([claims[i]], claims[i + 1..], pool, r);
    LoadSplit(claims[..i], claims[i + 1..], pool, r);
  }

  lemma {:induction false} LoadPermutation(xs: seq<Claim>, ys: seq<Claim>, pool: string, r: string)
    requires Launchable(xs) && Launchable(ys) && multiset(xs) == multiset(ys)
    ensures Load(xs, pool, r) == Load(ys, pool, r)
    decreases |xs|
  {
    if xs == [] {
      PermutationMembers(xs, ys);
    } else {
      var i := PermutationHead(xs, ys);
      LoadPermutation(xs[1..], Without(ys, i), pool, r);
      LoadWithout(ys, i, pool, r);
    }
  }

  lemma LoadReplaced(claims: seq<Claim>, i: nat, c: Claim, pool: string, r: string)
    requires Launchable(claims) && i < |claims| && Launchable([c]) && c.pool == claims[i].pool
    requires forall it :: it in c.options ==> it in claims[i].options
    ensures Load(claims[i := c], pool, r) <= Load(claims, pool, r)
  {
    hide Largest;
    var claims' := claims[i := c];
    assert Launchable(claims') by {
      forall x | x in claims' ensures x in claims || x == c {}
      assert c in [c];
    }
    LoadWithout(claims, i, pool, r);
    LoadWithout(claims', i, pool, r);
    assert Without(claims', i) == Without(claims, i);
    assert claims[i] in claims && c in [c];
    LargestOfFewer(c.options, claims[i].options, r);
  }

  // ----- The invariant of a run

  /**
   What the claims may become stays within what the pool had at the start, and the books
   never overstate what is left.
   */
  predicate WithinBudget(claims: seq<Claim>, remaining: Budgets, start: Budgets, pool: string, r: string)
    requires Launchable(claims) && pool in start && r in start[pool]
  {
    && pool in remaining && r in remaining[pool]
    && remaining[pool][r] <= start[pool][r] - Load(claims, pool, r)
    && ((exists c :: c in claims && c.pool == pool) ==> Load(claims, pool, r) <= start[pool][r])
  }

  predicate LimitInv(claims: seq<Claim>, remaining: Budgets, start: Budgets) {
    Launchable(claims) &&
      forall pool, r :: pool in start && r in start[pool] ==> WithinBudget(claims, remaining, start, pool, r)
  }

  lemma {:induction false} NoLoad(claims: seq<Claim>, pool: string, r: string)
    requires Launchable(claims) && forall c :: c in claims ==> c.pool != pool
    ensures Load(claims, pool, r) == 0
  {
    if claims != [] {
      NoLoad(claims[1..], pool, r);
    }
  }

  lemma {:induction false} LoadNonNegative(claims: seq<Claim>, pool: string, r: string)
    requires Launchable(claims)
    ensures Load(claims, pool, r) >= 0
  {
    if claims != [] {
      LoadNonNegative(claims[1..], pool, r);
      var c := claims[0];
      assert c in claims && c.options[0] in c.options && NonNegative(c.options[0].capacity);
    }
  }

  lemma StartWithinLimits(start: Budgets)
    ensures LimitInv([], start, start)
  {}

  lemma ReorderKeepsLimits(claims: seq<Claim>, claims': seq<Claim>, remaining: Budgets, start: Budgets)
    requires LimitInv(claims, remaining, start) && multiset(claims) == multiset(claims')
    ensures LimitInv(claims', remaining, start)
  {
    PermutationMembers(claims, claims');
    forall pool, r | pool in start && r in start[pool] ensures WithinBudget(claims', remaining, start, pool, r) {
      assert WithinBudget(claims, remaining, start, pool, r);
      LoadPermutation(claims, claims', pool, r);
    }
  }

  lemma ShrinkKeepsLimits(claims: seq<Claim>, i: nat, c: Claim, remaining: Budgets, start: Budgets)
    requires LimitInv(claims, remaining, start) && i < |claims| && Launchable([c]) && c.pool == claims[i].pool
    requires forall it :: it in c.options ==> it in claims[i].options
    ensures LimitInv(claims[i := c], remaining, start)
  {
    hide Load, Largest;
    var claims' := claims[i := c];
    assert Launchable(claims') by {
      forall x | x in claims' ensures x in claims || x == c {}
      assert c in [c];
    }
    forall pool, r | pool in start && r in start[pool] ensures WithinBudget(claims', remaining, start, pool, r) {
      assert WithinBudget(claims, remaining, start, pool, r);
      LoadReplaced(claims, i, c, pool, r);
      if x :| x in claims' && x.pool == pool {
        assert exists y :: y in claims && y.pool == pool by {
          assert (if x == c then claims[i] else x) in claims;
        }
      }
    }
  }

  /** A new claim takes its options from what was affordable and reserves the largest of them. */
  lemma OpenKeepsLimits(claims: seq<Claim>, c: Claim, remaining: Budgets, start: Budgets)
    requires LimitInv(claims, remaining, start) && Launchable([c])
    requires c.pool in remaining && forall it :: it in c.options ==> WithinLimits(it, remaining[c.pool])
    ensures LimitInv(claims + [c], remaining[c.pool := SubtractMax(remaining[c.pool], c.options)], start)
  {
    hide Load, Largest, SubtractMax;
    assert c in [c];
    var claims' := claims + [c];
    var remaining' := remaining[c.pool := SubtractMax(remaining[c.pool], c.options)];
    forall pool, r | pool in start && r in start[pool] ensures WithinBudget(claims', remaining', start, pool, r) {
      assert WithinBudget(claims, remaining, start, pool, r);
      LoadSplit(claims, [c], pool, r);
      LoadOfOne(c, pool, r);
      if pool == c.pool {
        SubtractMaxIsLargest(remaining[pool], c.options, r);
        LargestIsAffordable(c.options, remaining[pool], r);
      } else {
        if x :| x in claims' && x.pool == pool {
          assert x in claims;
        }
      }
    }
  }

  /** A pool without limits has nothing to keep. */
  lemma OpenUnlimited(claims: seq<Claim>, c: Claim, remaining: Budgets, start: Budgets, left: ResourceList)
    requires LimitInv(claims, remaining, start) && Launchable([c]) && c.pool !in remaining
    ensures LimitInv(claims + [c], remaining[c.pool := left], start)
  {
    hide Load, Largest;
    assert c in [c];
    var claims' := claims + [c];
    forall pool, r | pool in start && r in start[pool]
      ensures WithinBudget(claims', remaining[c.pool := left], start, pool, r) {
      assert WithinBudget(claims, remaining, start, pool, r);
      LoadSplit(claims, [c], pool, r);
      LoadOfOne(c, pool, r);
      if x :| x in claims' && x.pool == pool {
        assert x in claims;
      }
    }
  }

  lemma LargestIsAffordable(its: seq<InstanceType>, remaining: ResourceList, r: string)
    requires its != [] && r in remaining && forall it :: it in its ==> WithinLimits(it, remaining)
    ensures Largest(its, r) <= remaining[r]
  {
    var m := Largest(its, r);
    var it :| it in its && Amount(it.capacity, r) == m;
  }

  lemma LoadOfOne(c: Claim, pool: string, r: string)
    requires Launchable([c])
    ensures c in [c] && Load([c], pool, r) == if c.pool == pool then Largest(c.options, r) else 0
  {
    assert [c][1..] == [];
  }

  // ----- The promise

  /** One instance type is launched for each claim. */
  predicate Picks(picks: seq<InstanceType>, claims: seq<Claim>) {
    |picks| == |claims| && forall i :: 0 <= i < |claims| ==> picks[i] in claims[i].options
  }

  function Launched(picks: seq<InstanceType>, claims: seq<Claim>, pool: string, r: string): int
    requires |picks| == |claims|
  {
    if claims == [] then 0
    else
      Launched(picks[1..], claims[1..], pool, r) +
      (if claims[0].pool == pool then Amount(picks[0].capacity, r) else 0)
  }

  lemma {:induction false} LaunchedWithinLoad(picks: seq<InstanceType>, claims: seq<Claim>, pool: string, r: string)
    requires Launchable(claims) && Picks(picks, claims)
    ensures Launched(picks, claims, pool, r) <= Load(claims, pool, r)
  {
    if claims != [] {
      LaunchedWithinLoad(picks[1..], claims[1..], pool, r);
      assert claims[0] in claims;
    }
  }

  /** However the claims of a pool are launched, the pool stays within what it had at the start. */
  lemma LaunchesStayWithinLimits(
    picks: seq<InstanceType>, claims: seq<Claim>, remaining: Budgets, start: Budgets, pool: string, r: string)
    requires LimitInv(claims, remaining, start) && Picks(picks, claims)
    requires pool in start && r in start[pool] && exists c :: c in claims && c.pool == pool
    ensures Launched(picks, claims, pool, r) <= start[pool][r]
  {
    assert WithinBudget(claims, remaining, start, pool, r);
    LaunchedWithinLoad(picks, claims, pool, r);
  }
}
