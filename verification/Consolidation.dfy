/**
 Consolidation replaces nodes by a cheaper one.  Whatever the launch of the replacement
 ends up buying, it costs strictly less than the nodes it replaces.
 */
module Consolidation {
  import opened Common
  import opened Labels
  import opened RequirementAlgebra
  import opened RequirementSets
  import opened InstanceTypes
  import opened NodeClaims

  const MIN_INSTANCE_TYPES := 15

  /** A node that may be disrupted; it is empty when it has no pods to move. */
  datatype Candidate = Candidate(
    name: string,
    pool: string,
    empty: bool,
    instanceType: InstanceType,
    labels: map<string, string>,
    capacityType: string)
  {
    function Offerings(): seq<Offering> { CompatibleOfferings(instanceType.offerings, LabelRequirements(labels)) }
  }

  // ----- Prices

  predicate Priced(cs: seq<Candidate>) { forall c :: c in cs ==> c.Offerings() != [] }

  function TotalPrice(cs: seq<Candidate>): real
    requires Priced(cs)
  {
    if cs == [] then 0.0 else TotalPrice(cs[..|cs| - 1]) + Cheapest(cs[|cs| - 1].Offerings()).price
  }

  /** The sum of the cheapest offering each candidate may be running on, if all are known. */
  method GetCandidatePrices(cs: seq<Candidate>) returns (price: Option<real>)
    ensures price.Some? <==> Priced(cs)
    ensures price.Some? ==> price.value == TotalPrice(cs)
  {
    hide Candidate.Offerings, Cheapest;
    var sum := 0.0;
    for i := 0 to |cs|
      invariant Priced(cs[..i]) && sum == TotalPrice(cs[..i])
    {
      assert cs[..i + 1][..i] == cs[..i] && cs[..i + 1] == cs[..i] + [cs[i]];
      var offers := cs[i].Offerings();
      if offers == [] {
        return None;
      }
      sum := sum + Cheapest(offers).price;
    }
    assert cs[..|cs|] == cs;
    price := Some(sum);
  }

  function Cheaper(its: seq<InstanceType>, reqs: Requirements, maxPrice: real): (r: seq<InstanceType>)
    ensures forall it :: it in r <==> it in its && WorstLaunchPrice(Available(it.offerings), reqs) < maxPrice
  {
    if its == [] then []
    else
      (if WorstLaunchPrice(Available(its[0].offerings), reqs) < maxPrice then [its[0]] else []) +
        Cheaper(its[1..], reqs, maxPrice)
  }

  /** The filter keeps an option as often as it occurs. */
  lemma {:induction false} CheaperCounts(its: seq<InstanceType>, reqs: Requirements, maxPrice: real, it: InstanceType)
    ensures multiset(Cheaper(its, reqs, maxPrice))[it] ==
      if WorstLaunchPrice(Available(it.offerings), reqs) < maxPrice then multiset(its)[it] else 0
  {
    hide WorstLaunchPrice, Available;
    if its != [] {
      CheaperCounts(its[1..], reqs, maxPrice, it);
      assert its == [its[0]] + its[1..];
    }
  }

  lemma {:induction false} CompatibleCounts(its: seq<InstanceType>, reqs: Requirements, it: InstanceType)
    ensures multiset(InstanceTypesCompatible(its, reqs))[it] ==
      if HasCompatible(Available(it.offerings), reqs) then multiset(its)[it] else 0
  {
    hide HasCompatible, Available;
    if its != [] {
      CompatibleCounts(its[1..], reqs, it);
      assert its == [its[0]] + its[1..];
    }
  }

  predicate InOrder(its: seq<InstanceType>, order: Requirements) {
    forall i, j :: 0 <= i < j < |its| ==> PriceLeq(its[i], its[j], order)
  }

  lemma TailInOrder(its: seq<InstanceType>, order: Requirements)
    requires InOrder(its, order) && its != []
    ensures InOrder(its[1..], order) && forall it :: it in its[1..] ==> PriceLeq(its[0], it, order)
  {
    hide PriceLeq;
    forall it | it in its[1..] ensures PriceLeq(its[0], it, order) {
      var i :| 0 <= i < |its[1..]| && its[1..][i] == it;
      assert its[i + 1] == it;
    }
  }

  lemma FrontInOrder(it: InstanceType, its: seq<InstanceType>, order: Requirements)
    requires InOrder(its, order) && forall other :: other in its ==> PriceLeq(it, other, order)
    ensures InOrder([it] + its, order)
  {
    hide PriceLeq;
  }

  /** Filtering keeps the order. */
  lemma {:induction false} CheaperInOrder(
    its: seq<InstanceType>, reqs: Requirements, maxPrice: real, order: Requirements)
    requires InOrder(its, order)
    ensures InOrder(Cheaper(its, reqs, maxPrice), order)
  {
    hide WorstLaunchPrice, Available, PriceLeq, InOrder;
    if its == [] {
      assert InOrder([], order) by { NothingInOrder(order); }
    } else {
      TailInOrder(its, order);
      CheaperInOrder(its[1..], reqs, maxPrice, order);
      FrontInOrder(its[0], Cheaper(its[1..], reqs, maxPrice), order);
      assert [] + Cheaper(its[1..], reqs, maxPrice) == Cheaper(its[1..], reqs, maxPrice);
    }
  }

  lemma {:induction false} CompatibleInOrder(its: seq<InstanceType>, reqs: Requirements, order: Requirements)
    requires InOrder(its, order)
    ensures InOrder(InstanceTypesCompatible(its, reqs), order)
  {
    hide HasCompatible, Available, PriceLeq, InOrder;
    if its == [] {
      assert InOrder([], order) by { NothingInOrder(order); }
    } else {
      TailInOrder(its, order);
      CompatibleInOrder(its[1..], reqs, order);
      FrontInOrder(its[0], InstanceTypesCompatible(its[1..], reqs), order);
      assert [] + InstanceTypesCompatible(its[1..], reqs) == InstanceTypesCompatible(its[1..], reqs);
    }
  }

  lemma NothingInOrder(order: Requirements)
    ensures InOrder([], order)
  {}

  // ----- What a launch can cost

  /** Offerings name one capacity type, spot or on-demand, and otherwise only well-known labels. */
  predicate Pinned(o: Offering) {
    && (forall k :: k in o.requirements ==> k in WELL_KNOWN)
    && CAPACITY_TYPE in o.requirements
    && o.requirements[CAPACITY_TYPE] in {Exactly(CAPACITY_TYPE, SPOT), Exactly(CAPACITY_TYPE, ON_DEMAND)}
  }

  predicate AllPinned(its: seq<InstanceType>) { forall it, o :: it in its && o in it.offerings ==> Pinned(o) }

  /** Everything that may be launched costs less than `price`. */
  ghost predicate Saves(options: seq<InstanceType>, reqs: Requirements, price: real) {
    forall it, o :: it in options && o in it.offerings && o.available && Offered(reqs, o) ==> o.price < price
  }

  /** The replacement's requirements once it may only be launched as spot. */
  function SpotOnly(reqs: Requirements): Requirements { Add(reqs, Exactly(CAPACITY_TYPE, SPOT)) }

  /** A replacement keeps its requirements or is restricted to spot. */
  function Restricted(reqs: Requirements): set<Requirements> { {reqs, SpotOnly(reqs)} }

  lemma ExactlyIs(ct: string)
    ensures Canonical(CAPACITY_TYPE) && CAPACITY_TYPE in WELL_KNOWN
    ensures var e := Exactly(CAPACITY_TYPE, ct);
      e.Normal() && e.key == CAPACITY_TYPE && !e.complement && e.values == {ct}
    ensures forall v :: Exactly(CAPACITY_TYPE, ct).Has(v) <==> v == ct
    ensures !Exactly(CAPACITY_TYPE, ct).AllowsAbsence()
  {
    CapacityTypeIsCanonical();
    assert Elements([ct]) == {ct};
  }

  /** A requirement cut by a single value is empty iff it rejects the value. */
  lemma CutByOne(r: Requirement, ct: string)
    requires r.Normal()
    ensures r.Intersection(Exactly(CAPACITY_TYPE, ct)).Len() != 0 <==> r.Has(ct)
  {
    var e := Exactly(CAPACITY_TYPE, ct);
    ExactlyIs(ct);
    IntersectionHas(r, e, ct);
    var m := r.Intersection(e);
    assert !m.complement && m.values <= {ct};
    if m.values != {} {
      assert ct in m.values;
      assert m.values == {ct};
    }
  }

  /** A pinned offering is compatible at the capacity type exactly if the requirements allow its type. */
  lemma OfferedType(reqs: Requirements, o: Offering, ct: string)
    requires WellFormed(reqs) && Pinned(o) && Offered(reqs, o) &&
      o.requirements[CAPACITY_TYPE] == Exactly(CAPACITY_TYPE, ct)
    ensures Get(reqs, CAPACITY_TYPE).Has(ct)
  {
    hide Requirement.Has, Requirement.Intersection, Requirement.AllowsAbsence, Requirement.Len;
    ExactlyIs(ct);
    if CAPACITY_TYPE in reqs {
      CutByOne(reqs[CAPACITY_TYPE], ct);
    } else {
      AnyValueHas(ct);
    }
  }

  lemma AnyValueHas(v: string)
    ensures AnyValue(CAPACITY_TYPE).Has(v)
  {}

  lemma SpotOnlyIs(reqs: Requirements)
    requires WellFormed(reqs)
    ensures WellFormed(SpotOnly(reqs)) && CAPACITY_TYPE in SpotOnly(reqs)
    ensures SpotOnly(reqs) == reqs[CAPACITY_TYPE := SpotOnly(reqs)[CAPACITY_TYPE]]
    ensures forall v :: SpotOnly(reqs)[CAPACITY_TYPE].Has(v) <==> v == SPOT && Get(reqs, CAPACITY_TYPE).Has(v)
  {
    hide Requirement.Has, Requirement.Intersection;
    ExactlyIs(SPOT);
    AddIsWellFormed(reqs, Exactly(CAPACITY_TYPE, SPOT));
    forall v ensures SpotOnly(reqs)[CAPACITY_TYPE].Has(v) <==> v == SPOT && Get(reqs, CAPACITY_TYPE).Has(v) {
      if CAPACITY_TYPE in reqs {
        IntersectionHas(Exactly(CAPACITY_TYPE, SPOT), reqs[CAPACITY_TYPE], v);
      } else {
        AnyValueHas(v);
      }
    }
  }

  /** Only spot offerings are compatible with spot-only requirements, and those were compatible before. */
  lemma OfferedSpotOnly(reqs: Requirements, o: Offering)
    requires WellFormed(reqs) && Pinned(o) && Offered(SpotOnly(reqs), o)
    ensures o.requirements[CAPACITY_TYPE] == Exactly(CAPACITY_TYPE, SPOT)
    ensures Offered(reqs, o) && Get(reqs, CAPACITY_TYPE).Has(SPOT)
  {
    hide Requirement.Has, Requirement.Intersection, Requirement.AllowsAbsence, Requirement.Len, SpotOnly;
    SpotOnlyIs(reqs);
    var ct := if o.requirements[CAPACITY_TYPE] == Exactly(CAPACITY_TYPE, SPOT) then SPOT else ON_DEMAND;
    OfferedType(SpotOnly(reqs), o, ct);
    assert SpotOnly(reqs)[CAPACITY_TYPE].Has(ct);
    if CAPACITY_TYPE in reqs {
      CutByOne(reqs[CAPACITY_TYPE], SPOT);
    }
    forall k | k in reqs && k in o.requirements && k != CAPACITY_TYPE ensures reqs[k] == SpotOnly(reqs)[k] {}
  }

  /** An offering of the type asked for is among those the type test keeps. */
  lemma TypeKept(o: Offering, ct: string)
    requires Pinned(o) && o.requirements[CAPACITY_TYPE] == Exactly(CAPACITY_TYPE, ct)
    ensures Offered(CapacityTypeIs(ct), o)
  {
    hide Requirement.Has, Requirement.Intersection, Requirement.AllowsAbsence, Requirement.Len;
    ExactlyIs(ct);
    CutByOne(Exactly(CAPACITY_TYPE, ct), ct);
  }

  /** The worst launch price covers every spot offering if spot may be launched, and else every on-demand offering. */
  lemma WorstPriceCovers(ofs: seq<Offering>, reqs: Requirements, o: Offering)
    requires WellFormed(reqs) && Pinned(o) && o in ofs && Offered(reqs, o)
    requires var ct := o.requirements[CAPACITY_TYPE];
      ct == Exactly(CAPACITY_TYPE, SPOT) ||
        (ct == Exactly(CAPACITY_TYPE, ON_DEMAND) && !Get(reqs, CAPACITY_TYPE).Has(SPOT))
    ensures o.price <= WorstLaunchPrice(ofs, reqs)
  {
    hide Offered;
    var spot := o.requirements[CAPACITY_TYPE] == Exactly(CAPACITY_TYPE, SPOT);
    var ct := if spot then SPOT else ON_DEMAND;
    OfferedType(reqs, o, ct);
    TypeKept(o, ct);
    assert o in CompatibleOfferings(CompatibleOfferings(ofs, reqs), CapacityTypeIs(ct));
  }

  /** Options filtered by price under the requirements they are launched with save. */
  lemma CheaperSaves(its: seq<InstanceType>, reqs: Requirements, price: real)
    requires WellFormed(reqs) && AllPinned(its)
    requires !(Get(reqs, CAPACITY_TYPE).Has(SPOT) && Get(reqs, CAPACITY_TYPE).Has(ON_DEMAND))
    ensures Saves(Cheaper(its, reqs, price), reqs, price)
  {
    hide Offered, WorstLaunchPrice;
    forall it, o | it in Cheaper(its, reqs, price) && o in it.offerings && o.available && Offered(reqs, o)
      ensures o.price < price {
      assert Pinned(o) && o in Available(it.offerings);
      if o.requirements[CAPACITY_TYPE] == Exactly(CAPACITY_TYPE, ON_DEMAND) {
        OfferedType(reqs, o, ON_DEMAND);
      }
      WorstPriceCovers(Available(it.offerings), reqs, o);
    }
  }

  /** Options filtered by price save if only their spot offerings may then be launched. */
  lemma CheaperSavesAsSpot(its: seq<InstanceType>, reqs: Requirements, price: real)
    requires WellFormed(reqs) && AllPinned(its)
    ensures Saves(Cheaper(its, reqs, price), SpotOnly(reqs), price)
  {
    hide Offered, WorstLaunchPrice, SpotOnly;
    forall it, o | it in Cheaper(its, reqs, price) && o in it.offerings && o.available && Offered(SpotOnly(reqs), o)
      ensures o.price < price
    {
      assert Pinned(o) && o in Available(it.offerings);
      OfferedSpotOnly(reqs, o);
      WorstPriceCovers(Available(it.offerings), reqs, o);
    }
  }

  lemma FewerSave(few: seq<InstanceType>, its: seq<InstanceType>, reqs: Requirements, price: real)
    requires Saves(its, reqs, price) && forall it :: it in few ==> it in its
    ensures Saves(few, reqs, price)
  {}

  // ----- Diversity

  lemma SpotOnlyKeepsMinValues(reqs: Requirements)
    requires WellFormed(reqs) && Keyed(reqs)
    ensures Keyed(SpotOnly(reqs))
    ensures forall k :: k in SpotOnly(reqs) ==>
              SpotOnly(reqs)[k].minValues == if k in reqs then reqs[k].minValues else None
  {
    ExactlyIs(SPOT);
  }

  /** Restricting the capacity type does not change how diverse the options must be. */
  lemma FlexibleAsSpot(its: seq<InstanceType>, reqs: Requirements)
    requires WellFormed(reqs) && Keyed(reqs) && Flexible(its, reqs)
    ensures Flexible(its, SpotOnly(reqs))
  {
    hide ListedValues, Keyed;
    SpotOnlyKeepsMinValues(reqs);
    SpotOnlyIs(reqs);
    if HasMinValues(SpotOnly(reqs)) && its != [] {
      var k :| k in SpotOnly(reqs) && SpotOnly(reqs)[k].minValues.Some?;
      assert k in reqs && HasMinValues(reqs);
      forall k | k in SpotOnly(reqs) ensures KeyCovered(its, SpotOnly(reqs), k) {
        assert k in reqs ==> KeyCovered(its, reqs, k);
      }
    }
  }

  // ----- When a replacement is worth it

  /** Spot nodes are being replaced and the replacement may be spot. */
  predicate SpotToSpot(reqs: Requirements, allSpot: bool) { allSpot && Get(reqs, CAPACITY_TYPE).Has(SPOT) }

  /** The requirements a replacement's prices are judged by: only as spot, if spot nodes are being replaced. */
  function PricedBy(reqs: Requirements, allSpot: bool): Requirements {
    if SpotToSpot(reqs, allSpot) then SpotOnly(reqs) else reqs
  }

  /** The options that cost less than the candidates together, whatever is launched. */
  function Savers(its: seq<InstanceType>, reqs: Requirements, allSpot: bool, price: real): (r: seq<InstanceType>)
    ensures forall it :: it in r <==>
      && it in its && WorstLaunchPrice(Available(it.offerings), PricedBy(reqs, allSpot)) < price
      && (SpotToSpot(reqs, allSpot) ==> HasCompatible(Available(it.offerings), SpotOnly(reqs)))
  {
    Cheaper(if SpotToSpot(reqs, allSpot) then InstanceTypesCompatible(its, SpotOnly(reqs)) else its,
            PricedBy(reqs, allSpot), price)
  }

  /**
   Some option saves and those that do are diverse enough.  Spot nodes are replaced by spot only
   if that is enabled, and a single one only if at least fifteen options save.
   */
  predicate Worthwhile(
    its: seq<InstanceType>, reqs: Requirements, candidates: nat, price: real, allSpot: bool, enabled: bool)
  {
    var savers := Savers(its, reqs, allSpot, price);
    && savers != [] && Flexible(savers, PricedBy(reqs, allSpot))
    && (SpotToSpot(reqs, allSpot) ==> enabled && (candidates <= 1 ==> |savers| >= 15))
  }

  /**
   The requirements a replacement is launched with: as spot only, if it could be spot or
   on-demand or replaces spot.
   */
  function LaunchedWith(reqs: Requirements, allSpot: bool): Requirements {
    var ct := Get(reqs, CAPACITY_TYPE);
    if SpotToSpot(reqs, allSpot) || (ct.Has(SPOT) && ct.Has(ON_DEMAND)) then SpotOnly(reqs) else reqs
  }

  /** At least fifteen of the first options, and no more unless diversity needs them. */
  predicate CutTo(left: seq<InstanceType>, reqs: Requirements, options: seq<InstanceType>) {
    && options <= left && |options| >= 15 && Flexible(options, reqs)
    && (|options| > 15 ==> HasMinValues(reqs) && !Covered(left[..|options| - 1], reqs))
  }

  /** The options of a replacement are those that save, cheapest first, cut to the cheapest for a single spot node. */
  ghost predicate ReplacedBy(
    its: seq<InstanceType>, reqs: Requirements, candidates: nat, price: real, allSpot: bool,
    options: seq<InstanceType>, reqs': Requirements)
  {
    && reqs' == LaunchedWith(reqs, allSpot)
    && exists left ::
         && multiset(left) == multiset(Savers(its, reqs, allSpot, price)) && InOrder(left, reqs)
         && if SpotToSpot(reqs, allSpot) &&
           candidates <= 1 then CutTo(left, SpotOnly(reqs), options) else options == left
  }

  /** The option can be launched, and costs less than the limit whatever is launched. */
  predicate CostsBelow(it: InstanceType, reqs: Requirements, limit: real, launchable: bool) {
    && WorstLaunchPrice(Available(it.offerings), reqs) < limit
    && (launchable ==> HasCompatible(Available(it.offerings), reqs))
  }

  /** Exactly the options that cost less than the limit, each as often as it occurs. */
  ghost predicate KeepsBelow(
    left: seq<InstanceType>, its: seq<InstanceType>, reqs: Requirements, limit: real, launchable: bool)
  {
    forall it :: multiset(left)[it] == if CostsBelow(it, reqs, limit, launchable) then multiset(its)[it] else 0
  }

  lemma SaversKeepBelow(its: seq<InstanceType>, reqs: Requirements, allSpot: bool, price: real)
    ensures
      KeepsBelow(Savers(its, reqs, allSpot, price), its, PricedBy(reqs, allSpot), price, SpotToSpot(reqs, allSpot))
  {
    hide Cheaper, InstanceTypesCompatible, HasCompatible, SpotOnly, SpotToSpot, Available, WorstLaunchPrice;
    var spot, priced := SpotOnly(reqs), PricedBy(reqs, allSpot);
    forall it ensures multiset(Savers(its, reqs, allSpot, price))[it] ==
      if CostsBelow(it, priced, price, SpotToSpot(reqs, allSpot)) then multiset(its)[it] else 0
    {
      CompatibleCounts(its, spot, it);
      CheaperCounts(its, priced, price, it);
      CheaperCounts(InstanceTypesCompatible(its, spot), priced, price, it);
    }
  }

  lemma BelowAgree(
    xs: seq<InstanceType>, ys: seq<InstanceType>, its: seq<InstanceType>, reqs: Requirements, limit: real,
      launchable: bool)
    requires KeepsBelow(xs, its, reqs, limit, launchable) && KeepsBelow(ys, its, reqs, limit, launchable)
    ensures |xs| == |ys| && (Flexible(xs, reqs) <==> Flexible(ys, reqs))
  {
    hide CostsBelow, Flexible;
    assert forall it :: multiset(xs)[it] == multiset(ys)[it];
    assert multiset(xs) == multiset(ys);
    PermutationMembers(xs, ys);
    SameOptionsFlexible(xs, ys, reqs);
  }

  /**
   When a replacement is worth it.  If a candidate is not spot, or the replacement cannot be: some
   options cost less whatever is launched, and these are diverse enough; the gate does not matter.
   If all are spot and it can be: the gate is open, the same holds of launching spot, and a lone
   candidate has at least fifteen such options.
   */
  lemma WorthwhileIff(
    its: seq<InstanceType>, reqs: Requirements, candidates: nat, price: real, allSpot: bool, enabled: bool,
    left: seq<InstanceType>)
    ensures !(allSpot && Get(reqs, CAPACITY_TYPE).Has(SPOT)) && KeepsBelow(left, its, reqs, price, false) ==>
      (Worthwhile(its, reqs, candidates, price, allSpot, enabled) <==> left != [] && Flexible(left, reqs))
    ensures
      var spot := Add(reqs, Exactly(CAPACITY_TYPE, SPOT));
      allSpot && Get(reqs, CAPACITY_TYPE).Has(SPOT) && KeepsBelow(left, its, spot, price, true) ==>
        (Worthwhile(its, reqs, candidates, price, allSpot, enabled) <==>
           enabled && left != [] && Flexible(left, spot) && (candidates > 1 || |left| >= 15))
  {
    hide Savers, KeepsBelow, Flexible, SpotOnly, Requirement.Has;
    SpotOnlyAdds(reqs);
    SaversKeepBelow(its, reqs, allSpot, price);
    var priced, launchable := PricedBy(reqs, allSpot), SpotToSpot(reqs, allSpot);
    if KeepsBelow(left, its, priced, price, launchable) {
      BelowAgree(left, Savers(its, reqs, allSpot, price), its, priced, price, launchable);
    }
  }

  lemma SaversPermuted(
    its: seq<InstanceType>, sorted: seq<InstanceType>, reqs: Requirements, allSpot: bool, price: real)
    requires multiset(sorted) == multiset(its)
    ensures multiset(Savers(sorted, reqs, allSpot, price)) == multiset(Savers(its, reqs, allSpot, price))
    ensures |Savers(sorted, reqs, allSpot, price)| == |Savers(its, reqs, allSpot, price)|
    ensures Flexible(Savers(sorted, reqs, allSpot, price), PricedBy(reqs, allSpot)) ==
            Flexible(Savers(its, reqs, allSpot, price), PricedBy(reqs, allSpot))
  {
    hide Cheaper, InstanceTypesCompatible, WorstLaunchPrice, HasCompatible, SpotOnly, SpotToSpot, Flexible, Available;
    var xs, ys, spot := Savers(sorted, reqs, allSpot, price), Savers(its, reqs, allSpot, price), SpotOnly(reqs);
    forall it ensures multiset(xs)[it] == multiset(ys)[it] {
      CompatibleCounts(sorted, spot, it);
      CompatibleCounts(its, spot, it);
      CheaperCounts(sorted, PricedBy(reqs, allSpot), price, it);
      CheaperCounts(its, PricedBy(reqs, allSpot), price, it);
      CheaperCounts(InstanceTypesCompatible(sorted, spot), PricedBy(reqs, allSpot), price, it);
      CheaperCounts(InstanceTypesCompatible(its, spot), PricedBy(reqs, allSpot), price, it);
    }
    assert multiset(xs) == multiset(ys);
    PermutationMembers(xs, ys);
    SameOptionsFlexible(xs, ys, PricedBy(reqs, allSpot));
  }

  lemma SaversInOrder(sorted: seq<InstanceType>, reqs: Requirements, allSpot: bool, price: real)
    requires InOrder(sorted, reqs)
    ensures InOrder(Savers(sorted, reqs, allSpot, price), reqs)
  {
    hide InOrder, Cheaper, InstanceTypesCompatible, SpotOnly, SpotToSpot;
    CompatibleInOrder(sorted, SpotOnly(reqs), reqs);
    CheaperInOrder(if SpotToSpot(reqs, allSpot) then InstanceTypesCompatible(sorted, SpotOnly(reqs)) else sorted,
      PricedBy(reqs, allSpot), price, reqs);
  }

  /**
   What a single spot node is replaced by is cheaper than whatever else would have saved, by
   the prices before the restriction to spot.
   */
  lemma KeptAreCheapest(
    left: seq<InstanceType>, reqs: Requirements, order: Requirements, options: seq<InstanceType>, i: nat, j: nat)
    requires CutTo(left, reqs, options) && InOrder(left, order) && i < |options| <= j < |left|
    ensures PriceLeq(options[i], left[j], order)
  {
    hide PriceLeq, Flexible;
    assert options[i] == left[i];
  }

  // ----- Computing a command

  method RemoveByPriceAndMinValues(c: NodeClaim, reqs: Requirements, maxPrice: real) returns (ok: bool)
    requires Keyed(reqs)
    modifies c`options
    ensures c.options == Cheaper(old(c.options), reqs, maxPrice) && (ok <==> Flexible(c.options, reqs))
  {
    hide Cheaper, Covered;
    var kept := Cheaper(c.options, reqs, maxPrice);
    c.options := kept;
    var needed;
    needed, ok := SatisfiesMinValues(kept, reqs);
  }

  /** How the simulation without the candidates went. */
  datatype Simulation = Deleting | Broken | Unschedulable | Scheduled(claims: seq<NodeClaim>)

  datatype Decision = NoAction | Failure | DeleteOnly | Replace

  /** What holds of a replacement: it is not empty, it is diverse enough, and it saves. */
  ghost predicate GoodReplacement(c: NodeClaim, before: seq<InstanceType>, price: real) reads c {
    && c.options != [] && (forall it :: it in c.options ==> it in before)
    && Flexible(c.options, c.requirements) && Keyed(c.requirements)
    && Saves(c.options, c.requirements, price)
  }

  ghost predicate ReadyToPrice(c: NodeClaim) reads c {
    WellFormed(c.requirements) && Keyed(c.requirements) && AllPinned(c.options)
  }

  method ComputeConsolidation(cs: seq<Candidate>, simulation: Simulation, spotToSpot: bool) returns (decision: Decision)
    requires simulation.Scheduled? ==> forall c :: c in simulation.claims ==> ReadyToPrice(c)
    modifies if simulation.Scheduled? then simulation.claims else []
    ensures decision.DeleteOnly? <==> simulation.Scheduled? && simulation.claims == []
    ensures decision.Failure? <==> simulation.Broken? || (OneClaim(simulation) && !Priced(cs))
    ensures decision.Replace? <==>
      && OneClaim(simulation) && Priced(cs)
      && Worthwhile(old(simulation.claims[0].options), old(simulation.claims[0].requirements), |cs|, TotalPrice(cs),
                    AllSpot(cs), spotToSpot)
    ensures decision.Replace? ==>
      var c := simulation.claims[0];
      && GoodReplacement(c, old(c.options), TotalPrice(cs)) && c.requirements in Restricted(old(c.requirements))
      && ReplacedBy(old(c.options), old(c.requirements), |cs|, TotalPrice(cs), AllSpot(cs), c.options, c.requirements)
  {
    hide Priced, TotalPrice, GoodReplacement, Worthwhile, ReplacedBy;
    if simulation.Deleting? || simulation.Unschedulable? {
      return NoAction;
    }
    if simulation.Broken? {
      return Failure;
    }
    if simulation.claims == [] {
      return DeleteOnly;
    }
    if |simulation.claims| != 1 {
      return NoAction;
    }
    var c := simulation.claims[0];
    assert c in simulation.claims;
    var price := GetCandidatePrices(cs);
    if price.None? {
      return Failure;
    }
    decision := PriceReplacement(c, |cs|, price.value, AllSpot(cs), spotToSpot);
  }

  predicate OneClaim(simulation: Simulation) { simulation.Scheduled? && |simulation.claims| == 1 }

  predicate AllSpot(cs: seq<Candidate>) { forall c :: c in cs ==> c.capacityType == SPOT }

  /** Keep the options that are cheaper than the candidates together, and see to it that nothing dearer is launched. */
  method PriceReplacement(c: NodeClaim, candidates: nat, price: real, allSpot: bool, spotToSpot: bool)
    returns (decision: Decision)
    requires ReadyToPrice(c)
    modifies c`options, c`requirements
    ensures decision.NoAction? || decision.Replace?
    ensures decision.Replace? <==>
      Worthwhile(old(c.options), old(c.requirements), candidates, price, allSpot, spotToSpot)
    ensures decision.Replace? ==>
      && GoodReplacement(c, old(c.options), price) && c.requirements in Restricted(old(c.requirements))
      && ReplacedBy(old(c.options), old(c.requirements), candidates, price, allSpot, c.options, c.requirements)
  {
    hide Cheaper, Saves, Flexible, WellFormed, Keyed, Requirement.Has, SpotOnly, Pinned, PriceLeq;
    ghost var before, reqs := c.options, c.requirements;
    c.options := OrderByPrice(c.options, c.requirements);
    ghost var sorted := c.options;
    SortedMembers(before, sorted, reqs);
    SaversPermuted(before, sorted, reqs, allSpot, price);
    SaversInOrder(sorted, reqs, allSpot, price);
    if allSpot && Get(c.requirements, CAPACITY_TYPE).Has(SPOT) {
      decision := PriceSpotToSpot(c, candidates, price, spotToSpot);
      return;
    }
    var ok := RemoveByPriceAndMinValues(c, c.requirements, price);
    if !ok || c.options == [] {
      return NoAction;
    }
    CheaperMembers(sorted, c.requirements, price);
    var ct := Get(c.requirements, CAPACITY_TYPE);
    if ct.Has(SPOT) && ct.Has(ON_DEMAND) {
      CheaperSavesAsSpot(sorted, c.requirements, price);
      FlexibleAsSpot(c.options, c.requirements);
      SpotOnlyAdds(c.requirements);
      SpotOnlyFacts(c.requirements);
      c.requirements := Add(c.requirements, Exactly(CAPACITY_TYPE, SPOT));
    } else {
      CheaperSaves(sorted, c.requirements, price);
    }
    decision := Replace;
  }

  lemma SpotOnlyAdds(reqs: Requirements)
    ensures SpotOnly(reqs) == Add(reqs, Exactly(CAPACITY_TYPE, SPOT))
  {}

  lemma SortedMembers(its: seq<InstanceType>, sorted: seq<InstanceType>, reqs: Requirements)
    requires OrderedByPrice(sorted, its, reqs) && AllPinned(its)
    ensures AllPinned(sorted) && forall it :: it in sorted <==> it in its
  {
    hide Pinned;
    PermutationMembers(sorted, its);
  }

  lemma CheaperMembers(its: seq<InstanceType>, reqs: Requirements, price: real)
    ensures forall it :: it in Cheaper(its, reqs, price) ==> it in its
  {}

  /**
   Spot nodes are replaced by a spot node: only spot may be launched, and a single node is
   replaced only if at least fifteen options are cheaper, of which the cheapest are kept.
   */
  method PriceSpotToSpot(c: NodeClaim, candidates: nat, price: real, enabled: bool) returns (decision: Decision)
    requires ReadyToPrice(c) && Get(c.requirements, CAPACITY_TYPE).Has(SPOT)
    modifies c`options, c`requirements
    ensures decision.NoAction? || decision.Replace?
    ensures decision.Replace? <==> Worthwhile(old(c.options), old(c.requirements), candidates, price, true, enabled)
    ensures decision.Replace? ==>
      && GoodReplacement(c, old(c.options), price) && c.requirements == SpotOnly(old(c.requirements))
      && var savers := Savers(old(c.options), old(c.requirements), true, price);
      if candidates <= 1 then CutTo(savers, c.requirements, c.options) else c.options == savers
  {
    hide Cheaper, Saves, Flexible, WellFormed, Keyed, InstanceTypesCompatible, SpotOnly, Pinned;
    if !enabled {
      return NoAction;
    }
    ghost var before, reqs := c.options, c.requirements;
    SpotOnlyAdds(reqs);
    SpotOnlyFacts(reqs);
    c.requirements := Add(c.requirements, Exactly(CAPACITY_TYPE, SPOT));
    c.options := InstanceTypesCompatible(c.options, c.requirements);
    ghost var compatible := c.options;
    CompatibleMembers(before, c.requirements);
    var ok := RemoveByPriceAndMinValues(c, c.requirements, price);
    if !ok || c.options == [] {
      return NoAction;
    }
    CheaperMembers(compatible, c.requirements, price);
    CheaperSaves(compatible, c.requirements, price);
    if candidates > 1 {
      return Replace;
    }
    if |c.options| < MIN_INSTANCE_TYPES {
      return NoAction;
    }
    decision := Replace;
    CutOptions(c, price);
  }

  lemma SpotOnlyFacts(reqs: Requirements)
    requires WellFormed(reqs) && Keyed(reqs)
    ensures WellFormed(SpotOnly(reqs)) && Keyed(SpotOnly(reqs))
    ensures !(Get(SpotOnly(reqs), CAPACITY_TYPE).Has(SPOT) && Get(SpotOnly(reqs), CAPACITY_TYPE).Has(ON_DEMAND))
  {
    hide Requirement.Has;
    SpotOnlyIs(reqs);
    SpotOnlyKeepsMinValues(reqs);
  }

  lemma CompatibleMembers(its: seq<InstanceType>, reqs: Requirements)
    requires AllPinned(its)
    ensures AllPinned(InstanceTypesCompatible(its, reqs)) &&
      forall it :: it in InstanceTypesCompatible(its, reqs) ==> it in its
  {
    hide Pinned;
  }

  /** Cut the options to fifteen, or to as many as diversity needs. */
  method CutOptions(c: NodeClaim, ghost price: real)
    requires Keyed(c.requirements) && |c.options| >= MIN_INSTANCE_TYPES
    requires Flexible(c.options, c.requirements) && Saves(c.options, c.requirements, price)
    modifies c`options
    ensures CutTo(old(c.options), c.requirements, c.options) && (forall it :: it in c.options ==> it in old(c.options))
    ensures Saves(c.options, c.requirements, price)
  {
    hide Saves, Covered;
    ghost var its := c.options;
    var n := MIN_INSTANCE_TYPES;
    if exists k :: k in c.requirements.Keys && c.requirements[k].minValues.Some? {
      var needed, ok := SatisfiesMinValues(c.options, c.requirements);
      n := if MIN_INSTANCE_TYPES >= needed then MIN_INSTANCE_TYPES else needed;
      CutStillCovers(its, c.requirements, needed, MIN_INSTANCE_TYPES);
    }
    c.options := Slice(c.options, n);
    FewerSave(c.options, its, c.requirements, price);
  }

  // ----- Replacing several nodes by one of their own kind

  type TypePrices = map<string, real>

  function TypeNames(cs: seq<Candidate>): set<string> { set c | c in cs :: c.instanceType.name }

  /** The lowest price of the candidates of a type, if any of them has a price. */
  function LowestPrice(cs: seq<Candidate>, name: string): Option<real> {
    if cs == [] then None
    else
      var before, c := LowestPrice(cs[..|cs| - 1], name), cs[|cs| - 1];
      if c.instanceType.name != name || c.Offerings() == [] then before
      else
        var p := Cheapest(c.Offerings()).price;
        if p < (if before.Some? then before.value else MAX_PRICE) then Some(p) else before
  }

  /**
   The price an option must stay below: that of the cheapest candidate of a type among the
   options; a type without a price counts as free.
   */
  function Cap(its: seq<InstanceType>, cs: seq<Candidate>): real {
    if its == [] then MAX_PRICE
    else
      var before, name := Cap(its[..|its| - 1], cs), its[|its| - 1].name;
      if name !in TypeNames(cs) then before
      else
        var p := if LowestPrice(cs, name).Some? then LowestPrice(cs, name).value else 0.0;
        if p < before then p else before
  }

  lemma {:induction false} LowestBounds(cs: seq<Candidate>, c: Candidate)
    requires c in cs && c.Offerings() != []
    ensures var low := LowestPrice(cs, c.instanceType.name);
      (if low.Some? then low.value else MAX_PRICE) <= Cheapest(c.Offerings()).price ||
        Cheapest(c.Offerings()).price >= MAX_PRICE
    decreases |cs|
  {
    hide Candidate.Offerings, Cheapest;
    var n := |cs| - 1;
    if c in cs[..n] {
      LowestBounds(cs[..n], c);
    } else {
      assert cs == cs[..n] + [cs[n]] && cs[n] == c;
    }
  }

  /** The cap is at most the price of any candidate of a type among the options, and no cap at all if there is none. */
  lemma {:induction false} CapBounds(its: seq<InstanceType>, cs: seq<Candidate>)
    ensures Cap(its, cs) <= MAX_PRICE
    ensures forall it, c ::
      it in its && c in cs && c.instanceType.name == it.name && c.Offerings() != [] ==>
        Cap(its, cs) <= Cheapest(c.Offerings()).price
    ensures (forall it :: it in its ==> it.name !in TypeNames(cs)) ==> Cap(its, cs) == MAX_PRICE
    decreases |its|
  {
    hide Candidate.Offerings, Cheapest, LowestPrice;
    if its != [] {
      var n := |its| - 1;
      CapBounds(its[..n], cs);
      assert its == its[..n] + [its[n]];
      forall c | c in cs && c.instanceType.name == its[n].name && c.Offerings() != []
        ensures Cap(its, cs) <= Cheapest(c.Offerings()).price {
        LowestBounds(cs, c);
      }
    }
  }

  /**
   The lowest price of a type is that of some candidate, and there is none only if no
   candidate of the type has one.
   */
  lemma {:induction false} LowestAttained(cs: seq<Candidate>, name: string)
    ensures var low := LowestPrice(cs, name);
      && (low.Some? ==> exists c ::
            c in cs && c.instanceType.name == name && c.Offerings() != [] && Cheapest(c.Offerings()).price == low.value)
      && (low.None? ==> forall c ::
            c in cs && c.instanceType.name == name && c.Offerings() != [] ==>
              Cheapest(c.Offerings()).price >= MAX_PRICE)
  {
    hide Candidate.Offerings, Cheapest;
    if cs != [] {
      var n := |cs| - 1;
      LowestAttained(cs[..n], name);
      assert cs == cs[..n] + [cs[n]];
    }
  }

  /**
   If there is a cap, it is the lowest price of some type among both options and candidates,
   or zero if that has none.
   */
  lemma {:induction false} CapAttained(its: seq<InstanceType>, cs: seq<Candidate>)
    ensures Cap(its, cs) == MAX_PRICE ||
      exists it ::
        && it in its && it.name in TypeNames(cs)
        && Cap(its, cs) == if LowestPrice(cs, it.name).Some? then LowestPrice(cs, it.name).value else 0.0
  {
    hide LowestPrice, TypeNames;
    if its != [] {
      var n := |its| - 1;
      CapAttained(its[..n], cs);
      assert its == its[..n] + [its[n]];
    }
  }

  method TypePricesOf(cs: seq<Candidate>) returns (prices: TypePrices, names: set<string>)
    ensures names == TypeNames(cs)
    ensures forall name :: LowestPrice(cs, name) == if name in prices then Some(prices[name]) else None
  {
    hide Candidate.Offerings, Cheapest;
    prices, names := map[], {};
    for i := 0 to |cs|
      invariant names == TypeNames(cs[..i])
      invariant forall name :: LowestPrice(cs[..i], name) == if name in prices then Some(prices[name]) else None
    {
      var c := cs[i];
      assert cs[..i + 1] == cs[..i] + [c] && cs[..i + 1][..i] == cs[..i];
      names := names + {c.instanceType.name};
      var offers := c.Offerings();
      if offers == [] {
        continue;
      }
      var existing := if c.instanceType.name in prices then prices[c.instanceType.name] else MAX_PRICE;
      var p := Cheapest(offers).price;
      if p < existing {
        prices := prices[c.instanceType.name := p];
      }
    }
    assert cs[..|cs|] == cs;
  }

  /**
   If the replacement could be of a type that is being removed, only options cheaper than
   the cheapest such candidate make sense; otherwise that candidate should simply stay.
   The options left are read from the claim that the price filter returns, which is
   missing when they are not diverse enough: the program then stops with a nil
   dereference, and `survives` is false.
   */
  method FilterOutSameType(c: NodeClaim, cs: seq<Candidate>) returns (survives: bool)
    requires Keyed(c.requirements)
    modifies c`options
    ensures c.options == Cheaper(old(c.options), c.requirements, Cap(old(c.options), cs))
    ensures survives <==> !Panics(old(c.options), c.requirements, cs)
  {
    hide Candidate.Offerings, Cheapest, Cheaper, Covered, Keyed, LowestPrice;
    var prices, names := TypePricesOf(cs);
    var maxPrice := MAX_PRICE;
    for i := 0 to |c.options|
      invariant maxPrice == Cap(c.options[..i], cs)
    {
      var it := c.options[i];
      assert c.options[..i + 1][..i] == c.options[..i];
      if it.name in names {
        var p := if it.name in prices then prices[it.name] else 0.0;
        if p < maxPrice {
          maxPrice := p;
        }
      }
    }
    assert c.options[..|c.options|] == c.options;
    survives := RemoveByPriceAndMinValues(c, c.requirements, maxPrice);
  }

  /**
   Some option stays below the cap, minValues asks for diversity, and the options that stay
   are not diverse enough.
   */
  predicate Panics(its: seq<InstanceType>, reqs: Requirements, cs: seq<Candidate>) {
    var left := Cheaper(its, reqs, Cap(its, cs));
    HasMinValues(reqs) && left != [] && !Covered(left, reqs)
  }

  /** No replacement of a type that is being removed is as dear as the cheapest candidate of that type. */
  lemma SameTypeIsCheaper(
    its: seq<InstanceType>, reqs: Requirements, cs: seq<Candidate>, it: InstanceType, other: InstanceType, c: Candidate)
    requires it in Cheaper(its, reqs, Cap(its, cs)) && other in its && c in cs && c.instanceType.name == other.name &&
      c.Offerings() != []
    ensures WorstLaunchPrice(Available(it.offerings), reqs) < Cheapest(c.Offerings()).price
  {
    hide Candidate.Offerings, Cheapest, WorstLaunchPrice, Cap;
    CapBounds(its, cs);
  }

  /** The search for the longest prefix may filter a replacement again; it goes on saving. */
  lemma FilteredStillSaves(its: seq<InstanceType>, reqs: Requirements, maxPrice: real, price: real)
    requires Saves(its, reqs, price)
    ensures Saves(Cheaper(its, reqs, maxPrice), reqs, price)
  {
    CheaperMembers(its, reqs, maxPrice);
    FewerSave(Cheaper(its, reqs, maxPrice), its, reqs, price);
  }

  // ----- Commands

  /**
   What to do with the chosen nodes: remove them, or remove them once a node of one of the
   options has taken their place.
   */
  datatype Action = DeleteNodes | ReplaceBy(options: seq<InstanceType>, requirements: Requirements)

  /** What an attempt to consolidate some nodes comes to. */
  datatype Proposal = Failing | Nothing | Crashing | Proposing(command: Action)

  /** A command never costs more: a replacement, whatever is launched for it, costs less than the nodes it replaces. */
  ghost predicate Justified(cs: seq<Candidate>, p: Proposal) {
    p.Proposing? && p.command.ReplaceBy? ==>
      && p.command.options != [] && Flexible(p.command.options, p.command.requirements)
      && Priced(cs) && Saves(p.command.options, p.command.requirements, TotalPrice(cs))
  }

  /** A replacement for the candidates is worth it, judged by the simulated claim as it was. */
  ghost predicate WorthReplacing(
    cs: seq<Candidate>, simulation: Simulation, its: seq<InstanceType>, reqs: Requirements, spotToSpot: bool)
  {
    OneClaim(simulation) && Priced(cs) && Worthwhile(its, reqs, |cs|, TotalPrice(cs), AllSpot(cs), spotToSpot)
  }

  /** The options and requirements that a replacement worth it ends up with. */
  ghost predicate Replacing(
    cs: seq<Candidate>, its: seq<InstanceType>, reqs: Requirements, options: seq<InstanceType>, reqs': Requirements)
  {
    Priced(cs) && ReplacedBy(its, reqs, |cs|, TotalPrice(cs), AllSpot(cs), options, reqs')
  }

  /** The attempt for a single node. */
  method ProposeOne(cs: seq<Candidate>, simulation: Simulation, spotToSpot: bool) returns (p: Proposal)
    requires simulation.Scheduled? ==> forall c :: c in simulation.claims ==> ReadyToPrice(c)
    modifies if simulation.Scheduled? then simulation.claims else []
    ensures Justified(cs, p) && !p.Crashing?
    ensures p == Proposing(DeleteNodes) <==> simulation.Scheduled? && simulation.claims == []
    ensures p.Failing? <==> simulation.Broken? || (OneClaim(simulation) && !Priced(cs))
    ensures p.Proposing? && p.command.ReplaceBy? <==>
      && OneClaim(simulation)
      && WorthReplacing(
        cs, simulation, old(simulation.claims[0].options), old(simulation.claims[0].requirements), spotToSpot)
    ensures p.Proposing? && p.command.ReplaceBy? ==>
      var c := simulation.claims[0];
      Replacing(cs, old(c.options), old(c.requirements), p.command.options, p.command.requirements)
  {
    hide Saves, Flexible, Priced, TotalPrice, Worthwhile, ReplacedBy, AllSpot;
    var decision := ComputeConsolidation(cs, simulation, spotToSpot);
    p := match decision
      case NoAction => Nothing
      case Failure => Failing
      case DeleteOnly => Proposing(DeleteNodes)
      case Replace => Proposing(ReplaceBy(simulation.claims[0].options, simulation.claims[0].requirements));
  }

  /** What is decided about a replacement that was found, from its options and requirements. */
  function Decided(its: seq<InstanceType>, reqs: Requirements, cs: seq<Candidate>): Proposal {
    var left := Cheaper(its, reqs, Cap(its, cs));
    if Panics(its, reqs, cs) then Crashing
    else if left == [] then Nothing
    else Proposing(ReplaceBy(left, reqs))
  }

  /** The proposal is what is decided about the replacement, which would save and is diverse enough. */
  ghost predicate DecidedFrom(
    options: seq<InstanceType>, reqs: Requirements, cs: seq<Candidate>, reqs': Requirements, p: Proposal)
  {
    exists its ::
      && Replacing(cs, options, reqs, its, reqs') && its != [] && Flexible(its, reqs')
      && Saves(its, reqs', TotalPrice(cs)) && p == Decided(its, reqs', cs)
  }

  /**
   The attempt for several nodes at once.  It crashes only over a single replacement that
   asks for a number of values, and then over options that would have been good enough.
   */
  method ProposeMany(cs: seq<Candidate>, simulation: Simulation, spotToSpot: bool) returns (p: Proposal)
    requires simulation.Scheduled? ==> forall c :: c in simulation.claims ==> ReadyToPrice(c)
    modifies if simulation.Scheduled? then simulation.claims else []
    ensures Justified(cs, p)
    ensures p == Proposing(DeleteNodes) <==> simulation.Scheduled? && simulation.claims == []
    ensures p.Failing? <==> simulation.Broken? || (OneClaim(simulation) && !Priced(cs))
    ensures OneClaim(simulation) ==>
      var c := simulation.claims[0];
      if WorthReplacing(cs, simulation, old(c.options), old(c.requirements), spotToSpot)
      then DecidedFrom(old(c.options), old(c.requirements), cs, c.requirements, p)
      else p.Failing? || p.Nothing?
    ensures !OneClaim(simulation) ==> !p.Crashing? && !(p.Proposing? && p.command.ReplaceBy?)
    ensures p.Crashing? ==> HasMinValues(old(simulation.claims[0].requirements))
  {
    hide Saves, Covered, Priced, TotalPrice, Cap, Cheaper, Keyed, SpotOnly, WellFormed, Worthwhile, ReplacedBy, AllSpot;
    if simulation.Scheduled? && |simulation.claims| == 1 {
      assert ReadyToPrice(simulation.claims[0]);
      MinValuesAsBefore(simulation.claims[0].requirements);
    }
    var decision := ComputeConsolidation(cs, simulation, spotToSpot);
    match decision {
      case NoAction => p := Nothing;
      case Failure => p := Failing;
      case DeleteOnly => p := Proposing(DeleteNodes);
      case Replace =>
        var c := simulation.claims[0];
        ghost var its := c.options;
        var survives := FilterOutSameType(c, cs);
        FilteredStillSaves(its, c.requirements, Cap(its, cs), TotalPrice(cs));
        if !survives {
          p := Crashing;
        } else if c.options == [] {
          p := Nothing;
        } else {
          p := Proposing(ReplaceBy(c.options, c.requirements));
        }
        assert p == Decided(its, c.requirements, cs);
    }
  }

  lemma MinValuesAsBefore(reqs: Requirements)
    requires WellFormed(reqs) && Keyed(reqs)
    ensures forall r :: r in Restricted(reqs) && HasMinValues(r) ==> HasMinValues(reqs)
  {
    hide SpotOnly, WellFormed, Keyed;
    SpotOnlyKeepsMinValues(reqs);
    if HasMinValues(SpotOnly(reqs)) {
      var k :| k in SpotOnly(reqs) && SpotOnly(reqs)[k].minValues.Some?;
      assert k in reqs && reqs[k].minValues.Some?;
    }
  }

  // ----- A replacement over which the program stops

  // Two types at different prices, on demand only.  Two nodes of the dearer type are to be
  // replaced by one node, for which at least two types must be on offer.

  function OnDemand(price: real): Offering { Offering(CapacityTypeIs(ON_DEMAND), price, true) }

  function TypeAt(name: string, price: real): InstanceType {
    InstanceType(name, map[INSTANCE_TYPE := Exactly(INSTANCE_TYPE, name)], [OnDemand(price)], map[], map[])
  }

  function TwoTypes(): seq<InstanceType> { [TypeAt("a", 1.0), TypeAt("b", 2.0)] }

  function TwoOrMore(): Requirements {
    map[CAPACITY_TYPE := Exactly(CAPACITY_TYPE, ON_DEMAND),
      INSTANCE_TYPE := New(INSTANCE_TYPE, In, Some(2), ["a", "b"])]
  }

  function TwoNodes(): seq<Candidate> {
    var node := Candidate("m", "pool", false, TypeAt("b", 2.0), map[], ON_DEMAND);
    [node, node.(name := "n")]
  }

  lemma KeysDiffer()
    ensures CAPACITY_TYPE != INSTANCE_TYPE && SPOT != ON_DEMAND && "a" != "b"
  {
    assert CAPACITY_TYPE[0] == 'k' && INSTANCE_TYPE[0] == 'n' && SPOT[0] == 's' && ON_DEMAND[0] == 'o' &&
      "a"[0] != "b"[0];
  }

  /** Whoever does not ask for another capacity type is offered it on demand. */
  lemma OnDemandIsOffered(reqs: Requirements, price: real)
    requires CAPACITY_TYPE in reqs ==> reqs[CAPACITY_TYPE] == Exactly(CAPACITY_TYPE, ON_DEMAND)
    ensures Offered(reqs, OnDemand(price)) && CompatibleOfferings([OnDemand(price)], reqs) == [OnDemand(price)]
  {
    hide Requirement.Has, Requirement.Intersection, Requirement.AllowsAbsence, Requirement.Len;
    ExactlyIs(ON_DEMAND);
    CutByOne(Exactly(CAPACITY_TYPE, ON_DEMAND), ON_DEMAND);
    assert [OnDemand(price)][1..] == [];
  }

  lemma PriceOnDemand(name: string, price: real)
    ensures WorstLaunchPrice(Available(TypeAt(name, price).offerings), TwoOrMore()) == price
  {
    hide CompatibleOfferings, Requirement.Has;
    KeysDiffer();
    ExactlyIs(ON_DEMAND);
    OnDemandIsOffered(TwoOrMore(), price);
    OnDemandIsOffered(CapacityTypeIs(ON_DEMAND), price);
    assert [OnDemand(price)][1..] == [];
    assert Available([OnDemand(price)]) == [OnDemand(price)];
  }

  lemma CheaperOfTwo(maxPrice: real)
    requires 1.0 < maxPrice
    ensures Cheaper(TwoTypes(), TwoOrMore(), maxPrice) == if 2.0 < maxPrice then TwoTypes() else TwoTypes()[..1]
  {
    hide TypeAt, TwoOrMore, WorstLaunchPrice;
    PriceOnDemand("a", 1.0);
    PriceOnDemand("b", 2.0);
    var a, b, reqs := TypeAt("a", 1.0), TypeAt("b", 2.0), TwoOrMore();
    assert TwoTypes()[1..] == [b] && [b][1..] == [] && TwoTypes()[..1] == [a];
    assert Cheaper([b], reqs, maxPrice) == if 2.0 < maxPrice then [b] else [];
  }

  lemma ListedTypes()
    ensures Covered(TwoTypes(), TwoOrMore()) && !Covered(TwoTypes()[..1], TwoOrMore()) && HasMinValues(TwoOrMore())
  {
    hide Normalize, Cheapest;
    KeysDiffer();
    var a, b, key := TypeAt("a", 1.0), TypeAt("b", 2.0), INSTANCE_TYPE;
    assert Elements(["a"]) == {"a"} && Elements(["b"]) == {"b"};
    assert TwoTypes()[..1] == [a] && [a][..0] == [];
    assert ListedValues([a], key) == {"a"} && ListedValues(TwoTypes(), key) == {"a", "b"};
    assert |{"a", "b"}| == 2 && |{"a"}| == 1;
    assert KeyCovered(TwoTypes(), TwoOrMore(), key) && !KeyCovered([a], TwoOrMore(), key);
    assert KeyCovered(TwoTypes(), TwoOrMore(), CAPACITY_TYPE);
  }

  lemma TwoNodesCost()
    ensures Priced(TwoNodes()) && TotalPrice(TwoNodes()) == 4.0 && Cap(TwoTypes(), TwoNodes()) == 2.0
  {
    hide CompatibleOfferings;
    KeysDiffer();
    assert LabelRequirements(map[]) == map[];
    OnDemandIsOffered(map[], 2.0);
    var m, n, a, b := TwoNodes()[0], TwoNodes()[1], TypeAt("a", 1.0), TypeAt("b", 2.0);
    assert m.Offerings() == n.Offerings() == [OnDemand(2.0)];
    assert TwoNodes()[..1] == [m] && [m][..0] == [] && TwoTypes()[..1] == [a] && [a][..0] == [];
    assert TotalPrice([m]) == 2.0;
    assert LowestPrice([m], "b") == Some(2.0) && LowestPrice(TwoNodes(), "b") == Some(2.0);
    assert TypeNames(TwoNodes()) == {"b"};
    assert Cap([a], TwoNodes()) == MAX_PRICE;
  }

  lemma TwoNodesAreOnDemand()
    ensures !AllSpot(TwoNodes()) && !Get(TwoOrMore(), CAPACITY_TYPE).Has(SPOT)
  {
    KeysDiffer();
    ExactlyIs(ON_DEMAND);
    assert TwoNodes()[0] in TwoNodes();
  }

  lemma CheapestOnDemand(name: string, price: real)
    ensures CheapestPrice(TypeAt(name, price), TwoOrMore()) == price
  {
    hide CompatibleOfferings, Requirement.Has;
    KeysDiffer();
    OnDemandIsOffered(TwoOrMore(), price);
    assert [OnDemand(price)][1..] == [];
    assert Available([OnDemand(price)]) == [OnDemand(price)];
  }

  lemma TwoTypesInOrder()
    ensures InOrder(TwoTypes(), TwoOrMore())
  {
    hide CheapestPrice, TypeAt, TwoOrMore;
    CheapestOnDemand("a", 1.0);
    CheapestOnDemand("b", 2.0);
  }

  /**
   Both options are diverse enough and cheaper than the two nodes together, so a replacement is
   worth it; only one is cheaper than the cheaper node, and the program stops.
   */
  lemma PanicExample(enabled: bool)
    ensures Priced(TwoNodes()) && TotalPrice(TwoNodes()) == 4.0
    ensures Worthwhile(TwoTypes(), TwoOrMore(), |TwoNodes()|, 4.0, AllSpot(TwoNodes()), enabled)
    ensures Decided(TwoTypes(), TwoOrMore(), TwoNodes()) == Crashing
    ensures DecidedFrom(TwoTypes(), TwoOrMore(), TwoNodes(), TwoOrMore(), Crashing)
  {
    hide TwoTypes, TwoOrMore, TwoNodes, Cheaper, Covered, Cap, TotalPrice, Priced, HasMinValues, AllSpot, InOrder,
      Saves,
      Requirement.Has, SpotOnly;
    TwoNodesCost();
    CheaperOfTwo(4.0);
    CheaperOfTwo(2.0);
    ListedTypes();
    TwoTypesSave();
    TwoTypesInOrder();
    TwoNodesAreOnDemand();
    assert TwoTypes()[..1] != [];
    assert Savers(TwoTypes(), TwoOrMore(), AllSpot(TwoNodes()), 4.0) == TwoTypes();
    assert Replacing(TwoNodes(), TwoTypes(), TwoOrMore(), TwoTypes(), TwoOrMore());
  }

  lemma TwoTypesSave()
    ensures TwoTypes() != [] && Saves(TwoTypes(), TwoOrMore(), 4.0)
  {}
}
