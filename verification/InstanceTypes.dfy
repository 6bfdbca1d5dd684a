/**
 Instance types, the offerings they can be bought as, and the order, truncation and
 flexibility ("minValues") rules that apply to a list of them.
 */
module InstanceTypes {
  import opened Common
  import opened Labels
  import opened RequirementAlgebra
  import opened RequirementSets
  import opened Resources

  /** The largest double: the price of something that cannot be bought. */
  const MAX_PRICE: real := 179769313486231570814527423731704356798070567525844996598917476803157260780028538760589558632766878171540458953514382464234321326889464182768467546703537516986049910576551282076245490090389328944075868508455133942304583236903222948165808559332123348274797826204144723168738177180919299881250404026184124858368.0

  datatype Offering = Offering(requirements: Requirements, price: real, available: bool)

  datatype InstanceType = InstanceType(
    name: string,
    requirements: Requirements,
    offerings: seq<Offering>,
    capacity: ResourceList,
    overhead: ResourceList)
  {
    function Allocatable(): ResourceList { Subtract(capacity, overhead) }
  }

  // ----- Offerings

  /** An offering meets a node's requirements; a well-known label the node leaves undefined is allowed. */
  predicate Offered(reqs: Requirements, o: Offering) { Compatible(reqs, o.requirements, WELL_KNOWN) }

  function Available(ofs: seq<Offering>): (r: seq<Offering>)
    ensures forall o :: o in r <==> o in ofs && o.available
  {
    if ofs == [] then [] else (if ofs[0].available then [ofs[0]] else []) + Available(ofs[1..])
  }

  function CompatibleOfferings(ofs: seq<Offering>, reqs: Requirements): (r: seq<Offering>)
    ensures forall o :: o in r <==> o in ofs && Offered(reqs, o)
  {
    if ofs == [] then [] else (if Offered(reqs, ofs[0]) then [ofs[0]] else []) + CompatibleOfferings(ofs[1..], reqs)
  }

  predicate HasCompatible(ofs: seq<Offering>, reqs: Requirements) {
    exists o :: o in ofs && Offered(reqs, o)
  }

  function Cheapest(ofs: seq<Offering>): (r: Offering)
    requires ofs != []
    ensures r in ofs && forall o :: o in ofs ==> r.price <= o.price
  {
    if |ofs| == 1 then ofs[0]
    else
      var best := Cheapest(ofs[..|ofs| - 1]);
      if ofs[|ofs| - 1].price < best.price then ofs[|ofs| - 1] else best
  }

  function MostExpensive(ofs: seq<Offering>): (r: Offering)
    requires ofs != []
    ensures r in ofs && forall o :: o in ofs ==> o.price <= r.price
  {
    if |ofs| == 1 then ofs[0]
    else
      var best := MostExpensive(ofs[..|ofs| - 1]);
      if ofs[|ofs| - 1].price > best.price then ofs[|ofs| - 1] else best
  }

  /** Requirements that pin the capacity type. */
  function CapacityTypeIs(value: string): Requirements { map[CAPACITY_TYPE := Exactly(CAPACITY_TYPE, value)] }

  /** The highest price a launch under `reqs` may cost: spot if spot can be launched, on-demand otherwise. */
  function WorstLaunchPrice(ofs: seq<Offering>, reqs: Requirements): real {
    var spot := CompatibleOfferings(CompatibleOfferings(ofs, reqs), CapacityTypeIs(SPOT));
    var onDemand := CompatibleOfferings(CompatibleOfferings(ofs, reqs), CapacityTypeIs(ON_DEMAND));
    if Get(reqs, CAPACITY_TYPE).Has(SPOT) && spot != [] then MostExpensive(spot).price
    else if Get(reqs, CAPACITY_TYPE).Has(ON_DEMAND) && onDemand != [] then MostExpensive(onDemand).price
    else MAX_PRICE
  }

  /** The offerings that a launch under the requirements may buy as this capacity type. */
  predicate MayBuy(ofs: seq<Offering>, reqs: Requirements, ct: string, o: Offering) {
    o in ofs && Offered(reqs, o) && Offered(CapacityTypeIs(ct), o) && Get(reqs, CAPACITY_TYPE).Has(ct)
  }

  /**
   The worst launch price is below a limit iff every spot offering that may be bought is, if
   there is one; failing that every on-demand offering, if there is one; failing that the
   largest price there is.
   */
  lemma WorstBelowIff(ofs: seq<Offering>, reqs: Requirements, limit: real)
    ensures WorstLaunchPrice(ofs, reqs) < limit <==>
      if exists o :: MayBuy(ofs, reqs, SPOT, o) then forall o :: MayBuy(ofs, reqs, SPOT, o) ==> o.price < limit
      else if exists o :: MayBuy(ofs, reqs, ON_DEMAND, o) then
        forall o :: MayBuy(ofs, reqs, ON_DEMAND, o) ==> o.price < limit
      else MAX_PRICE < limit
  {
    hide Offered, Get, CapacityTypeIs, Requirement.Has;
    var ct := Get(reqs, CAPACITY_TYPE);
    var spot := CompatibleOfferings(CompatibleOfferings(ofs, reqs), CapacityTypeIs(SPOT));
    var onDemand := CompatibleOfferings(CompatibleOfferings(ofs, reqs), CapacityTypeIs(ON_DEMAND));
    assert forall o :: MayBuy(ofs, reqs, SPOT, o) <==> ct.Has(SPOT) && o in spot;
    assert forall o :: MayBuy(ofs, reqs, ON_DEMAND, o) <==> ct.Has(ON_DEMAND) && o in onDemand;
    if spot != [] {
      assert spot[0] in spot;
    }
    if onDemand != [] {
      assert onDemand[0] in onDemand;
    }
  }

  // ----- Order by price

  function CheapestPrice(it: InstanceType, reqs: Requirements): real {
    var ofs := CompatibleOfferings(Available(it.offerings), reqs);
    if ofs == [] then MAX_PRICE else Cheapest(ofs).price
  }

  predicate PriceLeq(a: InstanceType, b: InstanceType, reqs: Requirements) {
    CheapestPrice(a, reqs) < CheapestPrice(b, reqs) ||
    (CheapestPrice(a, reqs) == CheapestPrice(b, reqs) && StringLeq(a.name, b.name))
  }

  /** `ordered` is a result of sorting `its` by price and then by name. */
  predicate OrderedByPrice(ordered: seq<InstanceType>, its: seq<InstanceType>, reqs: Requirements) {
    && multiset(ordered) == multiset(its)
    && forall i, j :: 0 <= i < j < |ordered| ==> PriceLeq(ordered[i], ordered[j], reqs)
  }

  lemma PriceLeqOrders(its: seq<InstanceType>, reqs: Requirements)
    ensures Orders((a, b) => PriceLeq(a, b, reqs), its)
  {
    hide CheapestPrice, StringLeq;
    forall a, b | a in its && b in its ensures PriceLeq(a, b, reqs) || PriceLeq(b, a, reqs) {
      StringLeqTotal(a.name, b.name);
    }
    forall a, b, c | a in its && b in its && c in its && PriceLeq(a, b, reqs) && PriceLeq(b, c, reqs)
      ensures PriceLeq(a, c, reqs) {
      if StringLeq(a.name, b.name) && StringLeq(b.name, c.name) {
        StringLeqTransitive(a.name, b.name, c.name);
      }
    }
  }

  method OrderByPrice(its: seq<InstanceType>, reqs: Requirements) returns (ordered: seq<InstanceType>)
    ensures OrderedByPrice(ordered, its, reqs)
  {
    hide PriceLeq;
    PriceLeqOrders(its, reqs);
    ordered := SortBy(its, (a, b) => PriceLeq(a, b, reqs));
  }

  /** The first `n` elements, or all of them if there are fewer. */
  function Slice<T>(s: seq<T>, n: nat): seq<T> { if n <= |s| then s[..n] else s }

  function InstanceTypesCompatible(its: seq<InstanceType>, reqs: Requirements): (r: seq<InstanceType>)
    ensures forall it :: it in r <==> it in its && HasCompatible(Available(it.offerings), reqs)
  {
    if its == [] then []
    else
      (if HasCompatible(Available(its[0].offerings), reqs) then [its[0]] else []) +
      InstanceTypesCompatible(its[1..], reqs)
  }

  // ----- Flexibility

  /** The values listed for a key across instance types; for a complement these are its excluded values. */
  function ListedValues(its: seq<InstanceType>, key: string): set<string> {
    if its == [] then {} else ListedValues(its[..|its| - 1], key) + Get(its[|its| - 1].requirements, key).values
  }

  predicate KeyCovered(its: seq<InstanceType>, reqs: Requirements, key: string)
    requires key in reqs
  {
    reqs[key].minValues.Some? ==> |ListedValues(its, key)| >= reqs[key].minValues.value
  }

  predicate Covered(its: seq<InstanceType>, reqs: Requirements) {
    forall k :: k in reqs ==> KeyCovered(its, reqs, k)
  }

  /** Each requirement is stored under its own key, and none asks for a number of values of the empty key. */
  predicate Keyed(reqs: Requirements) {
    (forall k :: k in reqs ==> reqs[k].key == k) && ("" in reqs ==> reqs[""].minValues.None?)
  }

  function FlexibleKeys(reqs: Requirements): set<string> { set k | k in reqs && reqs[k].minValues.Some? }

  type SeenValues = map<string, set<string>>

  function Seen(values: SeenValues, key: string): set<string> { if key in values then values[key] else {} }

  /** Add the values of one instance type to what has been seen for every flexible key. */
  method Accumulate(values: SeenValues, it: InstanceType, reqs: Requirements) returns (result: SeenValues)
    requires values.Keys <= FlexibleKeys(reqs)
    ensures result.Keys == FlexibleKeys(reqs)
    ensures forall k :: k in result ==> result[k] == Seen(values, k) + Get(it.requirements, k).values
  {
    hide Get;
    result := values;
    var todo := reqs.Keys;
    while todo != {}
      invariant todo <= reqs.Keys
      invariant result.Keys == values.Keys + (FlexibleKeys(reqs) - todo)
      invariant forall k :: k in result ==> AccumulatedAt(result[k], values, it, k, k in todo)
      decreases todo
    {
      var k :| k in todo;
      todo := todo - {k};
      if reqs[k].minValues.Some? {
        result := result[k := Seen(result, k) + Get(it.requirements, k).values];
      }
    }
  }

  /** What is seen for a key before and after the instance type is looked at. */
  predicate AccumulatedAt(seen: set<string>, values: SeenValues, it: InstanceType, k: string, todo: bool) {
    if todo then k in values && seen == values[k] else seen == Seen(values, k) + Get(it.requirements, k).values
  }

  /** A flexible key for which too few values have been seen, or the empty string if there is none. */
  method FindUncovered(values: SeenValues, reqs: Requirements) returns (key: string)
    requires Keyed(reqs) && values.Keys <= FlexibleKeys(reqs)
    ensures key == "" <==> forall k :: k in values ==> |values[k]| >= reqs[k].minValues.value
  {
    var todo := values.Keys;
    while todo != {}
      invariant todo <= values.Keys
      invariant forall k :: k in values && k !in todo ==> |values[k]| >= reqs[k].minValues.value
      decreases todo
    {
      var k :| k in todo;
      todo := todo - {k};
      if |values[k]| < reqs[k].minValues.value {
        return k;
      }
    }
    return "";
  }

  lemma ListedStep(its: seq<InstanceType>, i: nat, key: string)
    requires i < |its|
    ensures ListedValues(its[..i + 1], key) == ListedValues(its[..i], key) + Get(its[i].requirements, key).values
  {
    assert its[..i + 1][..i] == its[..i];
  }

  predicate Tracks(values: SeenValues, its: seq<InstanceType>, reqs: Requirements) {
    values.Keys == FlexibleKeys(reqs) && forall k :: k in values ==> values[k] == ListedValues(its, k)
  }

  lemma TracksCovered(values: SeenValues, its: seq<InstanceType>, reqs: Requirements)
    requires Tracks(values, its, reqs)
    ensures Covered(its, reqs) <==> forall k :: k in values ==> |values[k]| >= reqs[k].minValues.value
  {
    forall k | k in values ensures KeyCovered(its, reqs, k) <==> |values[k]| >= reqs[k].minValues.value {}
    assert forall k :: k in reqs && k !in values ==> KeyCovered(its, reqs, k);
  }

  lemma TracksStep(values: SeenValues, its: seq<InstanceType>, i: nat, reqs: Requirements, result: SeenValues)
    requires i < |its| && (if i == 0 then values == map[] else Tracks(values, its[..i], reqs))
    requires result.Keys == FlexibleKeys(reqs)
    requires forall k :: k in result ==> result[k] == Seen(values, k) + Get(its[i].requirements, k).values
    ensures Tracks(result, its[..i + 1], reqs)
  {
    forall k | k in result ensures result[k] == ListedValues(its[..i + 1], k) {
      ListedStep(its, i, k);
    }
  }

  /**
   Walk the list until the values seen so far cover every `minValues`; report how many
   instance types that took.  An empty list is accepted without looking.
   */
  method SatisfiesMinValues(its: seq<InstanceType>, reqs: Requirements) returns (needed: nat, ok: bool)
    requires Keyed(reqs)
    ensures !HasMinValues(reqs) || its == [] ==> needed == 0 && ok
    ensures HasMinValues(reqs) && its != [] ==> (ok <==> Covered(its, reqs))
    ensures HasMinValues(reqs) && its != [] && ok ==>
              0 < needed <= |its| && Covered(its[..needed], reqs) &&
                forall m :: 0 < m < needed ==> !Covered(its[..m], reqs)
    ensures !ok ==> needed == |its|
  {
    hide ListedValues, Covered, KeyCovered, Get, Seen, FlexibleKeys;
    if !(exists k :: k in reqs.Keys && reqs[k].minValues.Some?) {
      return 0, true;
    }
    var values: SeenValues := map[];
    var incompatibleKey := "";
    for i := 0 to |its|
      invariant if i == 0 then values == map[] else Tracks(values, its[..i], reqs)
      invariant incompatibleKey == "" <==> i == 0
      invariant forall m :: 0 < m <= i ==> !Covered(its[..m], reqs)
    {
      ghost var before := values;
      values := Accumulate(values, its[i], reqs);
      TracksStep(before, its, i, reqs, values);
      incompatibleKey := FindUncovered(values, reqs);
      TracksCovered(values, its[..i + 1], reqs);
      if incompatibleKey == "" {
        CoveredMonotone(its, i + 1, |its|, reqs);
        assert its[..|its|] == its;
        return i + 1, true;
      }
    }
    assert its[..|its|] == its;
    return |its|, incompatibleKey == "";
  }

  lemma {:induction false} ListedGrows(its: seq<InstanceType>, m: nat, n: nat, key: string)
    requires m <= n <= |its|
    ensures ListedValues(its[..m], key) <= ListedValues(its[..n], key)
    decreases n
  {
    if m < n {
      ListedGrows(its, m, n - 1, key);
      assert its[..n][..n - 1] == its[..n - 1];
    }
  }

  /** A longer prefix of a list covers whatever a shorter one covers. */
  lemma CoveredMonotone(its: seq<InstanceType>, m: nat, n: nat, reqs: Requirements)
    requires m <= n <= |its| && Covered(its[..m], reqs)
    ensures Covered(its[..n], reqs)
  {
    forall k | k in reqs ensures KeyCovered(its[..n], reqs, k) {
      assert KeyCovered(its[..m], reqs, k);
      ListedGrows(its, m, n, k);
      SubsetCardinality(ListedValues(its[..m], k), ListedValues(its[..n], k));
    }
  }

  /** Cutting a covering list to at least the number it needs leaves a covering list. */
  lemma CutStillCovers(its: seq<InstanceType>, reqs: Requirements, needed: nat, least: nat)
    requires needed <= |its| && Covered(its[..needed], reqs)
    ensures Covered(Slice(its, if least >= needed then least else needed), reqs)
  {
    var n := if least >= needed then least else needed;
    if n <= |its| {
      CoveredMonotone(its, needed, n, reqs);
    } else {
      CoveredMonotone(its, needed, |its|, reqs);
      assert its[..|its|] == its;
    }
  }

  lemma {:induction false} ListedValuesAre(its: seq<InstanceType>, key: string, v: string)
    ensures v in ListedValues(its, key) <==> exists it :: it in its && v in Get(it.requirements, key).values
  {
    hide Get;
    if its != [] {
      var n := |its| - 1;
      ListedValuesAre(its[..n], key, v);
      assert its == its[..n] + [its[n]];
    }
  }

  /** Whether options are diverse enough does not depend on their order. */
  lemma SameOptionsFlexible(xs: seq<InstanceType>, ys: seq<InstanceType>, reqs: Requirements)
    requires forall it :: it in xs <==> it in ys
    ensures Flexible(xs, reqs) == Flexible(ys, reqs)
  {
    hide ListedValues;
    assert (xs != [] ==> xs[0] in ys) && (ys != [] ==> ys[0] in xs);
    forall k ensures ListedValues(xs, k) == ListedValues(ys, k) {
      forall v ensures v in ListedValues(xs, k) <==> v in ListedValues(ys, k) {
        ListedValuesAre(xs, k, v);
        ListedValuesAre(ys, k, v);
      }
    }
    forall k | k in reqs ensures KeyCovered(xs, reqs, k) == KeyCovered(ys, reqs, k) {}
  }

  // ----- Truncation

  /** The outcome of the flexibility test, as a predicate. */
  predicate Flexible(its: seq<InstanceType>, reqs: Requirements) {
    !HasMinValues(reqs) || its == [] || Covered(its, reqs)
  }

  /** Sort by price and keep the cheapest `maxItems`, or all of them if that would break `minValues`. */
  method Truncate(its: seq<InstanceType>, reqs: Requirements, maxItems: nat) returns (kept: seq<InstanceType>, ok: bool)
    requires Keyed(reqs)
    ensures Truncated(its, reqs, maxItems, kept, ok)
  {
    hide OrderedByPrice, Covered;
    var sorted := OrderByPrice(its, reqs);
    kept := Slice(sorted, maxItems);
    ok := true;
    if exists k :: k in reqs.Keys && reqs[k].minValues.Some? {
      var needed;
      needed, ok := SatisfiesMinValues(kept, reqs);
      if !ok {
        kept := sorted;
      }
    }
    assert TruncatedFrom(sorted, reqs, maxItems, kept, ok);
  }

  ghost predicate Truncated(
    its: seq<InstanceType>, reqs: Requirements, maxItems: nat, kept: seq<InstanceType>, ok: bool) {
    exists ordered :: OrderedByPrice(ordered, its, reqs) && TruncatedFrom(ordered, reqs, maxItems, kept, ok)
  }

  predicate TruncatedFrom(
    ordered: seq<InstanceType>, reqs: Requirements, maxItems: nat, kept: seq<InstanceType>, ok: bool) {
    && (ok <==> Flexible(Slice(ordered, maxItems), reqs))
    && kept == if ok then Slice(ordered, maxItems) else ordered
  }

  /** The cut list is as long as allowed and no dearer than what is cut; a list that cannot be cut stays whole. */
  lemma TruncationKeepsCheapest(
    its: seq<InstanceType>, reqs: Requirements, maxItems: nat, kept: seq<InstanceType>, ok: bool)
    requires Truncated(its, reqs, maxItems, kept, ok)
    ensures multiset(kept) <= multiset(its) && (forall it :: it in kept ==> it in its)
    ensures ok ==> |kept| == (if maxItems <= |its| then maxItems else |its|) && Flexible(kept, reqs)
    ensures ok ==>
      forall a, b ::
        a in kept && b in multiset(its) - multiset(kept) ==> CheapestPrice(a, reqs) <= CheapestPrice(b, reqs)
    ensures !ok ==> multiset(kept) == multiset(its)
  {
    hide Flexible, OrderedByPrice, CheapestPrice;
    var ordered :| OrderedByPrice(ordered, its, reqs) && TruncatedFrom(ordered, reqs, maxItems, kept, ok);
    OrderedIsPermutation(ordered, its, reqs);
    if ok && maxItems <= |ordered| {
      CutIsCheapest(ordered, its, reqs, maxItems);
    }
  }

  lemma OrderedIsPermutation(ordered: seq<InstanceType>, its: seq<InstanceType>, reqs: Requirements)
    requires OrderedByPrice(ordered, its, reqs)
    ensures |ordered| == |its| && multiset(ordered) == multiset(its) && forall it :: it in ordered ==> it in its
  {
    assert |ordered| == |multiset(ordered)| == |multiset(its)| == |its|;
    PermutationMembers(ordered, its);
  }

  lemma CutIsCheapest(ordered: seq<InstanceType>, its: seq<InstanceType>, reqs: Requirements, n: nat)
    requires OrderedByPrice(ordered, its, reqs) && n <= |ordered|
    ensures multiset(ordered[..n]) <= multiset(its)
    ensures forall a, b ::
      a in ordered[..n] && b in multiset(its) - multiset(ordered[..n]) ==>
        CheapestPrice(a, reqs) <= CheapestPrice(b, reqs)
  {
    hide CheapestPrice, StringLeq;
    assert ordered == ordered[..n] + ordered[n..];
    assert multiset(its) == multiset(ordered[..n]) + multiset(ordered[n..]);
    forall a, b | a in ordered[..n] && b in ordered[n..] ensures CheapestPrice(a, reqs) <= CheapestPrice(b, reqs) {
      var i, j :| 0 <= i < n && ordered[i] == a && n <= j < |ordered| && ordered[j] == b;
      assert PriceLeq(ordered[i], ordered[j], reqs);
    }
  }
}
