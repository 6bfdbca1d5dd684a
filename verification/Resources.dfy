/**
 Resource lists and their arithmetic, and the requests of a pod: the most it needs
 at any moment of its start-up.  Quantities are integers in a fixed smallest unit; a
 resource that a list does not mention counts as zero.
 */
module Resources {
  import opened Common

  type ResourceList = map<string, int>

  const PODS := "pods"

  function Amount(rl: ResourceList, r: string): int { if r in rl then rl[r] else 0 }

  predicate NonNegative(rl: ResourceList) { forall r :: r in rl ==> rl[r] >= 0 }

  function Plus(a: ResourceList, b: ResourceList): ResourceList {
    map r | r in a.Keys + b.Keys :: Amount(a, r) + Amount(b, r)
  }

  function MaxOf(a: ResourceList, b: ResourceList): ResourceList {
    map r | r in a.Keys + b.Keys :: if r !in b then a[r] else if r !in a then b[r] else Max(a[r], b[r])
  }

  function Subtract(a: ResourceList, b: ResourceList): ResourceList {
    map r | r in a :: a[r] - Amount(b, r)
  }

  function Merge(ls: seq<ResourceList>): ResourceList {
    if ls == [] then map[] else Plus(Merge(ls[..|ls| - 1]), ls[|ls| - 1])
  }

  function MaxResources(ls: seq<ResourceList>): ResourceList {
    if ls == [] then map[] else MaxOf(MaxResources(ls[..|ls| - 1]), ls[|ls| - 1])
  }

  /** A list fits nowhere if the total is already overdrawn in any resource. */
  predicate Fits(candidate: ResourceList, total: ResourceList) {
    && NonNegative(total)
    && forall r :: r in candidate ==> candidate[r] <= Amount(total, r)
  }

  /** A list fits iff nothing is overdrawn and every resource, mentioned or not, is covered; it always fits itself. */
  lemma FitsIff(candidate: ResourceList, total: ResourceList)
    ensures Fits(candidate, total) <==>
            (forall r :: Amount(total, r) >= 0) && forall r :: Amount(candidate, r) <= Amount(total, r)
    ensures NonNegative(total) ==> Fits(total, total)
  {
    if (forall r :: Amount(total, r) >= 0) && forall r :: Amount(candidate, r) <= Amount(total, r) {
      forall r | r in total ensures total[r] >= 0 { assert Amount(total, r) >= 0; }
      forall r | r in candidate ensures candidate[r] <= Amount(total, r) {
        assert Amount(candidate, r) <= Amount(total, r);
      }
    }
  }

  lemma PlusAssociative(a: ResourceList, b: ResourceList, c: ResourceList)
    ensures Plus(Plus(a, b), c) == Plus(a, Plus(b, c))
  {
    hide Amount;
    var left, right := Plus(Plus(a, b), c), Plus(a, Plus(b, c));
    assert left.Keys == right.Keys;
    forall r | r in left ensures left[r] == right[r] {
      PlusAmount(a, b, r);
      PlusAmount(b, c, r);
    }
  }

  lemma PlusAmount(a: ResourceList, b: ResourceList, r: string)
    ensures Amount(Plus(a, b), r) == Amount(a, r) + Amount(b, r)
  {}

  lemma PlusCommutative(a: ResourceList, b: ResourceList)
    ensures Plus(a, b) == Plus(b, a)
  {}

  /** Sum `src` into `dest`, one resource at a time in any order. */
  method MergeInto(dest: ResourceList, src: ResourceList) returns (result: ResourceList)
    ensures result == Plus(dest, src)
  {
    result := dest;
    var todo := src.Keys;
    while todo != {}
      invariant todo <= src.Keys
      invariant result == Plus(dest, src - todo)
      decreases todo
    {
      var r :| r in todo;
      result := result[r := Amount(result, r) + src[r]];
      todo := todo - {r};
    }
    assert src - todo == src;
  }

  lemma {:induction false} MergeAppend(xs: seq<ResourceList>, ys: seq<ResourceList>)
    ensures Merge(xs + ys) == Plus(Merge(xs), Merge(ys))
  {
    if ys == [] {
      assert xs + ys == xs;
      assert Plus(Merge(xs), map[]) == Merge(xs);
    } else {
      var n := |ys| - 1;
      assert (xs + ys)[..|xs + ys| - 1] == xs + ys[..n];
      MergeAppend(xs, ys[..n]);
      PlusAssociative(Merge(xs), Merge(ys[..n]), ys[n]);
    }
  }

  /** The largest amount over a nonempty list is reached by a member and bounds every member that mentions it. */
  lemma {:induction false} MaxResourcesBounds(ls: seq<ResourceList>, r: string)
    ensures forall i :: 0 <= i < |ls| && r in ls[i] ==> r in MaxResources(ls) && ls[i][r] <= MaxResources(ls)[r]
    ensures r in MaxResources(ls) ==> exists i :: 0 <= i < |ls| && r in ls[i] && ls[i][r] == MaxResources(ls)[r]
  {
    if ls != [] {
      var n := |ls| - 1;
      MaxResourcesBounds(ls[..n], r);
      assert forall i :: 0 <= i < n ==> ls[..n][i] == ls[i];
    }
  }

  // ----- Pod requests

  datatype Container = Container(requests: ResourceList, limits: ResourceList, restartAlways: bool)
  {
    /** A limit stands in for a missing request. */
    function Effective(): ResourceList {
      map r | r in requests.Keys + limits.Keys :: if r in requests then requests[r] else limits[r]
    }

    predicate Valid() { NonNegative(requests) && NonNegative(limits) }
  }

  datatype PodResources = PodResources(containers: seq<Container>, inits: seq<Container>,
    overhead: Option<ResourceList>)
  {
    predicate Valid() {
      && (forall c :: c in containers ==> c.Valid())
      && (forall c :: c in inits ==> c.Valid())
    }
  }

  /** All containers together. */
  function Together(cs: seq<Container>): ResourceList {
    if cs == [] then map[] else Plus(Together(cs[..|cs| - 1]), cs[|cs| - 1].Effective())
  }

  /** The init containers that keep running, together. */
  function Sidecars(inits: seq<Container>): ResourceList {
    if inits == [] then map[]
    else
      var before, last := Sidecars(inits[..|inits| - 1]), inits[|inits| - 1];
      if last.restartAlways then Plus(before, last.Effective()) else before
  }

  function InitPeak(inits: seq<Container>): ResourceList {
    if inits == [] then map[]
    else
      var n := |inits| - 1;
      MaxOf(InitPeak(inits[..n]), Plus(Sidecars(inits[..n]), inits[n].Effective()))
  }

  function PodRequests(p: PodResources): ResourceList {
    var peak := MaxOf(Plus(Together(p.containers), Sidecars(p.inits)), InitPeak(p.inits));
    if p.overhead.Some? then Plus(peak, p.overhead.value) else peak
  }

  method ComputePodRequests(p: PodResources) returns (requests: ResourceList)
    ensures requests == PodRequests(p)
  {
    requests := SumContainers(p.containers);
    var maxInit;
    requests, maxInit := AddInitContainers(requests, p.inits);
    requests := MaxOf(requests, maxInit);
    if p.overhead.Some? {
      requests := MergeInto(requests, p.overhead.value);
    }
  }

  method SumContainers(cs: seq<Container>) returns (requests: ResourceList)
    ensures requests == Together(cs)
  {
    hide Plus;
    requests := map[];
    for i := 0 to |cs|
      invariant requests == Together(cs[..i])
    {
      assert cs[..i + 1][..i] == cs[..i];
      requests := MergeInto(requests, cs[i].Effective());
    }
    assert cs[..|cs|] == cs;
  }

  /** Restartable init containers keep running; the others run alone beside those started before them. */
  method AddInitContainers(running: ResourceList, inits: seq<Container>)
    returns (requests: ResourceList, maxInit: ResourceList)
    ensures requests == Plus(running, Sidecars(inits)) && maxInit == InitPeak(inits)
  {
    hide Plus, MaxOf;
    requests, maxInit := running, map[];
    var restartable: ResourceList := map[];
    PlusNothing(running);
    for i := 0 to |inits|
      invariant requests == Plus(running, Sidecars(inits[..i]))
      invariant restartable == Sidecars(inits[..i])
      invariant maxInit == InitPeak(inits[..i])
    {
      assert inits[..i + 1][..i] == inits[..i];
      var c := inits[i].Effective();
      if inits[i].restartAlways {
        PlusAssociative(running, restartable, c);
        requests := MergeInto(requests, c);
        restartable := MergeInto(restartable, c);
        maxInit := MaxOf(maxInit, restartable);
      } else {
        PlusCommutative(c, restartable);
        maxInit := MaxOf(maxInit, Plus(c, restartable));
      }
    }
    assert inits[..|inits|] == inits;
  }

  lemma PlusNothing(a: ResourceList)
    ensures Plus(a, map[]) == a
  {}

  // ----- What the loop computes, resource by resource

  function SidecarAmount(inits: seq<Container>, r: string): int {
    if inits == [] then 0
    else SidecarAmount(inits[..|inits| - 1], r) +
         (if inits[|inits| - 1].restartAlways then Amount(inits[|inits| - 1].Effective(), r) else 0)
  }

  function TotalAmount(cs: seq<Container>, r: string): int {
    if cs == [] then 0 else TotalAmount(cs[..|cs| - 1], r) + Amount(cs[|cs| - 1].Effective(), r)
  }

  /**
   The demand for one resource during start-up phase `i`: while init container `i` runs,
   it and the sidecars started before it; in the last phase, every container and sidecar.
   */
  function PhaseDemand(p: PodResources, i: nat, r: string): int
    requires i <= |p.inits|
  {
    if i < |p.inits| then SidecarAmount(p.inits[..i], r) + Amount(p.inits[i].Effective(), r)
    else SidecarAmount(p.inits, r) + TotalAmount(p.containers, r)
  }

  lemma {:induction false} TogetherAmount(cs: seq<Container>, r: string)
    ensures Amount(Together(cs), r) == TotalAmount(cs, r)
  {
    if cs != [] { TogetherAmount(cs[..|cs| - 1], r); }
  }

  lemma {:induction false} SidecarsAmount(inits: seq<Container>, r: string)
    ensures Amount(Sidecars(inits), r) == SidecarAmount(inits, r)
  {
    if inits != [] { SidecarsAmount(inits[..|inits| - 1], r); }
  }

  lemma {:induction false} AmountsNonNegative(cs: seq<Container>)
    requires forall c :: c in cs ==> c.Valid()
    ensures NonNegative(Together(cs)) && NonNegative(Sidecars(cs)) && NonNegative(InitPeak(cs))
  {
    hide Plus, MaxOf, NonNegative, Container.Valid, Container.Effective;
    if cs == [] {
      NothingNonNegative();
    } else {
      var n, c := |cs| - 1, cs[|cs| - 1];
      AmountsNonNegative(cs[..n]);
      EffectiveNonNegative(c);
      SumNonNegative(Together(cs[..n]), c.Effective());
      SumNonNegative(Sidecars(cs[..n]), c.Effective());
      SumNonNegative(InitPeak(cs[..n]), Plus(Sidecars(cs[..n]), c.Effective()));
    }
  }

  lemma NothingNonNegative()
    ensures NonNegative(map[])
  {}

  lemma EffectiveNonNegative(c: Container)
    requires c.Valid()
    ensures NonNegative(c.Effective())
  {}

  lemma SumNonNegative(a: ResourceList, b: ResourceList)
    requires NonNegative(a) && NonNegative(b)
    ensures NonNegative(Plus(a, b)) && NonNegative(MaxOf(a, b))
  {}

  lemma {:induction false} InitPeakBounds(p: PodResources, n: nat, r: string)
    requires p.Valid() && n <= |p.inits|
    ensures forall i :: 0 <= i < n ==> PhaseDemand(p, i, r) <= Amount(InitPeak(p.inits[..n]), r)
    ensures Amount(InitPeak(p.inits[..n]), r) == 0 ||
      exists i :: 0 <= i < n && PhaseDemand(p, i, r) == Amount(InitPeak(p.inits[..n]), r)
  {
    hide Amount, Plus, MaxOf, NonNegative, Sidecars, SidecarAmount, Container.Effective;
    if n == 0 {
      NoAmount(r);
    } else {
      InitPeakBounds(p, n - 1, r);
      PeakStep(p, n - 1, r);
    }
  }

  lemma NoAmount(r: string)
    ensures Amount(map[], r) == 0
  {}

  /** One more init container raises the peak to its own phase, if that is higher. */
  lemma PeakStep(p: PodResources, i: nat, r: string)
    requires p.Valid() && i < |p.inits|
    ensures Amount(InitPeak(p.inits[..i + 1]), r) == Max(Amount(InitPeak(p.inits[..i]), r), PhaseDemand(p, i, r))
  {
    hide Sidecars, SidecarAmount, Plus, Container.Effective, Container.Valid;
    var before, c := p.inits[..i], p.inits[i];
    assert p.inits[..i + 1][..i] == before && p.inits[..i + 1][i] == c && c in p.inits;
    SidecarsAmount(before, r);
    AmountsNonNegative(before);
    EffectiveNonNegative(c);
    SumNonNegative(Sidecars(before), c.Effective());
    PlusAmount(Sidecars(before), c.Effective(), r);
    MaxAmount(InitPeak(before), Plus(Sidecars(before), c.Effective()), r);
  }

  lemma MaxAmount(a: ResourceList, b: ResourceList, r: string)
    requires NonNegative(a) && NonNegative(b)
    ensures Amount(MaxOf(a, b), r) == Max(Amount(a, r), Amount(b, r))
  {}

  /** The request for every resource is the peak demand over all start-up phases, plus the overhead. */
  lemma RequestsArePeakDemand(p: PodResources, r: string)
    requires p.Valid()
    ensures
      var peak := Amount(PodRequests(p), r) - (if p.overhead.Some? then Amount(p.overhead.value, r) else 0);
      && (forall i :: 0 <= i <= |p.inits| ==> PhaseDemand(p, i, r) <= peak)
      && (exists i :: 0 <= i <= |p.inits| && PhaseDemand(p, i, r) == peak)
  {
    hide Amount, Plus, MaxOf, Together, Sidecars, InitPeak, SidecarAmount, TotalAmount, NonNegative, Container.Valid;
    var n := |p.inits|;
    InitPeakBounds(p, n, r);
    assert p.inits[..n] == p.inits;
    TogetherAmount(p.containers, r);
    SidecarsAmount(p.inits, r);
    AmountsNonNegative(p.containers);
    AmountsNonNegative(p.inits);
    var last := Plus(Together(p.containers), Sidecars(p.inits));
    PlusAmount(Together(p.containers), Sidecars(p.inits), r);
    SumNonNegative(Together(p.containers), Sidecars(p.inits));
    MaxAmount(last, InitPeak(p.inits), r);
    AmountNonNegative(last, r);
    if p.overhead.Some? {
      PlusAmount(MaxOf(last, InitPeak(p.inits)), p.overhead.value, r);
    }
    assert PhaseDemand(p, n, r) == Amount(last, r) >= 0;
  }

  lemma AmountNonNegative(a: ResourceList, r: string)
    requires NonNegative(a)
    ensures Amount(a, r) >= 0
  {}

  // ----- Requests of several pods

  function AllRequests(ps: seq<PodResources>): seq<ResourceList> {
    seq(|ps|, i requires 0 <= i < |ps| => PodRequests(ps[i]))
  }

  function RequestsForPods(ps: seq<PodResources>): ResourceList {
    Merge(AllRequests(ps))[PODS := |ps|]
  }

  lemma MergeTwo(a: ResourceList, b: ResourceList)
    ensures Merge([a, b]) == Plus(a, b)
  {
    assert [a, b][..1] == [a] && [a][..0] == [];
    assert Merge([a]) == Plus(map[], a) == a;
  }

  lemma PlusCounts(a: ResourceList, b: ResourceList, m: int, n: int)
    ensures Plus(a[PODS := m], b[PODS := n]) == Plus(a, b)[PODS := m + n]
  {}

  /** The requests of two groups of pods together are the sum of the groups' requests. */
  lemma RequestsOfConcatenation(xs: seq<PodResources>, ys: seq<PodResources>)
    ensures RequestsForPods(xs + ys) == Merge([RequestsForPods(xs), RequestsForPods(ys)])
  {
    hide PodRequests;
    assert AllRequests(xs + ys) == AllRequests(xs) + AllRequests(ys);
    MergeAppend(AllRequests(xs), AllRequests(ys));
    MergeTwo(RequestsForPods(xs), RequestsForPods(ys));
    PlusCounts(Merge(AllRequests(xs)), Merge(AllRequests(ys)), |xs|, |ys|);
  }
}
