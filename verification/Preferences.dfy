/**
 Relaxing a pod that failed to schedule: one soft constraint is dropped per call, in a
 fixed order of kinds, until nothing soft is left.
 */
module PreferenceRelaxation {
  import opened Common
  import opened HostPorts
  import opened Resources
  import opened Volumes
  import opened Pods

  /** The pod object whose spec relaxation edits. */
  class LivePod {
    const uid: UID
    const key: PodKey
    const labels: map<string, string>
    const resources: PodResources
    const ports: seq<HostPort>
    const volumes: Option<VolumeSet>
    var spec: PodSpec

    constructor (pod: Pod)
      ensures Value() == pod
    {
      uid, key, labels, spec, resources, ports, volumes :=
        pod.uid, pod.key, pod.labels, pod.spec, pod.resources, pod.ports, pod.volumes;
    }

    /** The pod as it is now. */
    function Value(): Pod reads this { Pod(uid, key, labels, spec, resources, ports, volumes) }
  }

  const PREFER_NO_SCHEDULE := Toleration("", ExistsOp, "", "PreferNoSchedule")

  // ----- The relaxations as functions of the spec

  predicate CanDropRequired(spec: PodSpec) { spec.required.Some? && |spec.required.value| > 1 }

  function DropRequired(spec: PodSpec): PodSpec
    requires CanDropRequired(spec)
  {
    spec.(required := Some(spec.required.value[1..]))
  }

  function DropHeaviest<T>(terms: seq<Weighted<T>>): (r: seq<Weighted<T>>)
    requires terms != []
    ensures |r| == |terms| - 1
  {
    SortByWeightSorts(terms);
    SortByWeight(terms)[1..]
  }

  function CountAnyway(spread: seq<SpreadConstraint>): nat {
    if spread == [] then 0 else (if spread[0].scheduleAnyway then 1 else 0) + CountAnyway(spread[1..])
  }

  /** The position of the first soft spread constraint, or the length if there is none. */
  function FirstAnyway(spread: seq<SpreadConstraint>): (i: nat)
    ensures i <= |spread| && (forall j :: 0 <= j < i ==> !spread[j].scheduleAnyway)
    ensures i < |spread| ==> spread[i].scheduleAnyway
  {
    if spread == [] || spread[0].scheduleAnyway then 0 else 1 + FirstAnyway(spread[1..])
  }

  /** The last constraint takes the place of the dropped one. */
  function DropAnyway(spread: seq<SpreadConstraint>): seq<SpreadConstraint>
    requires FirstAnyway(spread) < |spread|
  {
    spread[FirstAnyway(spread) := spread[|spread| - 1]][..|spread| - 1]
  }

  predicate CanTolerate(spec: PodSpec, toleratePreferNoSchedule: bool) {
    toleratePreferNoSchedule && PREFER_NO_SCHEDULE !in spec.tolerations
  }

  function Relaxed(spec: PodSpec, toleratePreferNoSchedule: bool): Option<PodSpec> {
    if CanDropRequired(spec) then Some(DropRequired(spec))
    else if spec.preferredPodAffinity != [] then
      Some(spec.(preferredPodAffinity := DropHeaviest(spec.preferredPodAffinity)))
    else if spec.preferredPodAntiAffinity != [] then
      Some(spec.(preferredPodAntiAffinity := DropHeaviest(spec.preferredPodAntiAffinity)))
    else if spec.preferred != [] then Some(spec.(preferred := DropHeaviest(spec.preferred)))
    else if FirstAnyway(spec.spread) < |spec.spread| then Some(spec.(spread := DropAnyway(spec.spread)))
    else if CanTolerate(spec, toleratePreferNoSchedule) then
      Some(spec.(tolerations := spec.tolerations + [PREFER_NO_SCHEDULE]))
    else None
  }

  // ----- The relaxations as edits in place

  class Preferences {
    const toleratePreferNoSchedule: bool

    constructor (toleratePreferNoSchedule: bool)
      ensures this.toleratePreferNoSchedule == toleratePreferNoSchedule
    {
      this.toleratePreferNoSchedule := toleratePreferNoSchedule;
    }

    method Relax(pod: LivePod) returns (relaxed: bool)
      modifies pod
      ensures relaxed <==> Relaxed(old(pod.spec), toleratePreferNoSchedule).Some?
      ensures pod.spec == if relaxed then Relaxed(old(pod.spec), toleratePreferNoSchedule).value else old(pod.spec)
    {
      var spec := pod.spec;
      if spec.required.Some? && |spec.required.value| > 1 {
        pod.spec := spec.(required := Some(spec.required.value[1..]));
        return true;
      }
      if spec.preferredPodAffinity != [] {
        pod.spec := spec.(preferredPodAffinity := DropHeaviest(spec.preferredPodAffinity));
        return true;
      }
      if spec.preferredPodAntiAffinity != [] {
        pod.spec := spec.(preferredPodAntiAffinity := DropHeaviest(spec.preferredPodAntiAffinity));
        return true;
      }
      if spec.preferred != [] {
        pod.spec := spec.(preferred := DropHeaviest(spec.preferred));
        return true;
      }
      relaxed := RemoveScheduleAnyway(pod);
      if !relaxed && toleratePreferNoSchedule && PREFER_NO_SCHEDULE !in spec.tolerations {
        pod.spec := spec.(tolerations := spec.tolerations + [PREFER_NO_SCHEDULE]);
        return true;
      }
    }

    method RemoveScheduleAnyway(pod: LivePod) returns (relaxed: bool)
      modifies pod
      ensures relaxed <==> FirstAnyway(old(pod.spec.spread)) < |old(pod.spec.spread)|
      ensures pod.spec == if relaxed then old(pod.spec).(spread := DropAnyway(old(pod.spec.spread))) else old(pod.spec)
    {
      var spread := pod.spec.spread;
      for i := 0 to |spread|
        invariant pod.spec == old(pod.spec)
        invariant forall j :: 0 <= j < i ==> !spread[j].scheduleAnyway
      {
        if spread[i].scheduleAnyway {
          spread := spread[i := spread[|spread| - 1]];
          pod.spec := pod.spec.(spread := spread[..|spread| - 1]);
          return true;
        }
      }
      relaxed := false;
    }
  }

  // ----- How many relaxations a pod has left

  function Potential(spec: PodSpec, toleratePreferNoSchedule: bool): nat {
    (if CanDropRequired(spec) then |spec.required.value| - 1 else 0) +
    |spec.preferredPodAffinity| + |spec.preferredPodAntiAffinity| + |spec.preferred| + CountAnyway(spec.spread) +
    (if CanTolerate(spec, toleratePreferNoSchedule) then 1 else 0)
  }

  lemma {:induction false} CountAnywayMultiset(spread: seq<SpreadConstraint>, i: nat)
    requires i < |spread|
    ensures CountAnyway(spread) == CountAnyway(Without(spread, i)) + (if spread[i].scheduleAnyway then 1 else 0)
  {
    if i > 0 {
      CountAnywayMultiset(spread[1..], i - 1);
      assert Without(spread, i)[1..] == Without(spread[1..], i - 1);
    } else {
      assert Without(spread, 0) == spread[1..];
    }
  }

  lemma SwapRemoveCount(spread: seq<SpreadConstraint>, i: nat)
    requires i < |spread| - 1
    ensures CountAnyway(spread) ==
            CountAnyway(spread[i := spread[|spread| - 1]][..|spread| - 1]) + (if spread[i].scheduleAnyway then 1 else 0)
  {
    hide CountAnyway, Without;
    var n := |spread| - 1;
    var dropped := spread[i := spread[n]][..n];
    CountAnywayMultiset(spread, i);
    CountAnywayMultiset(Without(spread, i), n - 1) by { WithoutLast(spread, i); }
    CountAnywayMultiset(dropped, i);
    SwapRemove(spread, i);
    WithoutLast(spread, i);
  }

  lemma WithoutLast(spread: seq<SpreadConstraint>, i: nat)
    requires i < |spread| - 1
    ensures |Without(spread, i)| == |spread| - 1 && Without(spread, i)[|spread| - 2] == spread[|spread| - 1]
  {}

  lemma DropAnywayCount(spread: seq<SpreadConstraint>)
    requires FirstAnyway(spread) < |spread|
    ensures CountAnyway(DropAnyway(spread)) == CountAnyway(spread) - 1
  {
    hide CountAnyway;
    var i, n := FirstAnyway(spread), |spread| - 1;
    if i < n {
      SwapRemoveCount(spread, i);
    } else {
      CountAnywayMultiset(spread, i);
      assert DropAnyway(spread) == spread[..n] == Without(spread, i);
    }
  }

  lemma {:induction false} CountAnywayZero(spread: seq<SpreadConstraint>)
    ensures CountAnyway(spread) == 0 <==> FirstAnyway(spread) == |spread|
  {
    if spread != [] && !spread[0].scheduleAnyway { CountAnywayZero(spread[1..]); }
  }

  /** A relaxation uses up exactly one unit of potential, and one is possible as long as any is left. */
  lemma RelaxedDropsPotential(spec: PodSpec, tolerate: bool)
    ensures Relaxed(spec, tolerate).Some? ==>
      Potential(Relaxed(spec, tolerate).value, tolerate) == Potential(spec, tolerate) - 1
    ensures Relaxed(spec, tolerate).None? <==> Potential(spec, tolerate) == 0
  {
    CountAnywayZero(spec.spread);
    if FirstAnyway(spec.spread) < |spec.spread| {
      DropAnywayCount(spec.spread);
    }
    if CanTolerate(spec, tolerate) {
      assert PREFER_NO_SCHEDULE in spec.tolerations + [PREFER_NO_SCHEDULE];
    }
  }

  /** The relaxed spec still has everything the pod insists on, and nothing it did not have but one toleration. */
  ghost predicate KeepsHardTerms(spec: PodSpec, r: PodSpec) {
    && r.podAffinity == spec.podAffinity && r.podAntiAffinity == spec.podAntiAffinity &&
      r.nodeSelector == spec.nodeSelector
    && (r.required.Some? <==> spec.required.Some?) && (!CanDropRequired(spec) ==> r.required == spec.required)
    && (spec.required.Some? && spec.required.value != [] ==> r.required.value != [])
    && (forall t :: r.required.Some? && t in r.required.value ==> spec.required.Some? && t in spec.required.value)
    && (forall t :: t in r.preferredPodAffinity ==> t in spec.preferredPodAffinity)
    && (forall t :: t in r.preferredPodAntiAffinity ==> t in spec.preferredPodAntiAffinity)
    && (forall c :: c in r.spread ==> c in spec.spread)
    && (forall c :: c in spec.spread && !c.scheduleAnyway ==> c in r.spread)
    && (forall t :: t in spec.tolerations ==> t in r.tolerations)
    && (forall t :: t in r.tolerations ==> t in spec.tolerations || t == PREFER_NO_SCHEDULE)
  }

  lemma HeaviestMembers<T>(terms: seq<Weighted<T>>)
    requires terms != []
    ensures forall t :: t in DropHeaviest(terms) ==> t in terms
  {
    SortByWeightSorts(terms);
    var sorted := SortByWeight(terms);
    PermutationMembers(sorted, terms);
    forall t | t in DropHeaviest(terms) ensures t in terms {
      var i :| 0 <= i < |sorted| - 1 && sorted[1..][i] == t;
      assert sorted[i + 1] == t;
      assert t in multiset(sorted);
    }
  }

  lemma DropAnywayKeepsHard(spread: seq<SpreadConstraint>)
    requires FirstAnyway(spread) < |spread|
    ensures forall c :: c in DropAnyway(spread) ==> c in spread
    ensures forall c :: c in spread && !c.scheduleAnyway ==> c in DropAnyway(spread)
  {
    var i, n := FirstAnyway(spread), |spread| - 1;
    forall c | c in spread && !c.scheduleAnyway ensures c in DropAnyway(spread) {
      var j :| 0 <= j < |spread| && spread[j] == c;
      assert DropAnyway(spread)[if j == n then i else j] == c;
    }
  }

  /** Relaxation never touches what the pod insists on about other pods, nor its node selector. */
  lemma RelaxedKeepsHardTerms(spec: PodSpec, tolerate: bool)
    requires Relaxed(spec, tolerate).Some? && spec.Valid()
    ensures var r := Relaxed(spec, tolerate).value; r.Valid() && KeepsHardTerms(spec, r)
  {
    if spec.preferredPodAffinity != [] {
      HeaviestMembers(spec.preferredPodAffinity);
    }
    if spec.preferredPodAntiAffinity != [] {
      HeaviestMembers(spec.preferredPodAntiAffinity);
    }
    if spec.preferred != [] {
      HeaviestMembers(spec.preferred);
      forall i | 0 <= i < |DropHeaviest(spec.preferred)| ensures PlainTerm(DropHeaviest(spec.preferred)[i].term) {
        assert DropHeaviest(spec.preferred)[i] in spec.preferred;
      }
    }
    if FirstAnyway(spec.spread) < |spec.spread| {
      DropAnywayKeepsHard(spec.spread);
    }
  }

  // ----- The order in which preferences are given up

  /** The kinds of soft constraints, first given up first. */
  datatype Stage = OtherTerms | NearPods | AwayFromPods | NodePreference | SoftSpread | SoftTaints
  {
    function Rank(): nat {
      match this
      case OtherTerms => 0
      case NearPods => 1
      case AwayFromPods => 2
      case NodePreference => 3
      case SoftSpread => 4
      case SoftTaints => 5
    }
  }

  /** How much of the kind the pod can still give up. */
  function Left(spec: PodSpec, stage: Stage, tolerate: bool): nat {
    match stage
    case OtherTerms => if spec.required.Some? && spec.required.value != [] then |spec.required.value| - 1 else 0
    case NearPods => |spec.preferredPodAffinity|
    case AwayFromPods => |spec.preferredPodAntiAffinity|
    case NodePreference => |spec.preferred|
    case SoftSpread => CountAnyway(spec.spread)
    case SoftTaints =>
      if tolerate && Toleration("", ExistsOp, "", "PreferNoSchedule") !in spec.tolerations then 1 else 0
  }

  /** `less` is the one list without one of its heaviest terms. */
  ghost predicate LosesHeaviest<T(!new)>(terms: seq<Weighted<T>>, less: seq<Weighted<T>>) {
    exists t :: multiset(terms) == multiset(less) + multiset{t} && forall u :: u in terms ==> u.weight <= t.weight
  }

  /** `less` is the one list without the first of its soft constraints. */
  ghost predicate LosesSoft(spread: seq<SpreadConstraint>, less: seq<SpreadConstraint>) {
    exists i ::
      && 0 <= i < |spread| && spread[i].scheduleAnyway && (forall j :: 0 <= j < i ==> !spread[j].scheduleAnyway)
      && multiset(spread) == multiset(less) + multiset{spread[i]}
  }

  /** Something of the kind is given up: the first required term, a heaviest preference, or a soft constraint. */
  ghost predicate GivesUp(spec: PodSpec, r: PodSpec, stage: Stage) {
    match stage
    case OtherTerms =>
      spec.required.Some? && spec.required.value != [] && r == spec.(required := Some(spec.required.value[1..]))
    case NearPods =>
      LosesHeaviest(spec.preferredPodAffinity, r.preferredPodAffinity) &&
        r == spec.(preferredPodAffinity := r.preferredPodAffinity)
    case AwayFromPods =>
      LosesHeaviest(spec.preferredPodAntiAffinity, r.preferredPodAntiAffinity) &&
        r == spec.(preferredPodAntiAffinity := r.preferredPodAntiAffinity)
    case NodePreference => LosesHeaviest(spec.preferred, r.preferred) && r == spec.(preferred := r.preferred)
    case SoftSpread => LosesSoft(spec.spread, r.spread) && r == spec.(spread := r.spread)
    case SoftTaints =>
      r == spec.(tolerations := spec.tolerations + [Toleration("", ExistsOp, "", "PreferNoSchedule")])
  }

  lemma DropsHeaviest<T(!new)>(terms: seq<Weighted<T>>)
    requires terms != []
    ensures LosesHeaviest(terms, DropHeaviest(terms))
  {
    var sorted := SortByWeight(terms);
    SortByWeightSorts(terms);
    PermutationMembers(sorted, terms);
    assert sorted == [sorted[0]] + sorted[1..];
    assert multiset(terms) == multiset(DropHeaviest(terms)) + multiset{sorted[0]};
    forall u | u in terms ensures u.weight <= sorted[0].weight {
      assert u in sorted;
      var i :| 0 <= i < |sorted| && sorted[i] == u;
    }
  }

  lemma SwapRemoveMultiset<T>(s: seq<T>, i: nat)
    requires i < |s|
    ensures multiset(s) == multiset(s[i := s[|s| - 1]][..|s| - 1]) + multiset{s[i]}
  {
    var n := |s| - 1;
    if i < n {
      assert s == (s[..i] + [s[i]]) + (s[i + 1..n] + [s[n]]);
      assert s[i := s[n]][..n] == (s[..i] + [s[n]]) + s[i + 1..n];
    } else {
      assert s == s[..n] + [s[n]] && s[i := s[n]][..n] == s[..n];
    }
  }

  lemma DropsSoft(spread: seq<SpreadConstraint>)
    requires FirstAnyway(spread) < |spread|
    ensures LosesSoft(spread, DropAnyway(spread))
  {
    hide FirstAnyway;
    SwapRemoveMultiset(spread, FirstAnyway(spread));
  }

  /**
   A pod gives up one thing at a time, of the first kind that it still has any of: its
   required terms but the last, first to last, then its preferred pod affinities, pod
   anti-affinities and node terms, heaviest first, then its soft spread constraints, and at
   last its dislike of soft taints.  It cannot be relaxed exactly if it has none of them left.
   */
  lemma RelaxesInOrder(spec: PodSpec, tolerate: bool, stage: Stage)
    requires Left(spec, stage, tolerate) > 0
    requires forall s: Stage :: s.Rank() < stage.Rank() ==> Left(spec, s, tolerate) == 0
    ensures Relaxed(spec, tolerate).Some? && GivesUp(spec, Relaxed(spec, tolerate).value, stage)
  {
    hide CountAnyway, FirstAnyway, DropHeaviest, DropAnyway, LosesHeaviest, LosesSoft;
    assert stage.Rank() > 0 ==> Left(spec, OtherTerms, tolerate) == 0;
    assert stage.Rank() > 1 ==> Left(spec, NearPods, tolerate) == 0;
    assert stage.Rank() > 2 ==> Left(spec, AwayFromPods, tolerate) == 0;
    assert stage.Rank() > 3 ==> Left(spec, NodePreference, tolerate) == 0;
    assert stage.Rank() > 4 ==> Left(spec, SoftSpread, tolerate) == 0;
    CountAnywayZero(spec.spread);
    match stage {
      case OtherTerms =>
      case NearPods => DropsHeaviest(spec.preferredPodAffinity);
      case AwayFromPods => DropsHeaviest(spec.preferredPodAntiAffinity);
      case NodePreference => DropsHeaviest(spec.preferred);
      case SoftSpread => DropsSoft(spec.spread);
      case SoftTaints =>
    }
  }

  lemma NotRelaxedIff(spec: PodSpec, tolerate: bool)
    ensures Relaxed(spec, tolerate).None? <==> forall s: Stage :: Left(spec, s, tolerate) == 0
  {
    hide CountAnyway, FirstAnyway;
    CountAnywayZero(spec.spread);
    if forall s: Stage :: Left(spec, s, tolerate) == 0 {
      assert Left(spec, OtherTerms, tolerate) == 0 && Left(spec, NearPods, tolerate) == 0 &&
        Left(spec, AwayFromPods, tolerate) == 0 && Left(spec, NodePreference, tolerate) == 0 &&
        Left(spec, SoftSpread, tolerate) == 0 && Left(spec, SoftTaints, tolerate) == 0;
    }
  }

  // ----- Relaxing again and again

  /** Relaxing the one spec some number of times leads to the other. */
  predicate Reaches(spec: PodSpec, r: PodSpec, tolerate: bool)
    decreases Potential(spec, tolerate)
  {
    || spec == r
    || match Relaxed(spec, tolerate)
       case None => false
       case Some(next) =>
         RelaxedDropsPotential(spec, tolerate);
         Reaches(next, r, tolerate)
  }

  lemma {:induction false} ReachesNext(spec: PodSpec, r: PodSpec, tolerate: bool)
    requires Reaches(spec, r, tolerate) && Relaxed(r, tolerate).Some?
    ensures Reaches(spec, Relaxed(r, tolerate).value, tolerate)
    decreases Potential(spec, tolerate)
  {
    hide Relaxed, Potential;
    if spec != r {
      RelaxedDropsPotential(spec, tolerate);
      ReachesNext(Relaxed(spec, tolerate).value, r, tolerate);
    }
  }

  /** However often a pod is relaxed, it keeps what it insists on. */
  lemma {:induction false} ReachedKeepsHardTerms(spec: PodSpec, r: PodSpec, tolerate: bool)
    requires Reaches(spec, r, tolerate) && spec.Valid()
    ensures r.Valid() && KeepsHardTerms(spec, r)
    decreases Potential(spec, tolerate)
  {
    hide Relaxed, Potential, PodSpec.Valid;
    if spec != r {
      var next := Relaxed(spec, tolerate).value;
      RelaxedDropsPotential(spec, tolerate);
      RelaxedKeepsHardTerms(spec, tolerate);
      ReachedKeepsHardTerms(next, r, tolerate);
    }
  }

  /** The pod is one of the given ones, relaxed some number of times. */
  ghost predicate From(origins: seq<Pod>, pod: Pod, tolerate: bool) {
    exists o :: o in origins && pod == o.(spec := pod.spec) && Reaches(o.spec, pod.spec, tolerate)
  }
}
