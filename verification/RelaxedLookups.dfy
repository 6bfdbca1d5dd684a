/**
 Which domain counts a run may have to look up.  A pod that is relaxed registers its
 groups again; a lookup that fails before its required anti-affinity terms are dealt with
 costs the pod the groups of those terms.
 */
module RelaxedLookups {
  import opened Common
  import opened Pods
  import opened PreferenceRelaxation
  import opened Topologies
  import opened AntiAffinitySafety

  /**
   Now and after any number of relaxations, no lookup fails before the required anti-affinity
   terms are dealt with.
   */
  predicate Followable(pod: Pod, tolerate: bool, lookup: Lookup)
    requires pod.spec.Valid()
    decreases Potential(pod.spec, tolerate)
  {
    && RequiredCanOwn(map[], pod, false, lookup)
    && match Relaxed(pod.spec, tolerate)
       case None => true
       case Some(spec) =>
         RelaxedDropsPotential(pod.spec, tolerate);
         RelaxedKeepsHardTerms(pod.spec, tolerate);
         Followable(pod.(spec := spec), tolerate, lookup)
  }

  /** What does not fail in an empty topology, affinity terms first, fails in none. */
  lemma CanOwnAnywhere(gs: Groups, pod: Pod, antiFirst: bool, lookup: Lookup)
    requires pod.spec.Valid() && RequiredCanOwn(map[], pod, false, lookup)
    ensures RequiredCanOwn(gs, pod, antiFirst, lookup)
  {
    hide SpreadAsks, AffinityAsks, RequiredAsks, Asks;
  }

  // ----- What that takes

  function WithRequired(pod: Pod, terms: seq<NodeTerm>): Pod { pod.(spec := pod.spec.(required := Some(terms))) }

  /** The spread groups can be counted under the node filter of every rest of the required terms. */
  predicate FiltersCountable(pod: Pod, lookup: Lookup)
    requires pod.spec.Valid()
  {
    pod.spec.required.Some? ==>
      forall j, c :: 0 < j < |pod.spec.required.value| && c in pod.spec.spread ==>
        lookup(SpreadAsk(WithRequired(pod, pod.spec.required.value[j..]), c).id).Some?
  }

  predicate SpreadCountable(pod: Pod, lookup: Lookup)
    requires pod.spec.Valid()
  {
    forall c :: c in pod.spec.spread ==> lookup(SpreadAsk(pod, c).id).Some?
  }

  predicate TermsCountable(pod: Pod, lookup: Lookup)
  {
    CanOwn(map[], AffinityAsks(pod) + RequiredAsks(pod), lookup)
  }

  lemma HardAsksCountable(pod: Pod, lookup: Lookup)
    requires pod.spec.Valid()
    ensures CanOwn(map[], HardAsks(pod, false), lookup) <==> SpreadCountable(pod, lookup) && TermsCountable(pod, lookup)
  {
    hide SpreadAsk, AffinityAsks, RequiredAsks, Asks;
    var spread := pod.spec.spread;
    if CanOwn(map[], HardAsks(pod, false), lookup) {
      forall c | c in spread ensures lookup(SpreadAsk(pod, c).id).Some? {
        var i :| 0 <= i < |spread| && spread[i] == c;
        assert SpreadAsks(pod)[i] in HardAsks(pod, false);
      }
    }
  }

  /** Dropping a required term changes the filter of the spread groups and nothing else. */
  lemma DroppedCountable(pod: Pod, lookup: Lookup)
    requires pod.spec.Valid() && CanDropRequired(pod.spec)
    ensures
      var r := pod.(spec := DropRequired(pod.spec));
      && r.spec.Valid()
      && (FiltersCountable(pod, lookup) <==> SpreadCountable(r, lookup) && FiltersCountable(r, lookup))
      && TermsCountable(r, lookup) == TermsCountable(pod, lookup)
  {
    hide SpreadAsk;
    var terms := pod.spec.required.value;
    var r := pod.(spec := DropRequired(pod.spec));
    assert AffinityAsks(r) == AffinityAsks(pod) && RequiredAsks(r) == RequiredAsks(pod);
    assert r == WithRequired(pod, terms[1..]);
    forall j | 0 < j < |terms| - 1 ensures WithRequired(r, terms[1..][j..]) == WithRequired(pod, terms[j + 1..]) {
      assert terms[1..][j..] == terms[j + 1..];
    }
    if FiltersCountable(pod, lookup) {
      forall j, c | 0 < j < |terms[1..]| && c in r.spec.spread
        ensures lookup(SpreadAsk(WithRequired(r, terms[1..][j..]), c).id).Some? {
        assert lookup(SpreadAsk(WithRequired(pod, terms[j + 1..]), c).id).Some?;
      }
    }
    if SpreadCountable(r, lookup) && FiltersCountable(r, lookup) {
      forall j, c | 0 < j < |terms| && c in pod.spec.spread
        ensures lookup(SpreadAsk(WithRequired(pod, terms[j..]), c).id).Some? {
        if j > 1 {
          assert lookup(SpreadAsk(WithRequired(r, terms[1..][j - 1..]), c).id).Some?;
        }
      }
    }
  }

  /** Every other relaxation only takes groups away. */
  lemma OthersCountable(pod: Pod, tolerate: bool, lookup: Lookup)
    requires pod.spec.Valid() && !CanDropRequired(pod.spec) && Relaxed(pod.spec, tolerate).Some?
    ensures
      var r := pod.(spec := Relaxed(pod.spec, tolerate).value);
      && r.spec.Valid() && !CanDropRequired(r.spec)
      && (SpreadCountable(pod, lookup) ==> SpreadCountable(r, lookup))
      && (TermsCountable(pod, lookup) ==> TermsCountable(r, lookup))
  {
    RelaxedKeepsHardTerms(pod.spec, tolerate);
    var r := pod.(spec := Relaxed(pod.spec, tolerate).value);
    SameFilter(pod, r);
    if TermsCountable(pod, lookup) {
      FewerTerms(pod, r, lookup);
    }
  }

  lemma SameFilter(pod: Pod, r: Pod)
    requires pod.spec.Valid() && r.spec.Valid() && r.key == pod.key
    requires r.spec.required == pod.spec.required && r.spec.nodeSelector == pod.spec.nodeSelector
    ensures forall c :: SpreadAsk(r, c) == SpreadAsk(pod, c)
  {}

  lemma FewerTerms(pod: Pod, r: Pod, lookup: Lookup)
    requires TermsCountable(pod, lookup)
    requires r.spec.podAffinity == pod.spec.podAffinity && r.spec.podAntiAffinity == pod.spec.podAntiAffinity
    requires forall t :: t in r.spec.preferredPodAffinity ==> t in pod.spec.preferredPodAffinity
    ensures TermsCountable(r, lookup)
  {
    assert RequiredAsks(r) == RequiredAsks(pod);
    forall a | a in AffinityAsks(r) ensures a in AffinityAsks(pod) { FewerAffinity(pod, r, a); }
  }

  lemma FewerAffinity(pod: Pod, r: Pod, a: Ask)
    requires r.spec.podAffinity == pod.spec.podAffinity && a in AffinityAsks(r)
    requires forall t :: t in r.spec.preferredPodAffinity ==> t in pod.spec.preferredPodAffinity
    ensures a in AffinityAsks(pod)
  {
    var i :| 0 <= i < |AffinityAsks(r)| && AffinityAsks(r)[i] == a;
    var n, soft := |r.spec.podAffinity|, r.spec.preferredPodAffinity;
    if i < n {
      assert AffinityAsks(pod)[i] == a;
    } else {
      assert soft[i - n] in pod.spec.preferredPodAffinity;
      var j :| 0 <= j < |pod.spec.preferredPodAffinity| && pod.spec.preferredPodAffinity[j] == soft[i - n];
      assert AffinityAsks(pod)[n + j] == a;
    }
  }

  lemma FewerAntiAffinity(pod: Pod, r: Pod, a: Ask)
    requires r.spec.podAntiAffinity == pod.spec.podAntiAffinity && a in AntiAffinityAsks(r)
    requires forall t :: t in r.spec.preferredPodAntiAffinity ==> t in pod.spec.preferredPodAntiAffinity
    ensures a in AntiAffinityAsks(pod)
  {
    var i :| 0 <= i < |AntiAffinityAsks(r)| && AntiAffinityAsks(r)[i] == a;
    var n, soft := |r.spec.podAntiAffinity|, r.spec.preferredPodAntiAffinity;
    if i < n {
      assert AntiAffinityAsks(pod)[i] == a;
    } else {
      assert soft[i - n] in pod.spec.preferredPodAntiAffinity;
      var j :| 0 <= j < |pod.spec.preferredPodAntiAffinity| && pod.spec.preferredPodAntiAffinity[j] == soft[i - n];
      assert AntiAffinityAsks(pod)[n + j] == a;
    }
  }

  /**
   A run can follow a pod exactly if its present groups can be counted up to its required
   anti-affinity terms, and its spread groups also under the node filters that are left
   as required terms are dropped; no other relaxation needs a new group.
   */
  lemma {:induction false} FollowableIff(pod: Pod, tolerate: bool, lookup: Lookup)
    requires pod.spec.Valid()
    ensures Followable(pod, tolerate, lookup) <==>
            pod.spec.podAntiAffinity == [] ||
              (CanOwn(map[], HardAsks(pod, false), lookup) && FiltersCountable(pod, lookup))
    decreases Potential(pod.spec, tolerate)
  {
    hide CanOwn, HardAsks, FiltersCountable, SpreadCountable, TermsCountable, Relaxed, Potential, PodSpec.Valid;
    HardAsksCountable(pod, lookup);
    if Relaxed(pod.spec, tolerate).Some? {
      var r := pod.(spec := Relaxed(pod.spec, tolerate).value);
      RelaxedDropsPotential(pod.spec, tolerate);
      RelaxedKeepsHardTerms(pod.spec, tolerate);
      FollowableIff(r, tolerate, lookup);
      HardAsksCountable(r, lookup);
      if CanDropRequired(pod.spec) {
        DroppedCountable(pod, lookup);
        assert r == pod.(spec := DropRequired(pod.spec)) by { DropsFirst(pod.spec, tolerate); }
      } else {
        OthersCountable(pod, tolerate, lookup);
        NoFilters(pod, lookup);
        NoFilters(r, lookup);
      }
    } else {
      assert !CanDropRequired(pod.spec) by { DropsFirst(pod.spec, tolerate); }
      NoFilters(pod, lookup);
    }
  }

  lemma DropsFirst(spec: PodSpec, tolerate: bool)
    ensures CanDropRequired(spec) ==> Relaxed(spec, tolerate) == Some(DropRequired(spec))
  {}

  lemma NoFilters(pod: Pod, lookup: Lookup)
    requires pod.spec.Valid() && !CanDropRequired(pod.spec)
    ensures FiltersCountable(pod, lookup)
  {}
}
