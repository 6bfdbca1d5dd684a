/**
 Zonal requirements derived from a pod's volumes are written into its required node
 affinity, so that no relaxation of the pod can lose them.
 */
module VolumeTopology {
  import opened Common
  import opened RequirementAlgebra
  import opened RequirementSets
  import opened Pods
  import opened PreferenceRelaxation

  /** The terms that the requirements are appended to; there is always at least one. */
  function TermsOf(spec: PodSpec): (terms: seq<NodeTerm>)
    ensures terms != []
  {
    if spec.required.Some? && spec.required.value != [] then spec.required.value else [[]]
  }

  function Injected(spec: PodSpec, volume: seq<Expression>): PodSpec {
    if volume == [] then spec
    else spec.(required := Some(seq(|TermsOf(spec)|, i requires 0 <= i < |TermsOf(spec)| => TermsOf(spec)[i] + volume)))
  }

  /** Append the requirements to every node selector term of the pod, in place. */
  method Inject(pod: LivePod, volume: seq<Expression>)
    modifies pod
    ensures pod.spec == Injected(old(pod.spec), volume)
  {
    if volume == [] {
      return;
    }
    var terms := if pod.spec.required.Some? then pod.spec.required.value else [];
    if |terms| == 0 {
      terms := [[]];
    }
    ghost var initial := terms;
    for i := 0 to |terms|
      invariant |terms| == |initial| && pod.spec == old(pod.spec)
      invariant forall j :: 0 <= j < |terms| ==> terms[j] == if j < i then initial[j] + volume else initial[j]
    {
      terms := terms[i := terms[i] + volume];
    }
    assert initial == TermsOf(pod.spec);
    assert terms == Injected(pod.spec, volume).required.value;
    pod.spec := pod.spec.(required := Some(terms));
  }

  /** Every way to satisfy the pod's required node affinity includes the volume's requirements. */
  predicate TiedTo(spec: PodSpec, volume: seq<Expression>) {
    && spec.required.Some? && spec.required.value != []
    && forall t, e :: t in spec.required.value && e in volume ==> e in t
  }

  /**
   The pod has the same alternatives as before, or one if it had none, each with the volume's
   requirements joined to it, and is otherwise the same.
   */
  lemma InjectedMeans(spec: PodSpec, volume: seq<Expression>, i: nat, key: string, v: string)
    requires spec.Valid() && PlainTerm(volume) && i < |TermsOf(spec)|
    ensures var r := Injected(spec, volume);
      && r == spec.(required := r.required) && (volume == [] ==> r == spec)
      && (volume != [] ==>
            && r.required.Some? && |r.required.value| == |TermsOf(spec)| && AllValid(r.required.value[i])
            && (Allows(Folded(r.required.value[i]), key, v) <==>
                  Allows(Folded(TermsOf(spec)[i]), key, v) && Allows(Folded(volume), key, v)))
  {
    hide Allows;
    var own := TermsOf(spec)[i];
    assert AllValid(own);
    FoldedJoins(own, volume, key, v);
  }

  lemma FoldedJoins(own: seq<Expression>, more: seq<Expression>, key: string, v: string)
    requires AllValid(own) && AllValid(more)
    ensures AllValid(own + more)
    ensures Allows(Folded(own + more), key, v) <==> Allows(Folded(own), key, v) && Allows(Folded(more), key, v)
  {
    hide AddAll, Requirement.Has, Requirement.Normal, New;
    FoldedNormal(own);
    FoldedNormal(more);
    var xs, ys := RequirementList(own), RequirementList(more);
    assert RequirementList(own + more) == xs + ys;
    AddAllAppend(map[], xs, ys);
    AddAllAllows(Folded(own), ys, key, v);
    AddAllAllows(map[], ys, key, v);
  }

  lemma InjectedIsBound(spec: PodSpec, volume: seq<Expression>)
    requires spec.Valid() && PlainTerm(volume) && volume != []
    ensures TiedTo(Injected(spec, volume), volume) && Injected(spec, volume).Valid()
  {}

  lemma RelaxedStaysBound(spec: PodSpec, volume: seq<Expression>, tolerate: bool)
    requires spec.Valid() && TiedTo(spec, volume) && Relaxed(spec, tolerate).Some?
    ensures Relaxed(spec, tolerate).value.Valid() && TiedTo(Relaxed(spec, tolerate).value, volume)
  {
    RelaxedKeepsHardTerms(spec, tolerate);
  }

  /** The pod after `n` calls of Relax. */
  function AfterRelaxations(spec: PodSpec, tolerate: bool, n: nat): PodSpec
    decreases n
  {
    if n == 0 ||
        Relaxed(spec, tolerate).None? then spec else AfterRelaxations(Relaxed(spec, tolerate).value, tolerate, n - 1)
  }

  lemma {:induction false} RelaxationsStayBound(spec: PodSpec, volume: seq<Expression>, tolerate: bool, n: nat)
    requires spec.Valid() && TiedTo(spec, volume)
    ensures AfterRelaxations(spec, tolerate, n).Valid() && TiedTo(AfterRelaxations(spec, tolerate, n), volume)
    decreases n
  {
    if n > 0 && Relaxed(spec, tolerate).Some? {
      RelaxedStaysBound(spec, volume, tolerate);
      RelaxationsStayBound(Relaxed(spec, tolerate).value, volume, tolerate, n - 1);
    }
  }

  lemma BoundNarrows(spec: PodSpec, volume: seq<Expression>, preference: Option<NodeTerm>)
    requires spec.Valid() && PlainTerm(volume) && TiedTo(spec, volume)
    requires preference.Some? ==> PlainTerm(preference.value)
    ensures Narrows(RequirementsWith(spec, preference), Folded(volume))
  {
    var first := spec.required.value[0];
    assert first in spec.required.value;
    FoldedNarrows(first, volume);
    RequirementsWithNarrows(spec, preference);
  }

  /**
   After injection and any number of relaxations, a required term remains, and neither
   the pod's requirements with any preference included nor its strict requirements admit
   a label value that the volume's requirements exclude.
   */
  lemma VolumeRequirementSurvives(
    spec: PodSpec, volume: seq<Expression>, tolerate: bool, n: nat, preference: Option<NodeTerm>)
    requires spec.Valid() && PlainTerm(volume) && volume != []
    requires preference.Some? ==> PlainTerm(preference.value)
    ensures
      var s := AfterRelaxations(Injected(spec, volume), tolerate, n);
      && s.Valid() && s.required.Some? && s.required.value != []
      && Narrows(RequirementsWith(s, preference), Folded(volume))
      && Narrows(PodRequirements(s), Folded(volume))
      && Narrows(StrictPodRequirements(s), Folded(volume))
  {
    InjectedIsBound(spec, volume);
    RelaxationsStayBound(Injected(spec, volume), volume, tolerate, n);
    var s := AfterRelaxations(Injected(spec, volume), tolerate, n);
    BoundNarrows(s, volume, preference);
    BoundNarrows(s, volume, HeaviestPreference(s));
    BoundNarrows(s, volume, None);
  }
}
