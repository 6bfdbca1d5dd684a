/** The parts of a pod that scheduling looks at, and the node requirements they amount to. */
module Pods {
  import opened Common
  import opened RequirementAlgebra
  import opened RequirementSets
  import opened Resources
  import opened HostPorts
  import opened Volumes

  type UID = string

  // ----- Label selectors

  datatype SelectorOperator = SelectorIn | SelectorNotIn | SelectorExists | SelectorDoesNotExist

  datatype SelectorExpression = SelectorExpression(key: string, op: SelectorOperator, values: seq<string>)
  {
    /** Set operators take values; existence operators take none. */
    predicate Valid() { (op.SelectorIn? || op.SelectorNotIn?) <==> values != [] }

    predicate Matches(labels: map<string, string>) {
      match op
      case SelectorIn => key in labels && labels[key] in values
      case SelectorNotIn => key !in labels || labels[key] !in values
      case SelectorExists => key in labels
      case SelectorDoesNotExist => key !in labels
    }
  }

  /** The same operator of a node requirement. */
  function NodeOperator(op: SelectorOperator): Operator {
    match op
    case SelectorIn => In
    case SelectorNotIn => NotIn
    case SelectorExists => Exists
    case SelectorDoesNotExist => DoesNotExist
  }

  /** The labels meet the node requirement with the same operator. */
  predicate Meets(e: SelectorExpression, labels: map<string, string>) {
    var r := New(e.key, NodeOperator(e.op), None, e.values);
    if e.key in labels then r.Has(labels[e.key]) else r.AllowsAbsence()
  }

  /** A label selector means what a node requirement with the same operator means. */
  lemma SelectorAgrees(e: SelectorExpression, labels: map<string, string>)
    requires e.Valid()
    ensures e.Matches(labels) <==> Meets(e, labels)
  {
    if e.values != [] {
      assert e.values[0] in Elements(e.values);
    }
  }

  datatype LabelSelector = LabelSelector(matchLabels: map<string, string>, matchExpressions: seq<SelectorExpression>)
  {
    /** A selector that does not parse selects nothing. */
    predicate Matches(labels: map<string, string>) {
      && (forall k :: k in matchLabels ==> k in labels && labels[k] == matchLabels[k])
      && (forall i :: 0 <= i < |matchExpressions| ==>
        matchExpressions[i].Valid() && matchExpressions[i].Matches(labels))
    }
  }

  /** A missing selector selects nothing; an empty one selects everything. */
  predicate Selected(selector: Option<LabelSelector>, labels: map<string, string>) {
    selector.Some? && selector.value.Matches(labels)
  }

  // ----- Taints

  datatype Taint = Taint(key: string, value: string, effect: string)

  datatype TolerationOperator = Equal | ExistsOp

  datatype Toleration = Toleration(key: string, op: TolerationOperator, value: string, effect: string)
  {
    predicate Tolerates(t: Taint) {
      && (effect == "" || effect == t.effect)
      && (key == "" || key == t.key)
      && (op.ExistsOp? || value == t.value)
    }
  }

  /** A toleration that names everything tolerates one taint; what it leaves empty is left open. */
  lemma ToleratesIff(o: Toleration, t: Taint)
    ensures o.key != "" && o.effect != "" ==>
            (o.Tolerates(t) <==> t == Taint(o.key, if o.op.ExistsOp? then t.value else o.value, o.effect))
    ensures o.key == "" ==> o.Tolerates(t) == o.(key := t.key).Tolerates(t)
    ensures o.effect == "" ==> o.Tolerates(t) == o.(effect := t.effect).Tolerates(t)
  {}

  predicate Tolerated(t: Taint, tolerations: seq<Toleration>) {
    exists j :: 0 <= j < |tolerations| && tolerations[j].Tolerates(t)
  }

  predicate ToleratesAll(taints: seq<Taint>, tolerations: seq<Toleration>) {
    forall i :: 0 <= i < |taints| ==> Tolerated(taints[i], tolerations)
  }

  // ----- Pods

  /** Expressions that must hold together. */
  type NodeTerm = seq<Expression>

  predicate PlainTerm(es: NodeTerm) { AllValid(es) && forall i :: 0 <= i < |es| ==> es[i].minValues.None? }

  datatype Weighted<T> = Weighted(weight: int, term: T)

  /** A pod (anti-)affinity term, its namespaces already resolved. */
  datatype PodTerm = PodTerm(topologyKey: string, namespaces: set<string>, selector: Option<LabelSelector>)

  datatype SpreadConstraint = SpreadConstraint(
    topologyKey: string,
    maxSkew: int,
    minDomains: Option<int>,
    selector: Option<LabelSelector>,
    scheduleAnyway: bool)

  datatype PodSpec = PodSpec(
    nodeSelector: map<string, string>,
    required: Option<seq<NodeTerm>>,                     // required node affinity: any one term suffices
    preferred: seq<Weighted<NodeTerm>>,
    podAffinity: seq<PodTerm>,
    preferredPodAffinity: seq<Weighted<PodTerm>>,
    podAntiAffinity: seq<PodTerm>,
    preferredPodAntiAffinity: seq<Weighted<PodTerm>>,
    spread: seq<SpreadConstraint>,
    tolerations: seq<Toleration>)
  {
    /** Bounds in node affinity terms name a value, and no term asks for a number of values. */
    predicate Valid() {
      && (required.Some? ==> forall i :: 0 <= i < |required.value| ==> PlainTerm(required.value[i]))
      && (forall i :: 0 <= i < |preferred| ==> PlainTerm(preferred[i].term))
    }
  }

  datatype Pod = Pod(
    uid: UID,
    key: PodKey,
    labels: map<string, string>,
    spec: PodSpec,
    resources: PodResources,
    ports: seq<HostPort>,
    volumes: Option<VolumeSet>)                          // None when the lookup of a claim fails
  {
    function Requests(): ResourceList { RequestsForPods([resources]) }
  }

  // ----- Stable sort by weight, heaviest first

  function InsertByWeight<T>(x: Weighted<T>, s: seq<Weighted<T>>): seq<Weighted<T>> {
    if s == [] || x.weight >= s[0].weight then [x] + s else [s[0]] + InsertByWeight(x, s[1..])
  }

  function SortByWeight<T>(s: seq<Weighted<T>>): seq<Weighted<T>> {
    if s == [] then [] else InsertByWeight(s[0], SortByWeight(s[1..]))
  }

  predicate HeaviestFirst<T>(s: seq<Weighted<T>>) {
    forall i, j :: 0 <= i < j < |s| ==> s[i].weight >= s[j].weight
  }

  lemma HeaviestInFront<T>(x: Weighted<T>, s: seq<Weighted<T>>)
    requires HeaviestFirst(s) && forall i :: 0 <= i < |s| ==> s[i].weight <= x.weight
    ensures HeaviestFirst([x] + s)
  {}

  lemma {:induction false} InsertSorts<T>(x: Weighted<T>, s: seq<Weighted<T>>)
    requires HeaviestFirst(s)
    ensures HeaviestFirst(InsertByWeight(x, s)) && multiset(InsertByWeight(x, s)) == multiset(s) + multiset{x}
  {
    if s == [] || x.weight >= s[0].weight {
      HeaviestInFront(x, s);
    } else {
      InsertSorts(x, s[1..]);
      assert s == [s[0]] + s[1..];
      var t := InsertByWeight(x, s[1..]);
      forall i | 0 <= i < |t| ensures t[i].weight <= s[0].weight {
        assert t[i] in multiset(t);
        assert t[i] == x || t[i] in s[1..];
      }
      HeaviestInFront(s[0], t);
    }
  }

  lemma {:induction false} SortByWeightSorts<T>(s: seq<Weighted<T>>)
    ensures HeaviestFirst(SortByWeight(s)) && multiset(SortByWeight(s)) == multiset(s)
    ensures |SortByWeight(s)| == |s|
  {
    if s != [] {
      SortByWeightSorts(s[1..]);
      InsertSorts(s[0], SortByWeight(s[1..]));
      assert s == [s[0]] + s[1..];
    }
    PermutationMembers(SortByWeight(s), s);
  }

  // ----- Node requirements of a pod

  /** The requirements of a pod when one preferred term, if any, is treated as required. */
  function RequirementsWith(spec: PodSpec, preference: Option<NodeTerm>): Requirements
    requires spec.Valid() && (preference.Some? ==> PlainTerm(preference.value))
  {
    var base := LabelRequirements(spec.nodeSelector);
    var wanted := if preference.Some? then Meet(base, Folded(preference.value)) else base;
    if spec.required.Some? && spec.required.value != [] then Meet(wanted, Folded(spec.required.value[0])) else wanted
  }

  function HeaviestPreference(spec: PodSpec): (r: Option<NodeTerm>)
    requires spec.Valid()
    ensures r.Some? ==> PlainTerm(r.value)
  {
    if spec.preferred == [] then None
    else
      SortByWeightSorts(spec.preferred);
      PermutationMembers(SortByWeight(spec.preferred), spec.preferred);
      var first := SortByWeight(spec.preferred)[0];
      assert first in spec.preferred;
      Some(first.term)
  }

  /** Every preference counts: the heaviest preferred term joins the first required one. */
  function PodRequirements(spec: PodSpec): Requirements
    requires spec.Valid()
  {
    RequirementsWith(spec, HeaviestPreference(spec))
  }

  /** Only what the pod insists on. */
  function StrictPodRequirements(spec: PodSpec): Requirements
    requires spec.Valid()
  {
    RequirementsWith(spec, None)
  }

  /** Whatever preference is added, the first required term constrains the pod. */
  lemma RequirementsWithNarrows(spec: PodSpec, preference: Option<NodeTerm>)
    requires spec.Valid() && (preference.Some? ==> PlainTerm(preference.value))
    requires spec.required.Some? && spec.required.value != []
    ensures Narrows(RequirementsWith(spec, preference), Folded(spec.required.value[0]))
  {
    var base := LabelRequirements(spec.nodeSelector);
    var wanted := if preference.Some? then Meet(base, Folded(preference.value)) else base;
    MeetNarrows(wanted, Folded(spec.required.value[0]));
  }

  /** The preference that counts is one of the pod's, and none is heavier. */
  lemma HeaviestCounts(spec: PodSpec)
    requires spec.Valid()
    ensures HeaviestPreference(spec).None? <==> spec.preferred == []
    ensures spec.preferred != [] ==> exists w :: w in spec.preferred && HeaviestPreference(spec) == Some(w.term) &&
                                                 forall u :: u in spec.preferred ==> u.weight <= w.weight
  {
    if spec.preferred != [] {
      var sorted := SortByWeight(spec.preferred);
      SortByWeightSorts(spec.preferred);
      PermutationMembers(sorted, spec.preferred);
      assert sorted[0] in sorted;
      forall u | u in spec.preferred ensures u.weight <= sorted[0].weight {
        assert u in sorted;
        var i :| 0 <= i < |sorted| && sorted[i] == u;
      }
    }
  }

  /** A term that is there, if there is one, allows the value. */
  predicate TermAllows(term: Option<NodeTerm>, key: string, v: string)
    requires term.Some? ==> AllValid(term.value)
  {
    term.Some? ==> Allows(Folded(term.value), key, v)
  }

  function FirstRequired(spec: PodSpec): Option<NodeTerm> {
    if spec.required.Some? && spec.required.value != [] then Some(spec.required.value[0]) else None
  }

  /**
   A pod allows exactly the values that its node selector, the first of its required terms
   and the heaviest of its preferred terms allow; strictly, the preferred term does not count.
   */
  lemma PodAllowsIff(spec: PodSpec, key: string, v: string)
    requires spec.Valid()
    ensures Allows(StrictPodRequirements(spec), key, v) <==>
            Allows(LabelRequirements(spec.nodeSelector), key, v) && TermAllows(FirstRequired(spec), key, v)
    ensures Allows(PodRequirements(spec), key, v) <==>
            Allows(StrictPodRequirements(spec), key, v) && TermAllows(HeaviestPreference(spec), key, v)
  {
    hide Allows, Folded, LabelRequirements, Meet, HeaviestPreference;
    var base, preference := LabelRequirements(spec.nodeSelector), HeaviestPreference(spec);
    if preference.Some? {
      MeetAllows(base, Folded(preference.value), key, v);
    }
    if FirstRequired(spec).Some? {
      var first := Folded(spec.required.value[0]);
      MeetAllows(base, first, key, v);
      if preference.Some? {
        MeetAllows(Meet(base, Folded(preference.value)), first, key, v);
      }
    }
  }
}
