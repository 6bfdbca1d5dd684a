/**
 Pod counts per topology domain for one constraint, and the choice of domains a pod
 may go to: the least loaded admissible domain for a spread constraint, the occupied
 domains for an affinity, the unoccupied ones for an anti-affinity.
 */
module TopologyGroups {
  import opened Common
  import opened Labels
  import opened RequirementAlgebra
  import opened RequirementSets
  import opened Pods

  // ----- Which nodes count

  /** Alternatives, any of which a node may meet; no alternatives means every node counts. */
  type NodeFilter = set<Requirements>

  function FilterOf(spec: PodSpec): NodeFilter
    requires spec.Valid()
  {
    var labels := LabelRequirements(spec.nodeSelector);
    if spec.required.None? then {labels}
    else set i | 0 <= i < |spec.required.value| :: Meet(labels, Folded(spec.required.value[i]))
  }

  method MakeNodeFilter(spec: PodSpec) returns (filter: NodeFilter)
    requires spec.Valid()
    ensures filter == FilterOf(spec)
  {
    var labels := NewLabelRequirements(spec.nodeSelector);
    if spec.required.None? {
      return {labels};
    }
    filter := {};
    for i := 0 to |spec.required.value|
      invariant filter == set j | 0 <= j < i :: Meet(labels, Folded(spec.required.value[j]))
    {
      filter := filter + {Meet(labels, Folded(spec.required.value[i]))};
    }
  }

  predicate FilterMatches(filter: NodeFilter, reqs: Requirements, allowUndefined: set<string>) {
    filter == {} || exists f :: f in filter && Compatible(reqs, f, allowUndefined)
  }

  // ----- Groups

  datatype TopologyType = Spread | PodAffinity | PodAntiAffinity

  /** The fields that identify a group; the code stores groups under a hash of these. */
  datatype GroupId = GroupId(
    key: string,
    kind: TopologyType,
    namespaces: set<string>,
    selector: Option<LabelSelector>,
    maxSkew: int,
    nodeFilter: NodeFilter)
  {
    predicate Selects(pod: Pod) { pod.key.namespace in namespaces && Selected(selector, pod.labels) }

    predicate Counts(pod: Pod, reqs: Requirements, allowUndefined: set<string>) {
      Selects(pod) && FilterMatches(nodeFilter, reqs, allowUndefined)
    }
  }

  /**
   A group selects the pods of its namespaces that carry its labels and meet its expressions,
   all of which must parse; without a selector it selects none.
   */
  lemma SelectsIff(id: GroupId, pod: Pod)
    ensures id.Selects(pod) <==>
      && pod.key.namespace in id.namespaces && id.selector.Some?
      && (forall k :: k in id.selector.value.matchLabels ==>
            k in pod.labels && pod.labels[k] == id.selector.value.matchLabels[k])
      && (forall e :: e in id.selector.value.matchExpressions ==> e.Valid() && Meets(e, pod.labels))
  {
    hide Meets, SelectorExpression.Matches;
    if id.selector.Some? {
      var es := id.selector.value.matchExpressions;
      forall i | 0 <= i < |es| && es[i].Valid() ensures es[i].Matches(pod.labels) <==> Meets(es[i], pod.labels) {
        SelectorAgrees(es[i], pod.labels);
      }
      assert forall i :: 0 <= i < |es| ==> es[i] in es;
    }
  }

  datatype Group = Group(
    id: GroupId,
    minDomains: Option<int>,
    owners: set<UID>,
    domains: map<string, nat>,
    emptyDomains: set<string>)
  {
    /** The index of empty domains is exactly the domains with count zero. */
    predicate Consistent() { emptyDomains == set d | d in domains && domains[d] == 0 }

    function Count(d: string): nat { if d in domains then domains[d] else 0 }

    function Record(ds: set<string>): Group {
      this.(domains := map d | d in domains.Keys + ds :: Count(d) + (if d in ds then 1 else 0),
            emptyDomains := emptyDomains - ds)
    }

    function Register(d: string): Group {
      if d in domains then this else this.(domains := domains[d := 0], emptyDomains := emptyDomains + {d})
    }
  }

  function NewGroup(id: GroupId, minDomains: Option<int>, universe: set<string>): Group {
    Group(id, minDomains, {}, map d | d in universe :: 0, universe)
  }

  lemma RecordIsConsistent(g: Group, ds: set<string>)
    requires g.Consistent()
    ensures g.Record(ds).Consistent()
    ensures forall d :: g.Record(ds).Count(d) == g.Count(d) + (if d in ds then 1 else 0)
  {}

  lemma RecordNothing(g: Group, ds: set<string>)
    requires ds == {}
    ensures g.Record(ds) == g
  {
    assert g.Record(ds).domains == g.domains;
  }

  lemma RecordOneMore(g: Group, ds: set<string>, d: string)
    requires d !in ds
    ensures var r := g.Record(ds);
      g.Record(ds + {d}) == r.(domains := r.domains[d := r.Count(d) + 1], emptyDomains := r.emptyDomains - {d})
  {
    var r, r' := g.Record(ds), g.Record(ds + {d});
    assert r'.domains.Keys == r.domains.Keys + {d};
    forall e | e in r'.domains ensures r'.domains[e] == r.domains[d := r.Count(d) + 1][e] {}
  }

  // ----- Choosing domains

  /** A finite requirement on a domain key. */
  function AnyOf(key: string, values: set<string>): Requirement {
    Requirement(Normalize(key), false, values, None, None, None)
  }

  function Supported(g: Group, podDomains: Requirement): set<string> {
    set d | d in g.domains && podDomains.Has(d)
  }

  /**
   The global minimum count that skew is measured against: zero for hostnames, since a
   new one can always be made, and zero while fewer than `minDomains` domains are eligible.
   */
  predicate IsMinCount(g: Group, podDomains: Requirement, m: int) {
    var s := Supported(g, podDomains);
    if g.id.key == HOSTNAME || (g.minDomains.Some? && |s| < g.minDomains.value) then m == 0
    else
      && m <= MAX_INT32
      && (forall d :: d in s ==> m <= g.domains[d])
      && (m == MAX_INT32 || exists d :: d in s && g.domains[d] == m)
  }

  /** The count a domain would have with the pod in it. */
  function CountWith(g: Group, pod: Pod, d: string): int { g.Count(d) + (if g.id.Selects(pod) then 1 else 0) }

  predicate Admissible(g: Group, pod: Pod, nodeDomains: Requirement, m: int, d: string) {
    && d in g.domains && nodeDomains.Has(d)
    && CountWith(g, pod, d) - m <= g.id.maxSkew && CountWith(g, pod, d) < MAX_INT32
  }

  predicate LeastAdmissible(g: Group, pod: Pod, nodeDomains: Requirement, m: int, d: string) {
    && Admissible(g, pod, nodeDomains, m, d)
    && forall e ::
      e in g.domains && Admissible(g, pod, nodeDomains, m, e) ==> CountWith(g, pod, d) <= CountWith(g, pod, e)
  }

  /**
   The results a spread constraint may give, over all orders of walking the domains: a
   least-loaded admissible domain; or nothing, when no domain is admissible or when the
   domain named by the empty string is itself least loaded.
   */
  ghost predicate SpreadChoice(g: Group, pod: Pod, podDomains: Requirement, nodeDomains: Requirement, r: Requirement) {
    exists m: int :: IsMinCount(g, podDomains, m) && SpreadChoiceAt(g, pod, podDomains.key, nodeDomains, m, r)
  }

  ghost predicate SpreadChoiceAt(g: Group, pod: Pod, key: string, nodeDomains: Requirement, m: int, r: Requirement) {
    || (exists d :: d != "" && LeastAdmissible(g, pod, nodeDomains, m, d) && r == AnyOf(key, {d}))
    || (r == AnyOf(key, {}) &&
        (LeastAdmissible(g, pod, nodeDomains, m, "") || forall d :: !Admissible(g, pod, nodeDomains, m, d)))
  }

  function Occupied(g: Group, podDomains: Requirement): set<string> {
    set d | d in g.domains && podDomains.Has(d) && g.domains[d] > 0
  }

  /** One domain the requirement allows, or none if it allows none. */
  predicate OneOf(g: Group, r: Requirement, pick: set<string>) {
    if exists d :: d in g.domains && r.Has(d) then exists d :: d in g.domains && r.Has(d) && pick == {d} else pick == {}
  }

  /**
   The results an affinity may give: the occupied domains the pod allows; and when there
   is none and the pod selects itself, a bootstrap of up to two domains, one from those
   the pod and the node both allow and one from those the pod allows.
   */
  ghost predicate AffinityChoice(
    g: Group, pod: Pod, podDomains: Requirement, nodeDomains: Requirement, r: Requirement) {
    if Occupied(g, podDomains) != {} || !g.id.Selects(pod) then r == AnyOf(podDomains.key, Occupied(g, podDomains))
    else exists a: set<string>, b: set<string> ::
      OneOf(g, podDomains.Intersection(nodeDomains), a) && OneOf(g, podDomains, b) && r == AnyOf(podDomains.key, a + b)
  }

  /** The unoccupied domains the pod allows. */
  function Unoccupied(g: Group, podDomains: Requirement): Requirement {
    AnyOf(podDomains.key, set d | d in g.emptyDomains && podDomains.Has(d) && g.Count(d) == 0)
  }

  ghost predicate Choice(g: Group, pod: Pod, podDomains: Requirement, nodeDomains: Requirement, r: Requirement) {
    match g.id.kind
    case Spread => SpreadChoice(g, pod, podDomains, nodeDomains, r)
    case PodAffinity => AffinityChoice(g, pod, podDomains, nodeDomains, r)
    case PodAntiAffinity => r == Unoccupied(g, podDomains)
  }

  lemma ChoiceIsFinite(g: Group, pod: Pod, podDomains: Requirement, nodeDomains: Requirement, r: Requirement)
    requires Choice(g, pod, podDomains, nodeDomains, r)
    ensures r.Normal() && !r.complement && r.minValues.None? && r.key == Normalize(podDomains.key)
  {
    NormalizeIsCanonical(podDomains.key);
  }

  // ----- What the answers mean

  /**
   A pod with an affinity may go exactly where the pods of the group are, as far as it allows;
   if it allows none of these places, it may go nowhere, unless it is of the group itself: then
   it may start the group in a domain it allows, which the node allows too if there is one.
   */
  lemma AffinityAnswer(g: Group, pod: Pod, podDomains: Requirement, nodeDomains: Requirement, r: Requirement)
    requires AffinityChoice(g, pod, podDomains, nodeDomains, r)
    ensures (exists d :: podDomains.Has(d) && g.Count(d) > 0) ==>
      forall v :: r.Has(v) <==> podDomains.Has(v) && g.Count(v) > 0
    ensures (forall d :: podDomains.Has(d) ==> g.Count(d) == 0) && !g.id.Selects(pod) ==> forall v :: !r.Has(v)
    ensures (forall d :: podDomains.Has(d) ==> g.Count(d) == 0) && g.id.Selects(pod) ==>
      && (forall v :: r.Has(v) ==> podDomains.Has(v) && v in g.domains)
      && ((exists d :: d in g.domains && podDomains.Has(d)) ==> exists v :: r.Has(v))
      && ((exists d :: d in g.domains && podDomains.Has(d) && nodeDomains.Has(d)) ==>
            exists v :: r.Has(v) && nodeDomains.Has(v))
  {
    hide Requirement.Has, Requirement.Intersection, Group.Record, Normalize;
    forall values, v ensures AnyOf(podDomains.key, values).Has(v) <==> v in values {
      AnyOfHas(podDomains.key, values, v);
    }
    forall d ensures podDomains.Intersection(nodeDomains).Has(d) <==> podDomains.Has(d) && nodeDomains.Has(d) {
      IntersectionHas(podDomains, nodeDomains, d);
    }
    if d :| podDomains.Has(d) && g.Count(d) > 0 {
      assert d in Occupied(g, podDomains);
    } else if g.id.Selects(pod) {
      var a: set<string>, b: set<string> :| OneOf(g, podDomains.Intersection(nodeDomains), a) &&
        OneOf(g, podDomains, b) &&
        r == AnyOf(podDomains.key, a + b);
    }
  }

  lemma AnyOfHas(key: string, values: set<string>, v: string)
    ensures AnyOf(key, values).Has(v) <==> v in values
  {}

  /** A pod with an anti-affinity may go exactly to the known domains it allows that hold none of the group. */
  lemma AntiAffinityAnswer(g: Group, podDomains: Requirement, v: string)
    requires g.Consistent()
    ensures Unoccupied(g, podDomains).Has(v) <==> v in g.domains && podDomains.Has(v) && g.Count(v) == 0
  {}

  /** Fewer domains are eligible than the constraint wants; then, as for host names, there could be an empty one. */
  predicate CouldBeEmptier(g: Group, podDomains: Requirement) {
    g.id.key == HOSTNAME || (g.minDomains.Some? && |Supported(g, podDomains)| < g.minDomains.value)
  }

  /** With the pod in the domain, it is not ahead of any eligible one, or of an empty one, by more than the skew. */
  predicate KeepsSkew(g: Group, pod: Pod, podDomains: Requirement, d: string) {
    var count := g.Count(d) + if g.id.Selects(pod) then 1 else 0;
    if CouldBeEmptier(g, podDomains) then count <= g.id.maxSkew
    else forall e :: e in g.domains && podDomains.Has(e) ==> count - g.Count(e) <= g.id.maxSkew
  }

  lemma AdmissibleIff(g: Group, pod: Pod, podDomains: Requirement, nodeDomains: Requirement, m: int, d: string)
    requires IsMinCount(g, podDomains, m) && g.id.maxSkew >= 0 && CountWith(g, pod, d) < MAX_INT32
    ensures Admissible(g, pod, nodeDomains, m, d) <==>
      d in g.domains && nodeDomains.Has(d) && KeepsSkew(g, pod, podDomains, d)
  {
    hide Requirement.Has, GroupId.Selects;
    if !CouldBeEmptier(g, podDomains) && m != MAX_INT32 {
      var e :| e in Supported(g, podDomains) && g.domains[e] == m;
      assert e in g.domains && podDomains.Has(e);
    }
  }

  /**
   A pod with a spread constraint is sent to a domain its node allows that keeps the skew and
   holds the fewest pods of those that do; it is sent nowhere only if none does, or if the
   domain named by the empty string is one that holds the fewest.
   */
  lemma SpreadAnswer(g: Group, pod: Pod, podDomains: Requirement, nodeDomains: Requirement, r: Requirement)
    requires SpreadChoice(g, pod, podDomains, nodeDomains, r) && g.id.maxSkew >= 0
    requires forall d :: g.Count(d) + 1 < MAX_INT32
    ensures forall d :: r.Has(d) ==>
      && d in g.domains && nodeDomains.Has(d) && KeepsSkew(g, pod, podDomains, d)
      && forall e ::
        e in g.domains && nodeDomains.Has(e) && KeepsSkew(g, pod, podDomains, e) ==> g.Count(d) <= g.Count(e)
    ensures (forall d :: !r.Has(d)) ==>
      || (forall d :: d in g.domains && nodeDomains.Has(d) ==> !KeepsSkew(g, pod, podDomains, d))
      || ("" in g.domains && nodeDomains.Has("") && KeepsSkew(g, pod, podDomains, "") &&
          forall e :: e in g.domains && nodeDomains.Has(e) && KeepsSkew(g, pod, podDomains,
            e) ==> g.Count("") <= g.Count(e))
  {
    hide Requirement.Has, GroupId.Selects, IsMinCount, KeepsSkew, Admissible, Normalize;
    var m: int :| IsMinCount(g, podDomains, m) && SpreadChoiceAt(g, pod, podDomains.key, nodeDomains, m, r);
    forall d ensures Admissible(g, pod, nodeDomains, m, d) <==>
      d in g.domains && nodeDomains.Has(d) && KeepsSkew(g, pod, podDomains, d)
    {
      AdmissibleIff(g, pod, podDomains, nodeDomains, m, d);
    }
    forall values, v ensures AnyOf(podDomains.key, values).Has(v) <==> v in values {
      AnyOfHas(podDomains.key, values, v);
    }
    assert forall d, e :: CountWith(g, pod, d) <= CountWith(g, pod, e) <==> g.Count(d) <= g.Count(e);
  }

  // ----- The group as an object

  class TopologyGroup {
    const id: GroupId
    const minDomains: Option<int>
    var owners: set<UID>
    var domains: map<string, nat>
    var emptyDomains: set<string>

    function View(): Group reads this { Group(id, minDomains, owners, domains, emptyDomains) }

    constructor (id: GroupId, minDomains: Option<int>, universe: set<string>)
      ensures this.id == id && View() == NewGroup(id, minDomains, universe)
    {
      this.id, this.minDomains := id, minDomains;
      owners := {};
      domains := map d | d in universe :: 0;
      emptyDomains := universe;
    }

    method AddOwner(uid: UID)
      modifies this
      ensures View() == old(View()).(owners := old(owners) + {uid})
    {
      owners := owners + {uid};
    }

    method RemoveOwner(uid: UID)
      modifies this
      ensures View() == old(View()).(owners := old(owners) - {uid})
    {
      owners := owners - {uid};
    }

    /** Count one more pod in each of the given domains. */
    method Record(ds: set<string>)
      modifies this
      ensures View() == old(View()).Record(ds)
    {
      hide Group.Record;
      ghost var before := View();
      var todo := ds;
      RecordNothing(before, ds - todo);
      while todo != {}
        invariant todo <= ds && View() == before.Record(ds - todo)
        decreases todo
      {
        var d :| d in todo;
        ghost var done := ds - todo;
        RecordOneMore(before, done, d);
        domains := domains[d := (if d in domains then domains[d] else 0) + 1];
        emptyDomains := emptyDomains - {d};
        todo := todo - {d};
        assert ds - todo == done + {d};
      }
      assert ds - todo == ds;
    }

    method Register(d: string)
      modifies this
      ensures View() == old(View()).Register(d)
    {
      if d !in domains {
        domains := domains[d := 0];
        emptyDomains := emptyDomains + {d};
      }
    }

    method DomainMinCount(podDomains: Requirement) returns (min: int)
      ensures IsMinCount(View(), podDomains, min)
    {
      if id.key == HOSTNAME {
        return 0;
      }
      min := MAX_INT32;
      var supported := 0;
      ghost var seen := {};
      var todo := domains.Keys;
      while todo != {}
        invariant todo <= domains.Keys && seen == set d | d in domains && d !in todo && podDomains.Has(d)
        invariant supported == |seen| && min <= MAX_INT32
        invariant forall d :: d in seen ==> min <= domains[d]
        invariant min == MAX_INT32 || exists d :: d in seen && domains[d] == min
        decreases todo
      {
        var d :| d in todo;
        todo := todo - {d};
        if podDomains.Has(d) {
          supported := supported + 1;
          seen := seen + {d};
          if domains[d] < min {
            min := domains[d];
          }
        }
      }
      assert seen == Supported(View(), podDomains);
      if minDomains.Some? && supported < minDomains.value {
        min := 0;
      }
    }

    method NextDomainTopologySpread(pod: Pod, podDomains: Requirement, nodeDomains: Requirement)
      returns (r: Requirement)
      ensures SpreadChoice(View(), pod, podDomains, nodeDomains, r)
    {
      hide IsMinCount;
      var min := DomainMinCount(podDomains);
      var selfSelecting := id.Selects(pod);
      var minDomain, minCount := "", MAX_INT32;
      ghost var found := false;
      var todo := domains.Keys;
      while todo != {}
        invariant todo <= domains.Keys
        invariant found ==>
          minDomain !in todo && Admissible(View(), pod, nodeDomains, min, minDomain) &&
            minCount == CountWith(View(), pod, minDomain)
        invariant !found ==> minDomain == "" && minCount == MAX_INT32
        invariant forall d :: d in domains && d !in todo && Admissible(View(), pod, nodeDomains, min, d) ==>
                    found && minCount <= CountWith(View(), pod, d)
        decreases todo
      {
        var d :| d in todo;
        todo := todo - {d};
        if nodeDomains.Has(d) {
          var count := domains[d];
          if selfSelecting {
            count := count + 1;
          }
          if count - min <= id.maxSkew && count < minCount {
            minDomain, minCount, found := d, count, true;
          }
        }
      }
      assert found ==> LeastAdmissible(View(), pod, nodeDomains, min, minDomain);
      if minDomain == "" {
        return New(podDomains.key, DoesNotExist, None, []);
      }
      r := New(podDomains.key, In, None, [minDomain]);
      assert r == AnyOf(podDomains.key, {minDomain});
    }

    /** The first domain met that the requirement allows. */
    method FirstAllowed(r: Requirement) returns (pick: set<string>)
      ensures OneOf(View(), r, pick)
    {
      var todo := domains.Keys;
      while todo != {}
        invariant todo <= domains.Keys && forall d :: d in domains && d !in todo ==> !r.Has(d)
        decreases todo
      {
        var d :| d in todo;
        todo := todo - {d};
        if r.Has(d) {
          return {d};
        }
      }
      return {};
    }

    method NextDomainAffinity(pod: Pod, podDomains: Requirement, nodeDomains: Requirement) returns (r: Requirement)
      ensures AffinityChoice(View(), pod, podDomains, nodeDomains, r)
    {
      var options := {};
      var todo := domains.Keys;
      while todo != {}
        invariant todo <= domains.Keys
        invariant options == set d | d in domains && d !in todo && podDomains.Has(d) && domains[d] > 0
        decreases todo
      {
        var d :| d in todo;
        todo := todo - {d};
        if podDomains.Has(d) && domains[d] > 0 {
          options := options + {d};
        }
      }
      assert options == Occupied(View(), podDomains);
      if |options| == 0 && id.Selects(pod) {
        var intersected := Intersect(podDomains, nodeDomains);
        var a := FirstAllowed(intersected);
        var b := FirstAllowed(podDomains);
        options := a + b;
      }
      r := AnyOf(podDomains.key, options);
    }

    method NextDomainAntiAffinity(podDomains: Requirement) returns (r: Requirement)
      ensures r == Unoccupied(View(), podDomains)
    {
      var options := {};
      var todo := emptyDomains;
      while todo != {}
        invariant todo <= emptyDomains
        invariant options == set d | d in emptyDomains && d !in todo && podDomains.Has(d) && View().Count(d) == 0
        decreases todo
      {
        var d :| d in todo;
        todo := todo - {d};
        if podDomains.Has(d) && (if d in domains then domains[d] else 0) == 0 {
          options := options + {d};
        }
      }
      r := AnyOf(podDomains.key, options);
    }

    method Get(pod: Pod, podDomains: Requirement, nodeDomains: Requirement) returns (r: Requirement)
      ensures Choice(View(), pod, podDomains, nodeDomains, r)
    {
      match id.kind
      case Spread => r := NextDomainTopologySpread(pod, podDomains, nodeDomains);
      case PodAffinity => r := NextDomainAffinity(pod, podDomains, nodeDomains);
      case PodAntiAffinity => r := NextDomainAntiAffinity(podDomains);
    }
  }

  // ----- Spread keeps the skew

  predicate SkewAtMost(g: Group, eligible: set<string>, k: int) {
    forall d, e :: d in eligible && e in eligible ==> g.Count(d) - g.Count(e) <= k
  }

  /**
   One pod that the constraint selects goes to the domain chosen for it, on a node whose
   domains are all eligible, and is recorded there.
   */
  ghost predicate PlaceAndRecord(g: Group, podDomains: Requirement, g': Group) {
    exists pod: Pod, nodeDomains: Requirement, d: string ::
      && g.id.Selects(pod)
      && (forall e :: e in g.domains && nodeDomains.Has(e) ==> podDomains.Has(e))
      && SpreadChoice(g, pod, podDomains, nodeDomains, AnyOf(podDomains.key, {d}))
      && g' == g.Record({d})
  }

  lemma ChosenIsLeastAdmissible(g: Group, pod: Pod, key: string, nodeDomains: Requirement, m: int, d: string)
    requires SpreadChoiceAt(g, pod, key, nodeDomains, m, AnyOf(key, {d}))
    ensures LeastAdmissible(g, pod, nodeDomains, m, d)
  {
    hide LeastAdmissible;
    assert d in AnyOf(key, {d}).values;
    var e :| e != "" && LeastAdmissible(g, pod, nodeDomains, m, e) && AnyOf(key, {d}) == AnyOf(key, {e});
    assert e in AnyOf(key, {d}).values;
  }

  lemma RecordKeepsSkew(g: Group, podDomains: Requirement, d: string, m: int)
    requires SkewAtMost(g, Supported(g, podDomains), g.id.maxSkew)
    requires d in Supported(g, podDomains) && g.Count(d) + 1 - m <= g.id.maxSkew
    requires forall x :: x in Supported(g, podDomains) ==> m <= g.Count(x)
    ensures Supported(g.Record({d}), podDomains) == Supported(g, podDomains)
    ensures SkewAtMost(g.Record({d}), Supported(g, podDomains), g.id.maxSkew)
  {
    hide Requirement.Has;
    assert g.Record({d}).domains.Keys == g.domains.Keys;
  }

  lemma PlacementKeepsSkew(g: Group, podDomains: Requirement, g': Group)
    requires SkewAtMost(g, Supported(g, podDomains), g.id.maxSkew)
    requires PlaceAndRecord(g, podDomains, g')
    ensures g'.id == g.id && SkewAtMost(g', Supported(g', podDomains), g'.id.maxSkew)
  {
    hide Requirement.Has, SkewAtMost;
    var pod: Pod, nodeDomains: Requirement, d: string :|
      && g.id.Selects(pod)
      && (forall e :: e in g.domains && nodeDomains.Has(e) ==> podDomains.Has(e))
      && SpreadChoice(g, pod, podDomains, nodeDomains, AnyOf(podDomains.key, {d}))
      && g' == g.Record({d});
    var m: int :| IsMinCount(g, podDomains, m) &&
      SpreadChoiceAt(g, pod, podDomains.key, nodeDomains, m, AnyOf(podDomains.key, {d}));
    ChosenIsLeastAdmissible(g, pod, podDomains.key, nodeDomains, m, d);
    RecordKeepsSkew(g, podDomains, d, m);
  }

  /** `run` is a sequence of states of the group, each one placement after the one before. */
  ghost predicate PlacementRun(run: seq<Group>, podDomains: Requirement) {
    run != [] && forall i :: 0 <= i < |run| - 1 ==> PlaceAndRecord(run[i], podDomains, run[i + 1])
  }

  /** However many pods are placed, the counts of eligible domains never differ by more than `maxSkew`. */
  lemma {:induction false} RunKeepsSkew(run: seq<Group>, podDomains: Requirement, i: nat)
    requires PlacementRun(run, podDomains) && i < |run|
    requires SkewAtMost(run[0], Supported(run[0], podDomains), run[0].id.maxSkew)
    ensures run[i].id == run[0].id && SkewAtMost(run[i], Supported(run[i], podDomains), run[i].id.maxSkew)
  {
    if i > 0 {
      RunKeepsSkew(run, podDomains, i - 1);
      assert PlaceAndRecord(run[i - 1], podDomains, run[i - 1 + 1]);
      PlacementKeepsSkew(run[i - 1], podDomains, run[i]);
    }
  }

  /** A domain named by the empty string can hide an admissible one. */
  lemma EmptyNameExample(pod: Pod)
    ensures
      var id := GroupId("k", Spread, {}, None, 1, {});
      var g := Group(id, None, {}, map["" := 0, "a" := 1], {""});
      var any := New("k", Exists, None, []);
      && g.Consistent() && IsMinCount(g, any, 0) && Admissible(g, pod, any, 0, "a")
      && SpreadChoice(g, pod, any, any, AnyOf("k", {}))
  {
    var id := GroupId("k", Spread, {}, None, 1, {});
    var g := Group(id, None, {}, map["" := 0, "a" := 1], {""});
    var any := New("k", Exists, None, []);
    assert any.Has("") && any.Has("a");
    assert "" in Supported(g, any) && "a" in Supported(g, any);
    assert IsMinCount(g, any, 0);
    assert LeastAdmissible(g, pod, any, 0, "");
  }

  /** Nothing is returned exactly when nothing is admissible. */
  ghost predicate SoundAnswer(g: Group, pod: Pod, nodeDomains: Requirement, m: int, r: Requirement) {
    r.Len() == 0 <==> forall d :: !Admissible(g, pod, nodeDomains, m, d)
  }

  /**
   That holds of every possible answer unless the domain named by the empty string is itself
   a least loaded admissible one.
   */
  lemma NothingIffNoneAdmissible(g: Group, pod: Pod, podDomains: Requirement, nodeDomains: Requirement, m: int)
    requires IsMinCount(g, podDomains, m)
    ensures (forall r :: SpreadChoice(g, pod, podDomains, nodeDomains, r) ==>
      SoundAnswer(g, pod, nodeDomains, m, r)) <==>
            !LeastAdmissible(g, pod, nodeDomains, m, "")
  {
    hide Admissible, Requirement.Has;
    if LeastAdmissible(g, pod, nodeDomains, m, "") {
      var r := AnyOf(podDomains.key, {});
      assert SpreadChoiceAt(g, pod, podDomains.key, nodeDomains, m, r);
      assert SpreadChoice(g, pod, podDomains, nodeDomains, r) && !SoundAnswer(g, pod, nodeDomains, m, r);
    } else {
      forall r | SpreadChoice(g, pod, podDomains, nodeDomains, r) ensures SoundAnswer(g, pod, nodeDomains, m, r) {
        var n: int :| IsMinCount(g, podDomains, n) && SpreadChoiceAt(g, pod, podDomains.key, nodeDomains, n, r);
        assert n == m;
      }
    }
  }
}
