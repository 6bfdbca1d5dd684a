/**
 What a list of selector expressions means to Kubernetes, and how close folding the
 list into requirements and testing compatibility with a node's labels comes to it.
 */
module NodeSelector {
  import opened Common
  import opened Strconv
  import opened Labels
  import opened RequirementAlgebra
  import opened RequirementSets

  type LabelMap = map<string, string>

  /** The Kubernetes reading of one expression against a node's labels. */
  predicate Matches(labels: LabelMap, e: Expression)
    requires e.Valid()
  {
    match e.op
    case In => e.key in labels && labels[e.key] in e.values
    case NotIn => e.key !in labels || labels[e.key] !in e.values
    case Exists => e.key in labels
    case DoesNotExist => e.key !in labels
    case Gt =>
      && e.key in labels && Atoi(labels[e.key]).Some?
      && AtoiIgnoringError(e.values[0]) < Atoi(labels[e.key]).value
    case Lt =>
      && e.key in labels && Atoi(labels[e.key]).Some?
      && Atoi(labels[e.key]).value < AtoiIgnoringError(e.values[0])
  }

  /** Expressions the API accepts: bounds and set operators name values. */
  predicate Acceptable(es: seq<Expression>) {
    forall i :: 0 <= i < |es| ==> es[i].Valid() && (es[i].op == In || es[i].op == NotIn ==> es[i].values != [])
  }

  predicate CanonicalSelector(es: seq<Expression>) { forall i :: 0 <= i < |es| ==> Canonical(es[i].key) }

  predicate MatchesAll(labels: LabelMap, es: seq<Expression>)
    requires Acceptable(es)
  {
    forall i :: 0 <= i < |es| ==> Matches(labels, es[i])
  }

  // ----- Labels under several spellings of a key

  ghost function AgreedValue(labels: LabelMap, key: string): (v: string)
    requires AgreedValues(labels, key) != {}
    ensures AgreedValues(labels, key) == {v}
  {
    var v :| v in AgreedValues(labels, key);
    assert AgreedValues(labels, key) == {v};
    v
  }

  /** The labels by canonical key; a key on whose value its spellings disagree is left out. */
  ghost function Agreed(labels: LabelMap): LabelMap {
    map key | key in CanonicalKeys(labels) && AgreedValues(labels, key) != {} :: AgreedValue(labels, key)
  }

  function Renamed(es: seq<Expression>): (r: seq<Expression>)
    ensures |r| == |es| && forall i :: 0 <= i < |es| ==> r[i] == es[i].(key := Normalize(es[i].key))
  {
    seq(|es|, i requires 0 <= i < |es| => es[i].(key := Normalize(es[i].key)))
  }

  lemma RenamedFoldsAlike(es: seq<Expression>)
    requires Acceptable(es)
    ensures Acceptable(Renamed(es)) && CanonicalSelector(Renamed(es)) && Folded(Renamed(es)) == Folded(es)
  {
    hide AddAll;
    forall i | 0 <= i < |es|
      ensures Canonical(Renamed(es)[i].key) && RequirementList(Renamed(es))[i] == RequirementList(es)[i] {
      NormalizeIsCanonical(es[i].key);
    }
    assert RequirementList(Renamed(es)) == RequirementList(es);
  }

  /** A value set of one, cut by a requirement, is empty iff the requirement rejects the value. */
  lemma SingletonMeet(a: Requirement, v: string, r: Requirement)
    requires !a.complement && a.values == {v} && a.Normal() && r.Normal()
    ensures a.Intersection(r).Len() != 0 <==> r.Has(v)
    ensures !a.AllowsAbsence()
  {
    IntersectionHas(a, r, v);
    var m := a.Intersection(r);
    assert m.values <= {v};
    if m.values != {} {
      assert v in m.values;
      assert m.values == {v};
    }
  }

  /** Every present key has its requirement admit the label's value; every absent key tolerates absence. */
  predicate Decides(labels: LabelMap, required: Requirements) {
    forall k :: k in required ==> if k in labels then required[k].Has(labels[k]) else required[k].AllowsAbsence()
  }

  /**
   Against any label map and with no key allowed to be undefined, compatibility succeeds
   exactly when every key has its requirement admit the value its spellings agree on,
   or, if it has none, tolerate absence.
   */
  lemma CompatibleWithLabels(labels: LabelMap, required: Requirements)
    requires WellFormed(required)
    ensures Compatible(LabelRequirements(labels), required, {}) <==> Decides(Agreed(labels), required)
  {
    hide Requirement.Has, Requirement.Intersection;
    LabelRequirementsWellFormed(labels);
    var have, agreed := LabelRequirements(labels), Agreed(labels);
    forall k | k in required && k in have
      ensures
        (have[k].Intersection(required[k]).Len() != 0 || (required[k].AllowsAbsence() && have[k].AllowsAbsence())) <==>
        if k in agreed then required[k].Has(agreed[k]) else required[k].AllowsAbsence()
    {
      if k in agreed {
        SingletonMeet(have[k], agreed[k], required[k]);
      } else {
        EmptyMeet(have[k], required[k]);
      }
    }
  }

  lemma EmptyMeet(a: Requirement, r: Requirement)
    requires !a.complement && a.values == {} && a.Normal() && r.Normal()
    ensures a.Intersection(r).Len() == 0 && a.AllowsAbsence()
  {
    assert a.Intersection(r).values == {};
  }

  /** A node whose spellings of a key disagree is treated as one that has no spelling of it. */
  lemma DisagreeingIsAbsent(labels: LabelMap, key: string, required: Requirements)
    requires WellFormed(required) && AgreedValues(labels, key) == {}
    ensures var without := map k | k in labels && Normalize(k) != key :: labels[k];
      Compatible(LabelRequirements(labels), required, {}) <==> Compatible(LabelRequirements(without), required, {})
  {
    hide Compatible, LabelRequirements;
    var without := map k | k in labels && Normalize(k) != key :: labels[k];
    forall x | x != key
      ensures AgreedValues(without, x) == AgreedValues(labels, x) &&
        (x in CanonicalKeys(without) <==> x in CanonicalKeys(labels)) {
      OtherSpellings(labels, without, x);
    }
    assert AgreedValues(without, key) == {};
    assert Agreed(without) == Agreed(labels);
    CompatibleWithLabels(labels, required);
    CompatibleWithLabels(without, required);
  }

  lemma OtherSpellings(labels: LabelMap, without: LabelMap, x: string)
    requires forall k ::
      Normalize(k) == x ==> (k in labels <==> k in without) && (k in labels ==> labels[k] == without[k])
    ensures AgreedValues(without, x) == AgreedValues(labels, x) &&
      (x in CanonicalKeys(without) <==> x in CanonicalKeys(labels))
  {}

  /** On a node that has the label, an expression matches iff its requirement admits the value. */
  lemma MatchesPresent(labels: LabelMap, e: Expression)
    requires e.Valid() && e.key in labels
    ensures Matches(labels, e) <==> FromExpression(e).Has(labels[e.key])
  {}

  predicate ToleratesAbsence(e: Expression) { e.op == NotIn || e.op == DoesNotExist }

  /** An intersection of requirements that tolerate absence tolerates absence. */
  lemma AbsenceIntersection(a: Requirement, b: Requirement)
    requires a.Normal() && b.Normal() && a.AllowsAbsence() && b.AllowsAbsence()
    requires a.greaterThan.None? && a.lessThan.None? && b.greaterThan.None? && b.lessThan.None?
    ensures a.Intersection(b).AllowsAbsence()
    ensures a.Intersection(b).greaterThan.None? && a.Intersection(b).lessThan.None?
  {
    var r := a.Intersection(b);
    if a.complement && b.complement {
      assert r.values == a.values + b.values;
      var v :| v in a.values;
      assert v in r.values;
    } else if !a.complement {
      assert a.values == {};
      assert r.values == {};
    } else {
      assert b.values == {};
      assert r.values == {};
    }
  }

  /** If every requirement on a key tolerates absence and has no bounds, so does their fold. */
  lemma {:induction false} FoldedAbsence(m: Requirements, rs: seq<Requirement>, k: string)
    requires WellFormed(m) && AllNormal(rs)
    requires k in m ==> m[k].AllowsAbsence() && m[k].greaterThan.None? && m[k].lessThan.None?
    requires forall i :: 0 <= i < |rs| && rs[i].key == k ==>
               rs[i].AllowsAbsence() && rs[i].greaterThan.None? && rs[i].lessThan.None?
    ensures k in AddAll(m, rs) ==> AddAll(m, rs)[k].AllowsAbsence()
    decreases |rs|
  {
    if rs != [] {
      AddIsWellFormed(m, rs[0]);
      if rs[0].key == k && k in m {
        AbsenceIntersection(rs[0], m[k]);
      }
      FoldedAbsence(Add(m, rs[0]), rs[1..], k);
    }
  }

  lemma {:induction false} FoldedKeys(m: Requirements, rs: seq<Requirement>, k: string)
    requires WellFormed(m) && AllNormal(rs)
    ensures k in AddAll(m, rs) <==> k in m || exists i :: 0 <= i < |rs| && rs[i].key == k
    decreases |rs|
  {
    if rs != [] {
      AddIsWellFormed(m, rs[0]);
      FoldedKeys(Add(m, rs[0]), rs[1..], k);
      assert forall i :: 0 < i < |rs| ==> rs[i] == rs[1..][i - 1];
    }
  }

  lemma AbsentExpression(e: Expression)
    requires e.Valid() && (e.op == In || e.op == NotIn ==> e.values != [])
    ensures FromExpression(e).AllowsAbsence() <==> ToleratesAbsence(e)
  {
    if e.op == In || e.op == NotIn {
      assert e.values[0] in FromExpression(e).values;
    }
  }

  /** A present key is decided the Kubernetes way, however many expressions constrain it. */
  lemma PresentKeyExact(labels: LabelMap, es: seq<Expression>, k: string)
    requires Acceptable(es) && CanonicalSelector(es) && k in labels
    ensures Allows(Folded(es), k, labels[k]) <==> forall i :: 0 <= i < |es| && es[i].key == k ==> Matches(labels, es[i])
  {
    hide Matches, Requirement.Has, AddAll;
    FoldedNormal(es);
    AddAllAllows(map[], RequirementList(es), k, labels[k]);
    forall i | 0 <= i < |es| && es[i].key == k
      ensures Matches(labels, es[i]) <==> RequirementList(es)[i].Has(labels[k])
    {
      MatchesPresent(labels, es[i]);
    }
    forall i | 0 <= i < |es| ensures RequirementList(es)[i].key == es[i].key {
      KeyOf(es[i]);
    }
  }

  lemma KeyOf(e: Expression)
    requires e.Valid() && Canonical(e.key)
    ensures FromExpression(e).key == e.key
  {}

  lemma MatchesThenDecides(labels: LabelMap, es: seq<Expression>, k: string)
    requires Acceptable(es) && CanonicalSelector(es) && MatchesAll(labels, es) && k in Folded(es)
    ensures if k in labels then Folded(es)[k].Has(labels[k]) else Folded(es)[k].AllowsAbsence()
  {
    hide Requirement.AllowsAbsence, Requirement.Has;
    if k in labels {
      PresentKeyExact(labels, es, k);
    } else {
      FoldedNormal(es);
      forall i | 0 <= i < |es| && es[i].key == k ensures RequirementList(es)[i].AllowsAbsence() {
        AbsentExpression(es[i]);
      }
      FoldedAbsence(map[], RequirementList(es), k);
    }
  }

  lemma DecidesThenMatches(labels: LabelMap, es: seq<Expression>, i: nat)
    requires Acceptable(es) && CanonicalSelector(es) && i < |es| && Decides(labels, Folded(es))
    requires es[i].key !in labels ==> ToleratesAbsence(es[i])
    ensures Matches(labels, es[i])
  {
    hide Requirement.AllowsAbsence, Requirement.Has;
    if es[i].key in labels {
      PresentKeyExact(labels, es, es[i].key);
    }
  }

  lemma DecidesIffMatches(labels: LabelMap, es: seq<Expression>)
    requires Acceptable(es) && CanonicalSelector(es)
    ensures MatchesAll(labels, es) <==>
            Decides(labels, Folded(es)) && forall i :: 0 <= i < |es| && es[i].key !in labels ==> ToleratesAbsence(es[i])
  {
    hide Requirement.AllowsAbsence, Requirement.Has;
    if MatchesAll(labels, es) {
      forall k | k in Folded(es) { MatchesThenDecides(labels, es, k); }
    } else if Decides(labels,
      Folded(es)) && forall i :: 0 <= i < |es| && es[i].key !in labels ==> ToleratesAbsence(es[i]) {
      forall i | 0 <= i < |es| { DecidesThenMatches(labels, es, i); }
    }
  }

  /**
   For every label map and every list of expressions: the folded list is compatible with
   the labels, and no expression on an absent key insists that it be present, exactly when
   Kubernetes would match the list with all keys canonical.
   */
  lemma AgreedMatchesIffCompatible(labels: LabelMap, es: seq<Expression>)
    requires Acceptable(es)
    ensures Acceptable(Renamed(es))
    ensures MatchesAll(Agreed(labels), Renamed(es)) <==>
            Compatible(LabelRequirements(labels), Folded(es), {}) &&
            forall i :: 0 <= i < |es| && Normalize(es[i].key) !in Agreed(labels) ==> ToleratesAbsence(es[i])
  {
    hide Compatible, MatchesAll, Decides, Agreed, LabelRequirements, AddAll;
    FoldedNormal(es);
    RenamedFoldsAlike(es);
    CompatibleWithLabels(labels, Folded(es));
    DecidesIffMatches(Agreed(labels), Renamed(es));
  }

  /** The key as it is spelled has exactly the value that all its spellings agree on. */
  ghost predicate Faithful(labels: LabelMap, key: string) {
    && (key in labels <==> Normalize(key) in Agreed(labels))
    && (key in labels ==> labels[key] == Agreed(labels)[Normalize(key)])
  }

  ghost predicate SameMatch(labels: LabelMap, e: Expression)
    requires e.Valid()
  {
    Matches(labels, e) <==> Matches(Agreed(labels), e.(key := Normalize(e.key)))
  }

  /** Kubernetes and the canonical reading agree on every expression on a key exactly if the key is faithful. */
  lemma FaithfulIff(labels: LabelMap, key: string)
    ensures Faithful(labels, key) <==>
            forall e: Expression :: e.Valid() && e.key == key ==> SameMatch(labels, e)
  {
    hide Agreed;
    if forall e: Expression :: e.Valid() && e.key == key ==> SameMatch(labels, e) {
      assert SameMatch(labels, Expression(key, Exists, [], None));
      if key in labels {
        assert SameMatch(labels, Expression(key, In, [labels[key]], None));
      }
    }
  }

  /** The canonical spelling of a key is there whenever another one is, with the same value. */
  predicate AliasesAgree(labels: LabelMap) {
    forall k :: k in labels ==> Normalize(k) in labels && labels[Normalize(k)] == labels[k]
  }

  /** On such a node every canonical key is faithful, and so is every spelling the node carries. */
  lemma AgreeingIsFaithful(labels: LabelMap, key: string)
    requires AliasesAgree(labels) && (Canonical(key) || key in labels)
    ensures Faithful(labels, key)
  {
    var k := Normalize(key);
    NormalizeIsCanonical(key);
    if k in labels {
      assert labels[k] in AgreedValues(labels, k);
      assert k in CanonicalKeys(labels);
    } else {
      assert key !in labels && k !in CanonicalKeys(labels);
    }
  }

  ghost predicate AllFaithful(labels: LabelMap, es: seq<Expression>) {
    forall i :: 0 <= i < |es| ==> Faithful(labels, es[i].key)
  }

  /**
   Kubernetes matches a list of expressions on faithful keys exactly when the folded list
   is compatible with the labels and no expression on an absent key insists that the key
   be present.
   */
  lemma MatchesIffCompatible(labels: LabelMap, es: seq<Expression>)
    requires Acceptable(es) && AllFaithful(labels, es)
    ensures MatchesAll(labels, es) <==>
            Compatible(LabelRequirements(labels), Folded(es), {}) &&
            forall i :: 0 <= i < |es| && es[i].key !in labels ==> ToleratesAbsence(es[i])
  {
    hide Compatible, Agreed, LabelRequirements, AddAll;
    AgreedMatchesIffCompatible(labels, es);
    forall i | 0 <= i < |es| ensures Matches(labels, es[i]) <==> Matches(Agreed(labels), Renamed(es)[i]) {
      FaithfulIff(labels, es[i].key);
      assert SameMatch(labels, es[i]);
    }
  }

  lemma {:induction false} FoldedSingle(m: Requirements, rs: seq<Requirement>, j: nat)
    requires j < |rs| && rs[j].key !in m
    requires forall i, i' :: 0 <= i < i' < |rs| ==> rs[i].key != rs[i'].key
    ensures rs[j].key in AddAll(m, rs) && AddAll(m, rs)[rs[j].key] == rs[j]
    decreases |rs|
  {
    if j > 0 {
      FoldedSingle(Add(m, rs[0]), rs[1..], j - 1);
    } else {
      FoldedUntouched(Add(m, rs[0]), rs[1..], rs[0].key);
    }
  }

  lemma {:induction false} FoldedUntouched(m: Requirements, rs: seq<Requirement>, k: string)
    requires k in m && forall i :: 0 <= i < |rs| ==> rs[i].key != k
    ensures k in AddAll(m, rs) && AddAll(m, rs)[k] == m[k]
    decreases |rs|
  {
    if rs != [] {
      FoldedUntouched(Add(m, rs[0]), rs[1..], k);
    }
  }

  /** With one expression per key, compatibility is exactly the Kubernetes node selector. */
  lemma OneExpressionPerKey(labels: LabelMap, es: seq<Expression>)
    requires Acceptable(es) && AllFaithful(labels, es)
    requires forall i, j :: 0 <= i < j < |es| ==> Normalize(es[i].key) != Normalize(es[j].key)
    ensures MatchesAll(labels, es) <==> Compatible(LabelRequirements(labels), Folded(es), {})
  {
    hide Compatible, MatchesAll, Requirement.AllowsAbsence, Requirement.Has, AddAll, LabelRequirements, WellFormed,
      Agreed;
    MatchesIffCompatible(labels, es);
    FoldedNormal(es);
    CompatibleWithLabels(labels, Folded(es));
    if Compatible(LabelRequirements(labels), Folded(es), {}) {
      forall i | 0 <= i < |es| && es[i].key !in labels ensures ToleratesAbsence(es[i]) {
        assert Faithful(labels, es[i].key);
        assert forall k :: 0 <= k < |es| ==> RequirementList(es)[k].key == Normalize(es[k].key);
        FoldedSingle(map[], RequirementList(es), i);
        AbsentExpression(es[i]);
      }
    }
  }

  /** A node whose two architecture labels disagree is refused although Kubernetes accepts it. */
  lemma DisagreeingLabelsExample()
    ensures
      var labels := map[ARCH := "amd64", "beta.kubernetes.io/arch" := "arm64"];
      var es := [Expression(ARCH, In, ["amd64"], None)];
      Acceptable(es) && MatchesAll(labels, es) && !Compatible(LabelRequirements(labels), Folded(es), {})
  {
    var labels := map[ARCH := "amd64", "beta.kubernetes.io/arch" := "arm64"];
    var e := Expression(ARCH, In, ["amd64"], None);
    var es := [e];
    assert Normalize(ARCH) == ARCH by { NormalizeIsCanonical("beta.kubernetes.io/arch"); }
    assert "amd64"[1] != "arm64"[1];
    assert AgreedValues(labels, ARCH) == {} by {
      assert ARCH in labels && "beta.kubernetes.io/arch" in labels && Normalize("beta.kubernetes.io/arch") == ARCH;
    }
    FoldedNormal(es);
    CompatibleWithLabels(labels, Folded(es));
    FoldedSingle(map[], RequirementList(es), 0);
    AbsentExpression(e);
  }

  /** Two expressions on one absent key: `Exists` and `NotIn` fold to `NotIn`, which accepts the node. */
  lemma MixedExpressionsExample()
    ensures
      var es := [Expression("k", Exists, [], None), Expression("k", NotIn, ["a"], None)];
      Acceptable(es) && !MatchesAll(map[], es) && Compatible(LabelRequirements(map[]), Folded(es), {})
  {
    var es := [Expression("k", Exists, [], None), Expression("k", NotIn, ["a"], None)];
    assert Acceptable(es);
    assert !Matches(map[], es[0]);
    var rs := RequirementList(es);
    assert rs[1..] == [rs[1]] && rs[1..][1..] == [];
    assert Folded(es) == AddAll(Add(map[], rs[0]), [rs[1]]) == AddAll(Add(Add(map[], rs[0]), rs[1]), []);
    var r := rs[1].Intersection(rs[0]);
    assert "a" in r.values;
    assert Folded(es) == map["k" := r];
  }
}
