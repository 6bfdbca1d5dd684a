/**
 A conjunction of requirements, at most one per label key, and the tests that decide
 whether two conjunctions can be met together.
 */
module RequirementSets {
  import opened Common
  import opened Labels
  import opened RequirementAlgebra

  type Requirements = map<string, Requirement>

  predicate WellFormed(m: Requirements) { forall k :: k in m ==> m[k].key == k && m[k].Normal() }

  predicate AllNormal(rs: seq<Requirement>) { forall i :: 0 <= i < |rs| ==> rs[i].Normal() }

  /** The requirement on a key; an undefined key allows any value. */
  function Get(m: Requirements, key: string): Requirement {
    if key in m then m[key] else AnyValue(key)
  }

  /** Whether value `v` of label `key` is allowed. */
  predicate Allows(m: Requirements, key: string, v: string) { key in m ==> m[key].Has(v) }

  predicate HasMinValues(m: Requirements) { exists k :: k in m && m[k].minValues.Some? }

  // ----- Adding requirements

  function Add(m: Requirements, r: Requirement): Requirements {
    m[r.key := if r.key in m then r.Intersection(m[r.key]) else r]
  }

  function AddAll(m: Requirements, rs: seq<Requirement>): Requirements
    decreases |rs|
  {
    if rs == [] then m else AddAll(Add(m, rs[0]), rs[1..])
  }

  function NewRequirements(rs: seq<Requirement>): Requirements { AddAll(map[], rs) }

  method AddInOrder(m: Requirements, rs: seq<Requirement>) returns (result: Requirements)
    ensures result == AddAll(m, rs)
  {
    result := m;
    for i := 0 to |rs|
      invariant AddAll(result, rs[i..]) == AddAll(m, rs)
    {
      assert rs[i..][1..] == rs[i + 1..];
      result := Add(result, rs[i]);
    }
  }

  lemma AddIsWellFormed(m: Requirements, r: Requirement)
    requires WellFormed(m) && r.Normal()
    ensures WellFormed(Add(m, r)) && Add(m, r).Keys == m.Keys + {r.key}
  {
    if r.key in m {
      IntersectionIsNormal(r, m[r.key]);
    }
  }

  lemma {:induction false} AddAllIsWellFormed(m: Requirements, rs: seq<Requirement>)
    requires WellFormed(m) && AllNormal(rs)
    ensures WellFormed(AddAll(m, rs))
    decreases |rs|
  {
    if rs != [] {
      AddIsWellFormed(m, rs[0]);
      AddAllIsWellFormed(Add(m, rs[0]), rs[1..]);
    }
  }

  lemma AddCommutes(m: Requirements, a: Requirement, b: Requirement)
    requires WellFormed(m) && a.Normal() && b.Normal()
    ensures Add(Add(m, a), b) == Add(Add(m, b), a)
  {
    hide Requirement.Intersection, Requirement.Normal, WellFormed;
    if a.key == b.key {
      SameKeyCommutes(m, a, b);
    }
    forall k ensures k in Add(Add(m, a), b) <==> k in Add(Add(m, b), a) {}
    forall k | k in Add(Add(m, a), b) ensures Add(Add(m, a), b)[k] == Add(Add(m, b), a)[k] {}
  }

  lemma SameKeyCommutes(m: Requirements, a: Requirement, b: Requirement)
    requires WellFormed(m) && a.Normal() && b.Normal() && a.key == b.key
    ensures Add(Add(m, a), b)[a.key] == Add(Add(m, b), a)[a.key]
  {
    hide Requirement.Intersection, Requirement.Normal;
    IntersectionCommutative(a, b);
    if a.key in m {
      IntersectionAssociative(b, a, m[a.key]);
      IntersectionAssociative(a, b, m[a.key]);
    }
  }

  lemma {:induction false} AddCommutesWithAll(m: Requirements, a: Requirement, rs: seq<Requirement>)
    requires WellFormed(m) && a.Normal() && AllNormal(rs)
    ensures AddAll(Add(m, a), rs) == Add(AddAll(m, rs), a)
    decreases |rs|
  {
    if rs != [] {
      AddCommutes(m, a, rs[0]);
      AddIsWellFormed(m, rs[0]);
      AddCommutesWithAll(Add(m, rs[0]), a, rs[1..]);
    }
  }

  lemma {:induction false} AddAllAppend(m: Requirements, xs: seq<Requirement>, ys: seq<Requirement>)
    ensures AddAll(m, xs + ys) == AddAll(AddAll(m, xs), ys)
    decreases |xs|
  {
    if xs == [] {
      assert xs + ys == ys;
    } else {
      assert (xs + ys)[1..] == xs[1..] + ys;
      AddAllAppend(Add(m, xs[0]), xs[1..], ys);
    }
  }

  /** The order in which requirements are added does not matter. */
  lemma {:induction false} AddAllPermutation(m: Requirements, xs: seq<Requirement>, ys: seq<Requirement>)
    requires WellFormed(m) && AllNormal(xs) && multiset(xs) == multiset(ys)
    ensures AllNormal(ys) && AddAll(m, xs) == AddAll(m, ys)
    decreases |xs|
  {
    PermutationMembers(xs, ys);
    assert AllNormal(ys) by {
      forall i | 0 <= i < |ys| ensures ys[i].Normal() { assert ys[i] in xs; }
    }
    if xs != [] {
      var i := PermutationHead(xs, ys);
      AddIsWellFormed(m, xs[0]);
      AddAllPermutation(Add(m, xs[0]), xs[1..], Without(ys, i));
      assert ys == ys[..i] + ([ys[i]] + ys[i + 1..]);
      AddAllAppend(m, ys[..i], [ys[i]] + ys[i + 1..]);
      AddAllAppend(Add(m, xs[0]), ys[..i], ys[i + 1..]);
      AddCommutesWithAll(m, xs[0], ys[..i]);
      assert ([ys[i]] + ys[i + 1..])[1..] == ys[i + 1..];
    }
  }

  // ----- Adding one conjunction to another

  /** `rs` lists the requirements of `n`, each once, in some order. */
  predicate Lists(rs: seq<Requirement>, n: Requirements) {
    && (forall i :: 0 <= i < |rs| ==> rs[i].key in n && n[rs[i].key] == rs[i])
    && (forall i, j :: 0 <= i < j < |rs| ==> rs[i].key != rs[j].key)
    && (forall k :: k in n ==> n[k] in rs)
  }

  /** The conjunction of two conjunctions. */
  function Meet(m: Requirements, n: Requirements): Requirements {
    map k | k in m.Keys + n.Keys ::
      if k !in n then m[k] else if k !in m then n[k] else n[k].Intersection(m[k])
  }

  lemma MeetOneMore(m: Requirements, n: Requirements, r: Requirement)
    requires r.key in n && n[r.key] == r
    ensures Meet(Add(m, r), n - {r.key}) == Meet(m, n)
  {
    hide Requirement.Intersection;
    var left, right := Meet(Add(m, r), n - {r.key}), Meet(m, n);
    assert left.Keys == right.Keys;
    forall k | k in right ensures left[k] == right[k] {}
  }

  lemma ListsTail(rs: seq<Requirement>, n: Requirements)
    requires rs != [] && WellFormed(n) && Lists(rs, n)
    ensures Lists(rs[1..], n - {rs[0].key})
  {
    var n' := n - {rs[0].key};
    forall k | k in n' ensures n'[k] in rs[1..] {
      var i :| 0 <= i < |rs| && rs[i] == n[k];
      assert i != 0 && rs[1..][i - 1] == n[k];
    }
  }

  /** Adding every requirement of `n` to `m` gives their conjunction, whatever order `n` is walked in. */
  lemma {:induction false} AddListed(m: Requirements, n: Requirements, rs: seq<Requirement>)
    requires WellFormed(m) && WellFormed(n) && Lists(rs, n)
    ensures AddAll(m, rs) == Meet(m, n)
    decreases |rs|
  {
    hide Requirement.Intersection;
    if rs == [] {
      forall k ensures k !in n.Keys {}
      assert Meet(m, n) == m;
    } else {
      ListsTail(rs, n);
      AddIsWellFormed(m, rs[0]);
      AddListed(Add(m, rs[0]), n - {rs[0].key}, rs[1..]);
      MeetOneMore(m, n, rs[0]);
    }
  }

  /** Rebuilding a conjunction from its own requirements, in any order, copies it. */
  lemma CopyListed(n: Requirements, rs: seq<Requirement>)
    requires WellFormed(n) && Lists(rs, n)
    ensures NewRequirements(rs) == n
  {
    AddListed(map[], n, rs);
    assert Meet(map[], n) == n;
  }

  lemma MeetIsWellFormed(m: Requirements, n: Requirements)
    requires WellFormed(m) && WellFormed(n)
    ensures WellFormed(Meet(m, n))
  {
    forall k | k in Meet(m, n) ensures Meet(m, n)[k].key == k && Meet(m, n)[k].Normal() {
      if k in m && k in n {
        IntersectionIsNormal(n[k], m[k]);
      }
    }
  }

  /** A conjunction of conjunctions allows what both allow. */
  lemma MeetAllows(m: Requirements, n: Requirements, key: string, v: string)
    ensures Allows(Meet(m, n), key, v) <==> Allows(m, key, v) && Allows(n, key, v)
  {
    if key in m && key in n {
      IntersectionHas(n[key], m[key], v);
    }
  }

  lemma AddAllows(m: Requirements, r: Requirement, key: string, v: string)
    requires WellFormed(m) && r.Normal()
    ensures Allows(Add(m, r), key, v) <==> Allows(m, key, v) && (key == r.key ==> r.Has(v))
  {
    if key == r.key && key in m {
      IntersectionHas(r, m[key], v);
    }
  }

  lemma {:induction false} AddAllAllows(m: Requirements, rs: seq<Requirement>, key: string, v: string)
    requires WellFormed(m) && AllNormal(rs)
    ensures Allows(AddAll(m, rs), key, v) <==>
            Allows(m, key, v) && forall i :: 0 <= i < |rs| && rs[i].key == key ==> rs[i].Has(v)
    decreases |rs|
  {
    if rs != [] {
      AddIsWellFormed(m, rs[0]);
      AddAllows(m, rs[0], key, v);
      AddAllAllows(Add(m, rs[0]), rs[1..], key, v);
      assert forall i :: 0 < i < |rs| ==> rs[i] == rs[1..][i - 1];
    }
  }

  /** `narrow` allows no label value that `wide` forbids. */
  ghost predicate Narrows(narrow: Requirements, wide: Requirements) {
    forall key, v :: Allows(narrow, key, v) ==> Allows(wide, key, v)
  }

  lemma MeetNarrows(m: Requirements, n: Requirements)
    ensures Narrows(Meet(m, n), m) && Narrows(Meet(m, n), n)
  {
    forall key, v | Allows(Meet(m, n), key, v) ensures Allows(m, key, v) && Allows(n, key, v) {
      MeetAllows(m, n, key, v);
    }
  }

  /** The key is confined to a finite set of values. */
  predicate Finite(m: Requirements, key: string) { key in m && !m[key].complement }

  lemma MeetFinite(m: Requirements, n: Requirements, key: string)
    ensures Finite(m, key) || Finite(n, key) ==> Finite(Meet(m, n), key)
  {}

  // ----- Compatibility

  predicate Intersects(r: Requirements, other: Requirements) {
    forall k :: k in r && k in other ==>
      r[k].Intersection(other[k]).Len() != 0 || (other[k].AllowsAbsence() && r[k].AllowsAbsence())
  }

  /** `r` can meet `other`; a key outside `allowUndefined` must be defined unless `other` tolerates its absence. */
  predicate Compatible(r: Requirements, other: Requirements, allowUndefined: set<string>) {
    && (forall k :: k in other && k !in allowUndefined ==> k in r || other[k].AllowsAbsence())
    && Intersects(r, other)
  }

  // ----- Expressions as requirements

  predicate AllValid(es: seq<Expression>) { forall i :: 0 <= i < |es| ==> es[i].Valid() }

  function RequirementList(es: seq<Expression>): (rs: seq<Requirement>)
    requires AllValid(es)
    ensures |rs| == |es| && forall i :: 0 <= i < |es| ==> rs[i] == FromExpression(es[i])
  {
    seq(|es|, i requires 0 <= i < |es| => FromExpression(es[i]))
  }

  /** The expressions folded into one requirement per key. */
  function Folded(es: seq<Expression>): Requirements
    requires AllValid(es)
  {
    NewRequirements(RequirementList(es))
  }

  lemma FoldedNormal(es: seq<Expression>)
    requires AllValid(es)
    ensures AllNormal(RequirementList(es)) && WellFormed(Folded(es))
  {
    forall i | 0 <= i < |es| ensures RequirementList(es)[i].Normal() {
      NewIsNormal(es[i].key, es[i].op, es[i].minValues, es[i].values);
    }
    AddAllIsWellFormed(map[], RequirementList(es));
  }

  /** More expressions allow less. */
  lemma FoldedNarrows(es: seq<Expression>, fewer: seq<Expression>)
    requires AllValid(es) && AllValid(fewer) && forall e :: e in fewer ==> e in es
    ensures Narrows(Folded(es), Folded(fewer))
  {
    FoldedNormal(es);
    FoldedNormal(fewer);
    forall key, v | Allows(Folded(es), key, v) ensures Allows(Folded(fewer), key, v) {
      AddAllAllows(map[], RequirementList(es), key, v);
      AddAllAllows(map[], RequirementList(fewer), key, v);
      forall i | 0 <= i < |fewer| && RequirementList(fewer)[i].key == key ensures RequirementList(fewer)[i].Has(v) {
        assert fewer[i] in fewer;
        var j :| 0 <= j < |es| && es[j] == fewer[i];
        assert RequirementList(es)[j] == RequirementList(fewer)[i];
      }
    }
  }

  // ----- Labels as requirements

  /** The values that every spelling of a key agrees on. */
  function AgreedValues(labels: map<string, string>, key: string): set<string> {
    set k | k in labels && Normalize(k) == key &&
      (forall j :: j in labels && Normalize(j) == key ==> labels[j] == labels[k]) :: labels[k]
  }

  function CanonicalKeys(labels: map<string, string>): set<string> { set k | k in labels :: Normalize(k) }

  function LabelRequirements(labels: map<string, string>): Requirements {
    map key | key in CanonicalKeys(labels) :: Requirement(key, false, AgreedValues(labels, key), None, None, None)
  }

  lemma LabelRequirementsWellFormed(labels: map<string, string>)
    ensures WellFormed(LabelRequirements(labels))
  {
    forall key | key in CanonicalKeys(labels) ensures Canonical(key) {
      var k :| k in labels && Normalize(k) == key;
      NormalizeIsCanonical(k);
    }
  }

  lemma AgreedValuesExtend(labels: map<string, string>, k: string, v: string, key: string)
    requires k !in labels
    ensures key != Normalize(k) ==> AgreedValues(labels[k := v], key) == AgreedValues(labels, key)
    ensures key == Normalize(k) && key !in CanonicalKeys(labels) ==> AgreedValues(labels[k := v], key) == {v}
    ensures key == Normalize(k) && key in CanonicalKeys(labels) ==>
              AgreedValues(labels[k := v], key) == {v} * AgreedValues(labels, key)
  {
    var labels' := labels[k := v];
    if key == Normalize(k) {
      assert labels'[k] == v;
      if key in CanonicalKeys(labels) {
        var j :| j in labels && Normalize(j) == key;
        assert labels'[j] == labels[j];
      }
    }
  }

  lemma LabelRequirementsExtend(labels: map<string, string>, k: string, v: string)
    requires k !in labels
    ensures LabelRequirements(labels[k := v]) == Add(LabelRequirements(labels), Exactly(k, v))
  {
    var labels', key := labels[k := v], Normalize(k);
    assert CanonicalKeys(labels') == CanonicalKeys(labels) + {key} by {
      assert k in labels' && forall j :: j in labels ==> j in labels';
    }
    var left, right := LabelRequirements(labels'), Add(LabelRequirements(labels), Exactly(k, v));
    forall x | x in left ensures left[x] == right[x] {
      AgreedValuesExtend(labels, k, v, x);
      if x == key && key in CanonicalKeys(labels) {
        IntersectFinite(Exactly(k, v), LabelRequirements(labels)[key]);
      }
    }
  }

  lemma IntersectFinite(a: Requirement, b: Requirement)
    requires !a.complement && !b.complement && a.minValues.None? && b.minValues.None?
    requires a.greaterThan.None? && a.lessThan.None? && b.greaterThan.None? && b.lessThan.None?
    ensures a.Intersection(b) == Requirement(a.key, false, a.values * b.values, None, None, None)
  {
    assert (set v | v in a.Combined(b) && Within(v, None, None)) == a.values * b.values;
  }

  /** Labels turned into requirements one at a time, in whatever order the map is walked. */
  method NewLabelRequirements(labels: map<string, string>) returns (r: Requirements)
    ensures r == LabelRequirements(labels)
  {
    r := map[];
    var todo := labels.Keys;
    ghost var done: map<string, string> := map[];
    assert LabelRequirements(done) == map[];
    while todo != {}
      invariant todo <= labels.Keys
      invariant done == map k | k in labels && k !in todo :: labels[k]
      invariant r == LabelRequirements(done)
      decreases todo
    {
      var k :| k in todo;
      LabelRequirementsExtend(done, k, labels[k]);
      r := Add(r, Exactly(k, labels[k]));
      todo := todo - {k};
      done := done[k := labels[k]];
    }
    assert done == labels;
  }
}
