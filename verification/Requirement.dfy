/**
 One requirement on one label key: a finite set of allowed values, or the complement
 of a finite set, cut down by optional integer bounds.  What it means is the set of
 values it admits, `Has`; everything else is a fast representation of that set.
 */
module RequirementAlgebra {
  import opened Common
  import opened Strconv
  import opened Labels

  datatype Operator = In | NotIn | Exists | DoesNotExist | Gt | Lt

  /** A selector expression as users write it. */
  datatype Expression = Expression(key: string, op: Operator, values: seq<string>, minValues: Option<int>)
  {
    /** Bounds name exactly one integer; validation guarantees that a value is present. */
    predicate Valid() { op.Gt? || op.Lt? ==> values != [] }
  }

  function MaxOption(a: Option<int>, b: Option<int>): Option<int> {
    if a.None? then b else if b.None? then a else Some(Max(a.value, b.value))
  }

  function MinOption(a: Option<int>, b: Option<int>): Option<int> {
    if a.None? then b else if b.None? then a else Some(Min(a.value, b.value))
  }

  /** Once a bound is set, values that are not integers are excluded. */
  predicate Within(v: string, greaterThan: Option<int>, lessThan: Option<int>) {
    (greaterThan.None? && lessThan.None?) ||
    (&& Atoi(v).Some?
     && (greaterThan.Some? ==> greaterThan.value < Atoi(v).value)
     && (lessThan.Some? ==> Atoi(v).value < lessThan.value))
  }

  predicate Crossed(greaterThan: Option<int>, lessThan: Option<int>) {
    greaterThan.Some? && lessThan.Some? && greaterThan.value >= lessThan.value
  }

  datatype Requirement = Requirement(
    key: string,
    complement: bool,
    values: set<string>,
    greaterThan: Option<int>,
    lessThan: Option<int>,
    minValues: Option<int>)
  {
    predicate Has(v: string) {
      (if complement then v !in values else v in values) && Within(v, greaterThan, lessThan)
    }

    function Len(): int {
      if complement then MAX_INT64 - |values| else |values|
    }

    function Op(): Operator {
      if complement then (if Len() < MAX_INT64 then NotIn else Exists)
      else if Len() > 0 then In
      else DoesNotExist
    }

    /** The operators that a node without the label satisfies. */
    predicate AllowsAbsence() { Op() == NotIn || Op() == DoesNotExist }

    function Intersection(other: Requirement): Requirement {
      var g := MaxOption(greaterThan, other.greaterThan);
      var l := MinOption(lessThan, other.lessThan);
      var m := MaxOption(minValues, other.minValues);
      if Crossed(g, l) then
        New(key, DoesNotExist, m, [])
      else
        var kept := set v | v in Combined(other) && Within(v, g, l);
        if complement && other.complement then Requirement(key, true, kept, g, l, m)
        else Requirement(key, false, kept, None, None, m)
    }

    /** The value set of an intersection before the bounds are applied. */
    function Combined(other: Requirement): set<string> {
      if complement && other.complement then values + other.values
      else if complement then other.values - values
      else if other.complement then values - other.values
      else values * other.values
    }

    /**
     The shape every constructed or intersected requirement has: its key is canonical,
     a finite set carries no bounds, and a complement carries bounds that do not cross
     and excludes only values inside them.
     */
    predicate Normal() {
      && Canonical(key)
      && (!complement ==> greaterThan.None? && lessThan.None?)
      && (complement ==> !Crossed(greaterThan, lessThan) && forall v :: v in values ==>
        Within(v, greaterThan, lessThan))
    }

    /** No 64-bit integer lies strictly between the bounds. */
    predicate Gapless() {
      && (greaterThan.Some? || lessThan.Some?)
      && Max(MIN_INT64, if greaterThan.Some? then greaterThan.value + 1 else MIN_INT64)
       > Min(MAX_INT64, if lessThan.Some? then lessThan.value - 1 else MAX_INT64)
    }
  }

  function New(key: string, op: Operator, minValues: Option<int>, values: seq<string>): Requirement
    requires op.Gt? || op.Lt? ==> values != []
  {
    var k := Normalize(key);
    match op
    case In => Requirement(k, false, Elements(values), None, None, minValues)
    case NotIn => Requirement(k, true, Elements(values), None, None, minValues)
    case Exists => Requirement(k, true, {}, None, None, minValues)
    case DoesNotExist => Requirement(k, false, {}, None, None, minValues)
    case Gt => Requirement(k, true, {}, Some(AtoiIgnoringError(values[0])), None, minValues)
    case Lt => Requirement(k, true, {}, None, Some(AtoiIgnoringError(values[0])), minValues)
  }

  function FromExpression(e: Expression): Requirement
    requires e.Valid()
  {
    New(e.key, e.op, e.minValues, e.values)
  }

  /** `key In {value}`. */
  function Exactly(key: string, value: string): Requirement { New(key, In, None, [value]) }

  function AnyValue(key: string): Requirement { New(key, Exists, None, []) }

  lemma NewIsNormal(key: string, op: Operator, minValues: Option<int>, values: seq<string>)
    requires op.Gt? || op.Lt? ==> values != []
    ensures New(key, op, minValues, values).Normal()
  {
    NormalizeIsCanonical(key);
  }

  /** The bounds of an intersection admit what both sets of bounds admit. */
  lemma WithinMeet(v: string, g1: Option<int>, l1: Option<int>, g2: Option<int>, l2: Option<int>)
    ensures Within(v, MaxOption(g1, g2), MinOption(l1, l2)) <==> Within(v, g1, l1) && Within(v, g2, l2)
  {}

  /** Intersection is set intersection: a value is admitted by the result iff both admit it. */
  lemma IntersectionHas(a: Requirement, b: Requirement, v: string)
    ensures a.Intersection(b).Has(v) <==> a.Has(v) && b.Has(v)
  {
    WithinMeet(v, a.greaterThan, a.lessThan, b.greaterThan, b.lessThan);
  }

  lemma IntersectionIsNormal(a: Requirement, b: Requirement)
    requires a.Normal() && b.Normal()
    ensures a.Intersection(b).Normal() && a.Intersection(b).key == a.key
    ensures a.Intersection(b).complement ==> a.complement && b.complement
  {}

  lemma IntersectionIdempotent(a: Requirement)
    requires a.Normal()
    ensures a.Intersection(a) == a
  {
    assert (set v | v in a.Combined(a) && Within(v, a.greaterThan, a.lessThan)) == a.values;
  }

  lemma IntersectionCommutative(a: Requirement, b: Requirement)
    requires a.Normal() && b.Normal() && a.key == b.key
    ensures a.Intersection(b) == b.Intersection(a)
  {
    assert a.Combined(b) == b.Combined(a);
  }

  /** An intersection that meets crossed bounds anywhere is the empty set. */
  lemma IntersectionAssociative(a: Requirement, b: Requirement, c: Requirement)
    requires a.Normal() && b.Normal() && c.Normal() && a.key == b.key == c.key
    ensures a.Intersection(b).Intersection(c) == a.Intersection(b.Intersection(c))
  {
    var left, right := a.Intersection(b).Intersection(c), a.Intersection(b.Intersection(c));
    if !left.complement {
      SameFiniteSet(a, b, c);
    } else {
      SameCofiniteSet(a, b, c);
    }
  }

  lemma FlexibilityOf(a: Requirement, b: Requirement)
    ensures a.Intersection(b).minValues == MaxOption(a.minValues, b.minValues)
  {}

  /** An intersection is a co-set in one grouping iff it is in the other. */
  lemma SameKind(a: Requirement, b: Requirement, c: Requirement)
    requires a.Normal() && b.Normal() && c.Normal()
    ensures a.Intersection(b).Intersection(c).complement <==> a.Intersection(b.Intersection(c)).complement
  {
    hide Requirement.Intersection, Requirement.Normal;
    KindOf(a, b);
    KindOf(a.Intersection(b), c);
    KindOf(b, c);
    KindOf(a, b.Intersection(c));
  }

  lemma KindOf(a: Requirement, b: Requirement)
    ensures var r, g, l :=
      a.Intersection(b), MaxOption(a.greaterThan, b.greaterThan), MinOption(a.lessThan, b.lessThan);
      && (r.complement <==> a.complement && b.complement && !Crossed(g, l))
      && (r.complement ==> r.greaterThan == g && r.lessThan == l)
  {}

  lemma SameFiniteSet(a: Requirement, b: Requirement, c: Requirement)
    requires a.Normal() && b.Normal() && c.Normal() && a.key == b.key == c.key
    requires !a.Intersection(b).Intersection(c).complement
    ensures a.Intersection(b).Intersection(c) == a.Intersection(b.Intersection(c))
  {
    hide Requirement.Intersection, Requirement.Has;
    SameKind(a, b, c);
    FlexibilityOf(a, b);
    FlexibilityOf(a.Intersection(b), c);
    FlexibilityOf(b, c);
    FlexibilityOf(a, b.Intersection(c));
    var left, right := a.Intersection(b).Intersection(c), a.Intersection(b.Intersection(c));
    IntersectionIsNormal(a, b);
    IntersectionIsNormal(a.Intersection(b), c);
    IntersectionIsNormal(b, c);
    IntersectionIsNormal(a, b.Intersection(c));
    forall v ensures v in left.values <==> v in right.values {
      SameMembers(a, b, c, v);
      FiniteHas(left, v);
      FiniteHas(right, v);
    }
    assert left.values == right.values;
  }

  lemma FiniteHas(r: Requirement, v: string)
    requires r.Normal() && !r.complement
    ensures r.Has(v) <==> v in r.values
  {}

  lemma SameMembers(a: Requirement, b: Requirement, c: Requirement, v: string)
    requires a.Normal() && b.Normal() && c.Normal()
    ensures a.Intersection(b).Intersection(c).Has(v) <==> a.Intersection(b.Intersection(c)).Has(v)
  {
    hide Requirement.Intersection, Requirement.Has;
    IntersectionIsNormal(a, b);
    IntersectionIsNormal(b, c);
    IntersectionHas(a.Intersection(b), c, v);
    IntersectionHas(a, b, v);
    IntersectionHas(a, b.Intersection(c), v);
    IntersectionHas(b, c, v);
  }

  lemma SameCofiniteSet(a: Requirement, b: Requirement, c: Requirement)
    requires a.Normal() && b.Normal() && c.Normal() && a.key == b.key == c.key
    requires a.Intersection(b).Intersection(c).complement
    ensures a.Intersection(b).Intersection(c) == a.Intersection(b.Intersection(c))
  {
    assert a.complement && b.complement && c.complement;
    forall v ensures v in a.Intersection(b).Intersection(c).values <==> v in a.Intersection(b.Intersection(c)).values {
      SameExclusions(a, b, c, v);
    }
  }

  lemma SameExclusions(a: Requirement, b: Requirement, c: Requirement, v: string)
    requires a.complement && b.complement && c.complement && a.Intersection(b).Intersection(c).complement
    ensures v in a.Intersection(b).Intersection(c).values <==> v in a.Intersection(b.Intersection(c)).values
  {
    WithinMeet(v, a.greaterThan, a.lessThan, b.greaterThan, b.lessThan);
    WithinMeet(v, b.greaterThan, b.lessThan, c.greaterThan, c.lessThan);
    WithinMeet(v, a.Intersection(b).greaterThan, a.Intersection(b).lessThan, c.greaterThan, c.lessThan);
    WithinMeet(v, a.greaterThan, a.lessThan, b.Intersection(c).greaterThan, b.Intersection(c).lessThan);
  }

  /**
   The intersection as the code computes it: build the combined set, then delete in
   any order the values that fall outside the bounds.
   */
  method Intersect(a: Requirement, b: Requirement) returns (r: Requirement)
    ensures r == a.Intersection(b)
  {
    var complement := a.complement && b.complement;
    var g := MaxOption(a.greaterThan, b.greaterThan);
    var l := MinOption(a.lessThan, b.lessThan);
    var m := MaxOption(a.minValues, b.minValues);
    if g.Some? && l.Some? && g.value >= l.value {
      return New(a.key, DoesNotExist, m, []);
    }
    var values := a.Combined(b);
    var todo := values;
    while todo != {}
      invariant todo <= values <= a.Combined(b)
      invariant forall v :: v in a.Combined(b) && v !in todo ==> (v in values <==> Within(v, g, l))
      decreases todo
    {
      var v :| v in todo;
      todo := todo - {v};
      if !Within(v, g, l) {
        values := values - {v};
      }
    }
    assert values == set v | v in a.Combined(b) && Within(v, g, l);
    if !complement {
      g, l := None, None;
    }
    r := Requirement(a.key, complement, values, g, l, m);
  }

  /**
   What `Len() == 0` says about the set of admitted values.  It is exact except for a
   complement whose bounds leave no integer between them, which admits nothing and yet
   reports a huge length; a complement whose bounds leave an integer always admits
   something, because no finite set excludes every spelling of that integer.
   */
  lemma EmptyIffLenZeroOrGapless(r: Requirement)
    requires r.Normal() && |r.values| < MAX_INT64
    ensures (forall v :: !r.Has(v)) <==> r.Len() == 0 || (r.complement && r.Gapless())
  {
    if !r.complement {
      if r.values != {} {
        var v :| v in r.values;
        assert r.Has(v);
      } else {
        assert r.Len() == 0;
      }
    } else if !r.Gapless() {
      var n := Max(MIN_INT64, if r.greaterThan.Some? then r.greaterThan.value + 1 else MIN_INT64);
      var s := FreshSpelling(if r.greaterThan.None? && r.lessThan.None? then 0 else n, r.values);
      assert r.Has(s);
    }
  }

  /** Two bounds with nothing between them: the length test does not see that the set is empty. */
  lemma GaplessExample()
    ensures
      var r := New("k", Gt, None, ["4"]).Intersection(New("k", Lt, None, ["5"]));
      r.Normal() && r.Len() > 0 && forall v :: !r.Has(v)
  {
    assert "4"[..0] == [];
    assert "5"[..0] == [];
    var r := New("k", Gt, None, ["4"]).Intersection(New("k", Lt, None, ["5"]));
    NewIsNormal("k", Gt, None, ["4"]);
    NewIsNormal("k", Lt, None, ["5"]);
    IntersectionIsNormal(New("k", Gt, None, ["4"]), New("k", Lt, None, ["5"]));
    assert Magnitude("4") == 4 && Magnitude("5") == 5;
    assert r.greaterThan == Some(4) && r.lessThan == Some(5);
    assert r.values == {};
    EmptyIffLenZeroOrGapless(r);
  }

  /** How a requirement is written back out as an expression; only one bound survives. */
  predicate PrintsAs(r: Requirement, e: Expression) {
    && e.key == r.key && e.minValues == r.minValues
    && if r.greaterThan.Some? then e.op == Gt && e.values == [FormatInt(r.greaterThan.value)]
       else if r.lessThan.Some? then e.op == Lt && e.values == [FormatInt(r.lessThan.value)]
       else if r.values != {} then e.op == (if r.complement then NotIn else In) && Elements(e.values) == r.values
       else e.op == (if r.complement then Exists else DoesNotExist) && e.values == []
  }

  /**
   Writing a requirement out and reading it back gives the same requirement exactly when
   it has at most one bound and a bounded one excludes nothing else.
   */
  lemma PrintRoundTrip(r: Requirement, e: Expression)
    requires r.Normal() && PrintsAs(r, e)
    requires r.greaterThan.Some? ==> InRange(r.greaterThan.value)
    requires r.lessThan.Some? ==> InRange(r.lessThan.value)
    ensures FromExpression(e) == r <==>
            (r.greaterThan.None? || r.lessThan.None?) && (r.greaterThan.Some? || r.lessThan.Some? ==> r.values == {})
  {
    if r.greaterThan.Some? {
      AtoiFormatInt(r.greaterThan.value);
    } else if r.lessThan.Some? {
      AtoiFormatInt(r.lessThan.value);
    }
  }

  /** Greater than 1 and less than 5 is written as greater than 1 alone, which admits 7. */
  lemma PrintExample(e: Expression)
    ensures
      var r := Requirement("k", true, {}, Some(1), Some(5), None);
      PrintsAs(r, e) ==> !r.Has("7") && FromExpression(e).Has("7")
  {
    var r := Requirement("k", true, {}, Some(1), Some(5), None);
    assert "7"[..0] == [] && Magnitude("7") == 7;
    if PrintsAs(r, e) {
      AtoiFormatInt(1);
      assert FromExpression(e).greaterThan == Some(1);
    }
  }
}
