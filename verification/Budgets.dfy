/**
 Disruption budgets: how many nodes of a pool may be disrupted at once for a reason, and
 how the disruption methods spend that allowance.
 */
module DisruptionBudgets {
  import opened Common

  datatype Reason = Underutilized | Empty | Drifted | Other(name: string)

  const WELL_KNOWN_REASONS := [Underutilized, Empty, Drifted]

  /** A number of nodes, a percentage of the pool, or text that is neither. */
  datatype Limit = Count(nodes: int) | Percent(percent: int) | Malformed

  /** Whether the budget's schedule makes it active now; a schedule can be unreadable. */
  datatype Schedule = Active | Inactive | Unreadable

  /** A budget without reasons applies to every well-known one. */
  datatype Budget = Budget(reasons: Option<seq<Reason>>, limit: Limit, schedule: Schedule)
  {
    function Reasons(): seq<Reason> { if reasons.None? then WELL_KNOWN_REASONS else reasons.value }

    predicate Misconfigured() { schedule.Unreadable? || (schedule.Active? && limit.Malformed?) }

    /** The number of nodes the budget allows; percentages are rounded up. */
    function Allowed(numNodes: nat): int {
      if Misconfigured() then 0
      else if schedule.Inactive? then MAX_INT32
      else match limit
        case Count(n) => n
        case Percent(p) => (p * numNodes + 99) / 100
        case Malformed => 0
    }
  }

  /**
   A budget that cannot be read allows nothing and one that is not active anything; otherwise
   it is the given number of nodes, or the least number that is not below the percentage.
   */
  lemma AllowedIs(b: Budget, numNodes: nat)
    ensures var a := b.Allowed(numNodes);
      match b.schedule
      case Unreadable => a == 0
      case Inactive => a == 2147483647
      case Active =>
        match b.limit
        case Count(n) => a == n
        case Percent(p) => 100 * (a - 1) < p * numNodes <= 100 * a
        case Malformed => a == 0
  {}

  /** Five percent of ten nodes is one node, which is more than five percent. */
  lemma FivePercentOfTen()
    ensures Budget(None, Percent(5), Active).Allowed(10) == 1
  {}

  /** The least any budget for the reason allows; a reason that is not well known starts at zero. */
  function Least(budgets: seq<Budget>, reason: Reason, numNodes: nat): int {
    if budgets == [] then if reason in WELL_KNOWN_REASONS then MAX_INT32 else 0
    else
      var before, b := Least(budgets[..|budgets| - 1], reason, numNodes), budgets[|budgets| - 1];
      if reason in b.Reasons() then Min(before, b.Allowed(numNodes)) else before
  }

  /** For a well-known reason this is the minimum over the budgets that apply to it. */
  lemma {:induction false} LeastIsMinimum(budgets: seq<Budget>, reason: Reason, numNodes: nat)
    requires reason in WELL_KNOWN_REASONS
    ensures forall b ::
      b in budgets && reason in b.Reasons() ==> Least(budgets, reason, numNodes) <= b.Allowed(numNodes)
    ensures Least(budgets, reason, numNodes) == MAX_INT32 ||
            exists b :: b in budgets && reason in b.Reasons() && b.Allowed(numNodes) == Least(budgets, reason, numNodes)
  {
    if budgets != [] {
      var n := |budgets| - 1;
      LeastIsMinimum(budgets[..n], reason, numNodes);
      assert budgets == budgets[..n] + [budgets[n]];
    }
  }

  predicate AnyMisconfigured(budgets: seq<Budget>) { exists b :: b in budgets && b.Misconfigured() }

  /** The reasons that occur, with what the budgets allow for each. */
  predicate Allowances(allowed: map<Reason, int>, budgets: seq<Budget>, numNodes: nat) {
    && (forall r :: r in WELL_KNOWN_REASONS ==> r in allowed)
    && (forall r :: r in allowed ==> allowed[r] == Least(budgets, r, numNodes))
  }

  method GetAllowedDisruptionsByReason(budgets: seq<Budget>, numNodes: nat)
    returns (allowed: map<Reason, int>, ok: bool)
    ensures ok <==> !AnyMisconfigured(budgets)
    ensures Allowances(allowed, budgets, numNodes)
    ensures forall r :: r !in allowed ==> Least(budgets, r, numNodes) == 0
  {
    allowed, ok := map r | r in WELL_KNOWN_REASONS :: MAX_INT32, true;
    for i := 0 to |budgets|
      invariant ok <==> !AnyMisconfigured(budgets[..i])
      invariant Allowances(allowed, budgets[..i], numNodes)
      invariant forall r :: r !in allowed ==> Least(budgets[..i], r, numNodes) == 0
    {
      assert budgets[..i + 1] == budgets[..i] + [budgets[i]] && budgets[..i + 1][..i] == budgets[..i];
      var b := budgets[i];
      if b.Misconfigured() {
        ok := false;
      }
      allowed := Lower(allowed, b.Reasons(), b.Allowed(numNodes));
    }
    assert budgets[..|budgets|] == budgets;
  }

  /** Every listed reason is lowered to the value; listing a reason twice changes nothing more. */
  method Lower(allowed: map<Reason, int>, reasons: seq<Reason>, value: int) returns (r: map<Reason, int>)
    ensures r.Keys == allowed.Keys + Elements(reasons)
    ensures forall k :: k in r ==>
              r[k] == if k in reasons then Min(if k in allowed then allowed[k] else 0, value) else allowed[k]
  {
    r := allowed;
    for i := 0 to |reasons|
      invariant r.Keys == allowed.Keys + Elements(reasons[..i])
      invariant forall k :: k in r ==>
                  r[k] == if k in reasons[..i] then Min(if k in allowed then allowed[k] else 0, value) else allowed[k]
    {
      assert reasons[..i + 1] == reasons[..i] + [reasons[i]];
      var k := reasons[i];
      r := r[k := Min(if k in r then r[k] else 0, value)];
    }
    assert reasons[..|reasons|] == reasons;
  }

  // ----- What a pool may still disrupt

  /** A node of the cluster as budgets see it. */
  datatype ClusterNode = ClusterNode(name: string, pool: string, managed: bool, initialized: bool, ready: bool,
    marked: bool)
  {
    predicate Counts(p: string) { managed && initialized && pool == p }

    predicate Disrupting() { !ready || marked }
  }

  datatype NodePool = NodePool(name: string, budgets: seq<Budget>)

  predicate DistinctNames(nodes: seq<ClusterNode>) {
    forall i, j :: 0 <= i < j < |nodes| ==> nodes[i].name != nodes[j].name
  }

  /** The nodes of a pool, and those of them that are being disrupted. */
  function Members(nodes: seq<ClusterNode>, pool: string): set<string> {
    set n | n in nodes && n.Counts(pool) :: n.name
  }

  function DisruptingNodes(nodes: seq<ClusterNode>, pool: string): set<string> {
    set n | n in nodes && n.Counts(pool) && n.Disrupting() :: n.name
  }

  type Counts = map<string, nat>

  function CountOf(m: Counts, pool: string): nat { if pool in m then m[pool] else 0 }

  method CountNodes(nodes: seq<ClusterNode>) returns (numNodes: Counts, disrupting: Counts)
    requires DistinctNames(nodes)
    ensures forall pool :: CountOf(numNodes, pool) == |Members(nodes, pool)|
    ensures forall pool :: CountOf(disrupting, pool) == |DisruptingNodes(nodes, pool)|
  {
    hide Members, DisruptingNodes;
    numNodes, disrupting := map[], map[];
    forall pool ensures |Members(nodes[..0], pool)| == 0 && |DisruptingNodes(nodes[..0], pool)| == 0 {
      NoNodes(nodes, pool);
    }
    for i := 0 to |nodes|
      invariant forall pool :: CountOf(numNodes, pool) == |Members(nodes[..i], pool)|
      invariant forall pool :: CountOf(disrupting, pool) == |DisruptingNodes(nodes[..i], pool)|
    {
      var n := nodes[i];
      forall pool
        ensures |Members(nodes[..i + 1], pool)| == |Members(nodes[..i], pool)| + (if n.Counts(pool) then 1 else 0)
        ensures |DisruptingNodes(nodes[..i + 1], pool)| ==
          |DisruptingNodes(nodes[..i], pool)| + (if n.Counts(pool) && n.Disrupting() then 1 else 0)
      {
        OneMoreMember(nodes, i, pool);
        OneMoreDisrupting(nodes, i, pool);
      }
      ghost var numBefore, disruptingBefore := numNodes, disrupting;
      if n.managed && n.initialized {
        numNodes := numNodes[n.pool := CountOf(numNodes, n.pool) + 1];
        if !n.ready || n.marked {
          disrupting := disrupting[n.pool := CountOf(disrupting, n.pool) + 1];
        }
      }
      forall pool
        ensures CountOf(numNodes, pool) == CountOf(numBefore, pool) + (if n.Counts(pool) then 1 else 0)
        ensures CountOf(disrupting, pool) ==
          CountOf(disruptingBefore, pool) + (if n.Counts(pool) && n.Disrupting() then 1 else 0)
      {}
    }
    assert nodes[..|nodes|] == nodes;
  }

  lemma NoNodes(nodes: seq<ClusterNode>, pool: string)
    ensures Members(nodes[..0], pool) == {} && DisruptingNodes(nodes[..0], pool) == {}
  {}

  lemma OneMoreMember(nodes: seq<ClusterNode>, i: nat, pool: string)
    requires DistinctNames(nodes) && i < |nodes|
    ensures |Members(nodes[..i + 1], pool)| == |Members(nodes[..i], pool)| + (if nodes[i].Counts(pool) then 1 else 0)
  {
    hide ClusterNode.Counts;
    var n, before := nodes[i], nodes[..i];
    assert nodes[..i + 1] == before + [n] && forall m :: m in before ==> m.name != n.name;
    assert Members(before + [n], pool) == Members(before, pool) + (if n.Counts(pool) then {n.name} else {});
  }

  lemma OneMoreDisrupting(nodes: seq<ClusterNode>, i: nat, pool: string)
    requires DistinctNames(nodes) && i < |nodes|
    ensures |DisruptingNodes(nodes[..i + 1], pool)| ==
            |DisruptingNodes(nodes[..i], pool)| + (if nodes[i].Counts(pool) && nodes[i].Disrupting() then 1 else 0)
  {
    hide ClusterNode.Counts, ClusterNode.Disrupting;
    var n, before := nodes[i], nodes[..i];
    assert nodes[..i + 1] == before + [n] && forall m :: m in before ==> m.name != n.name;
    assert DisruptingNodes(before + [n], pool) ==
           DisruptingNodes(before, pool) + (if n.Counts(pool) && n.Disrupting() then {n.name} else {});
  }

  type Allowance = map<string, map<Reason, int>>

  /** What may still be disrupted; a pool or reason that is not mentioned allows nothing. */
  function Left(m: Allowance, pool: string, reason: Reason): int {
    if pool in m && reason in m[pool] then m[pool][reason] else 0
  }

  ghost predicate NoDeficit(m: Allowance) { forall pool, reason :: Left(m, pool, reason) >= 0 }

  /** The limit that applies to a pool and reason; a misconfigured budget closes the whole pool. */
  function LimitFor(pool: NodePool, reason: Reason, numNodes: nat): int {
    if AnyMisconfigured(pool.budgets) then 0 else Least(pool.budgets, reason, numNodes)
  }

  ghost predicate Grants(m: Allowance, nodes: seq<ClusterNode>, pool: NodePool) {
    forall reason ::
      Left(m, pool.name, reason) ==
      Min(Max(LimitFor(pool, reason, |Members(nodes, pool.name)|) - |DisruptingNodes(nodes, pool.name)|, 0), MAX_INT32)
  }

  predicate DistinctPools(pools: seq<NodePool>) {
    forall i, j :: 0 <= i < j < |pools| ==> pools[i].name != pools[j].name
  }

  /** For every pool and reason, what the budgets allow minus what is being disrupted already. */
  method BuildDisruptionBudgets(nodes: seq<ClusterNode>, pools: seq<NodePool>) returns (mapping: Allowance)
    requires DistinctNames(nodes) && DistinctPools(pools)
    ensures NoDeficit(mapping) && forall pool :: pool in pools ==> Grants(mapping, nodes, pool)
    ensures forall name :: name in mapping ==> exists pool :: pool in pools && pool.name == name
  {
    mapping := map[];
    var numNodes, disrupting := CountNodes(nodes);
    for i := 0 to |pools|
      invariant NoDeficit(mapping) && forall j :: 0 <= j < i ==> Grants(mapping, nodes, pools[j])
      invariant forall name :: name in mapping ==> exists j :: 0 <= j < i && pools[j].name == name
    {
      var pool := pools[i];
      var allowed, ok := GetAllowedDisruptionsByReason(pool.budgets, CountOf(numNodes, pool.name));
      if !ok {
        allowed := map[];
      }
      var clamped := TakeOff(allowed, CountOf(disrupting, pool.name));
      ghost var before := mapping;
      mapping := mapping[pool.name := clamped];
      forall p, r ensures Left(mapping, p, r) == if p == pool.name
        then (if r in clamped then clamped[r] else 0) else Left(before, p, r) {}
    }
  }

  /** The allowances less the nodes being disrupted, never below zero. */
  method TakeOff(allowed: map<Reason, int>, disrupting: nat) returns (r: map<Reason, int>)
    ensures r.Keys == allowed.Keys && forall k :: k in r ==> r[k] == Min(Max(allowed[k] - disrupting, 0), MAX_INT32)
  {
    r := map[];
    var todo := allowed.Keys;
    while todo != {}
      invariant todo <= allowed.Keys && r.Keys == allowed.Keys - todo
      invariant forall k :: k in r ==> r[k] == Min(Max(allowed[k] - disrupting, 0), MAX_INT32)
      decreases todo
    {
      var k :| k in todo;
      todo := todo - {k};
      r := r[k := Min(Max(allowed[k] - disrupting, 0), MAX_INT32)];
    }
  }
}
