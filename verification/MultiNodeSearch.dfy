/**
 Multi-node consolidation: a binary search for the longest prefix of the candidates that
 can be consolidated together.
 */
module MultiNodeSearch {

  /**
   What a consolidation attempt for a prefix yields: it fails outright, or the prefix can or
   cannot be consolidated.
   */
  datatype Attempt = Failed | Feasible | Infeasible

  datatype Outcome = Error | Found(length: nat) | Nothing

  /** The longest prefix the search looks at. */
  function Longest(n: nat, cap: nat): int { if n <= cap then n else cap + 1 }

  predicate DownwardClosed(attempt: nat -> Attempt, n: nat) {
    forall j, k :: 2 <= j <= k <= n && attempt(k).Feasible? ==> attempt(j).Feasible?
  }

  /** If shorter prefixes of a feasible prefix are feasible, the search finds the longest feasible one. */
  lemma FindsLongest(n: nat, cap: nat, attempt: nat -> Attempt, outcome: Outcome, k: nat)
    requires DownwardClosed(attempt, n) && 2 <= k <= Longest(n, cap) && attempt(k).Feasible?
    requires outcome.Found? && outcome.length < Longest(n, cap) ==> attempt(outcome.length + 1).Infeasible?
    requires outcome.Nothing? && Longest(n, cap) >= 2 ==> attempt(2).Infeasible?
    requires outcome.Found? ==> outcome.length >= 2
    ensures !outcome.Nothing? && (outcome.Found? ==> k <= outcome.length)
  {
    assert attempt(2).Feasible?;
  }

  /** The longest feasible one of the prefixes tried, if there is any. */
  predicate BestOf(tried: seq<nat>, attempt: nat -> Attempt, outcome: Outcome) {
    match outcome
    case Error => false
    case Nothing => forall k :: k in tried ==> !attempt(k).Feasible?
    case Found(length) =>
      length in tried && attempt(length).Feasible? && forall k :: k in tried && attempt(k).Feasible? ==> k <= length
  }

  lemma OneMoreTried(tried: seq<nat>, k: nat, attempt: nat -> Attempt, saved: Outcome)
    requires BestOf(tried, attempt, saved)
    ensures !attempt(k).Feasible? ==> BestOf(tried + [k], attempt, saved)
    ensures attempt(k).Feasible? && (saved.Found? ==> saved.length <= k) ==> BestOf(tried + [k], attempt, Found(k))
    ensures forall x :: x in tried + [k] <==> x in tried || x == k
  {}

  function Pow2(n: nat): nat { if n == 0 then 1 else 2 * Pow2(n - 1) }

  /** After so many rounds, a range of this size is left of what was less than `all`. */
  predicate Halving(rounds: nat, size: int, all: int) { Pow2(rounds) * size < all }

  lemma Halved(rounds: nat, size: nat, rest: nat, all: int)
    requires size >= 1 && 2 * rest <= size && Halving(rounds, size, all)
    ensures Halving(rounds + 1, rest, all) && Pow2(rounds) < all
  {
    var p := Pow2(rounds);
    assert p * size >= p * (2 * rest) && p * (2 * rest) == 2 * p * rest;
    assert p * size >= p * 1;
  }

  /** Prefixes that may be judged, one per round, in rounds that are in time; halving takes no more. */
  predicate Rounds(tried: seq<nat>, n: nat, cap: nat, late: nat -> bool) {
    && (forall k :: k in tried ==> 2 <= k <= n && k <= cap + 1)
    && (forall i :: 0 <= i < |tried| ==> !late(i))
    && (tried != [] ==> Pow2(|tried| - 1) < Longest(n, cap))
  }

  lemma NothingTried(n: nat, cap: nat, attempt: nat -> Attempt, late: nat -> bool)
    ensures Rounds([], n, cap, late) && BestOf([], attempt, Nothing)
  {}

  /** What is known when lengths from `min + 1` to `max + 1` are left to search. */
  predicate Searching(
    tried: seq<nat>, min: int, max: int, n: nat, cap: nat, attempt: nat -> Attempt, late: nat -> bool) {
    && (1 <= min <= max + 1 || (min == 1 && max == cap == 0)) && max <= cap && max < n
    && Rounds(tried, n, cap, late) && (forall k :: k in tried ==> !attempt(k).Failed?)
    && Halving(|tried|, max - min + 1, Longest(n, cap))
    && BestOf(tried, attempt, if min == 1 then Nothing else Found(min))
    && (max + 1 == Longest(n, cap) || (max + 2 in tried && attempt(max + 2).Infeasible?))
  }

  lemma StartsSearching(n: nat, cap: nat, attempt: nat -> Attempt, late: nat -> bool)
    requires n >= 2
    ensures Searching([], 1, if n <= cap then n - 1 else cap, n, cap, attempt, late)
  {}

  lemma GoesOnSearching(
    tried: seq<nat>, min: int, max: int, n: nat, cap: nat, attempt: nat -> Attempt, late: nat -> bool)
    requires Searching(tried, min, max, n, cap, attempt, late) && min <= max && !late(|tried|)
    ensures var mid := (min + max) / 2; var more := tried + [mid + 1];
      && Rounds(more, n, cap, late)
      && (attempt(mid + 1).Feasible? ==> Searching(more, mid + 1, max, n, cap, attempt, late))
      && (attempt(mid + 1).Infeasible? ==> Searching(more, min, mid - 1, n, cap, attempt, late))
  {
    hide Pow2, Halving, BestOf;
    var mid := (min + max) / 2;
    Halved(|tried|, max - min + 1, max - mid, Longest(n, cap));
    Halved(|tried|, max - min + 1, mid - min, Longest(n, cap));
    OneMoreTried(tried, mid + 1, attempt, if min == 1 then Nothing else Found(min));
  }

  /** How a search that is over ended. */
  predicate Over(tried: seq<nat>, outcome: Outcome, timedOut: bool, n: nat, cap: nat, attempt: nat -> Attempt) {
    match outcome
    case Error => tried != [] && attempt(tried[|tried| - 1]).Failed?
    case Nothing =>
      BestOf(tried, attempt, outcome) && (timedOut || Longest(n, cap) < 2 || (2 in tried && attempt(2).Infeasible?))
    case Found(k) =>
      && BestOf(tried, attempt, outcome)
      && (timedOut || k == Longest(n, cap) || (k + 1 in tried && attempt(k + 1).Infeasible?))
  }

  /**
   Search among prefixes of `n` candidates; `attempt` judges the prefix of a given length,
   and `late` tells at which round the time is up.  `tried` are the prefix lengths judged,
   one per round.  The search is cut short only if time is up at the round it has come to;
   it then yields the best prefix tried so far.  It takes no more rounds than halving the
   range does.
   */
  method FirstN(n: nat, cap: nat, attempt: nat -> Attempt, late: nat -> bool)
    returns (outcome: Outcome, timedOut: bool, ghost tried: seq<nat>)
    ensures Rounds(tried, n, cap, late) && Over(tried, outcome, timedOut, n, cap, attempt)
    ensures timedOut ==> late(|tried|) && !outcome.Error?
    ensures !outcome.Error? ==> forall k :: k in tried ==> !attempt(k).Failed?
    ensures DownwardClosed(attempt, n) && !timedOut && !outcome.Error? ==>
              forall k :: 2 <= k <= Longest(n, cap) && attempt(k).Feasible? ==> outcome.Found? && k <= outcome.length
  {
    hide Halving, DownwardClosed, Rounds, BestOf;
    tried, timedOut := [], false;
    if n < 2 {
      NothingTried(n, cap, attempt, late);
      return Nothing, false, tried;
    }
    var min, max := 1, cap;
    if n <= cap {
      max := n - 1;
    }
    var saved := Nothing;
    var round := 0;
    StartsSearching(n, cap, attempt, late);
    while min <= max
      invariant Searching(tried, min, max, n, cap, attempt, late) && round == |tried|
      invariant saved == if min == 1 then Nothing else Found(min)
      decreases max - min
    {
      if late(round) {
        return saved, true, tried;
      }
      GoesOnSearching(tried, min, max, n, cap, attempt, late);
      round := round + 1;
      var mid := (min + max) / 2;
      tried := tried + [mid + 1];
      match attempt(mid + 1) {
        case Failed =>
          return Error, false, tried;
        case Feasible =>
          saved := Found(mid + 1);
          min := mid + 1;
        case Infeasible =>
          max := mid - 1;
      }
    }
    outcome := saved;
    if DownwardClosed(attempt, n) {
      forall k: nat | 2 <= k <= Longest(n, cap) && attempt(k).Feasible?
        ensures outcome.Found? && k <= outcome.length
      {
        FindsLongest(n, cap, attempt, outcome, k);
      }
    }
  }
}
