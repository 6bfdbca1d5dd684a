/**
 The queue that carries out disruption commands: wait until every replacement of a
 command has initialized, then delete its candidates; give up when a replacement is lost
 or the command takes too long.  Times are in milliseconds.
 */
module Orchestration {
  import opened Common

  type ProviderID = string

  type CommandID = nat

  const MAX_RETRY_DURATION := 600_000
  const CONSISTENCY_DELAY := 5_000

  datatype Replacement = Replacement(name: string, initialized: bool)

  /** What the API server says about a replacement's claim. */
  datatype Status = Missing | Unreachable | Pending | Ready

  /** What became of a request to delete a candidate's claim. */
  datatype Deletion = Deleted | Gone | Refused

  datatype Verdict = Complete | Retry | Unrecoverable

  // ----- Waiting for replacements

  datatype Wait = Wait(replacements: seq<Replacement>, lost: bool, pending: bool)

  /** The first `n` replacements looked at; a replacement that is lost ends the round. */
  function Awaited(rs: seq<Replacement>, n: nat, elapsed: int, api: string -> Status): (w: Wait)
    requires n <= |rs|
    ensures |w.replacements| == |rs|
  {
    if n == 0 then Wait(rs, false, false)
    else
      var w, r := Awaited(rs, n - 1, elapsed, api), rs[n - 1];
      if w.lost || r.initialized then w
      else match api(r.name)
        case Missing => if elapsed > CONSISTENCY_DELAY then w.(lost := true) else w.(pending := true)
        case Unreachable => w.(pending := true)
        case Pending => w.(pending := true)
        case Ready => w.(replacements := w.replacements[n - 1 := r.(initialized := true)])
  }

  /**
   A replacement counts as initialized only once it was seen so, and stays it; a round
   without trouble leaves all initialized.
   */
  lemma {:induction false} AwaitedMeans(rs: seq<Replacement>, n: nat, elapsed: int, api: string -> Status)
    requires n <= |rs|
    ensures var w := Awaited(rs, n, elapsed, api);
      && (forall i :: 0 <= i < |rs| ==> w.replacements[i].name == rs[i].name)
      && (forall i :: 0 <= i < |rs| ==>
            (w.replacements[i].initialized ==> rs[i].initialized || api(rs[i].name).Ready?) &&
              (rs[i].initialized ==> w.replacements[i].initialized))
      && (forall i :: n <= i < |rs| ==> w.replacements[i] == rs[i])
      && (!w.lost && !w.pending ==> forall i :: 0 <= i < n ==> w.replacements[i].initialized)
  {
    if n > 0 {
      AwaitedMeans(rs, n - 1, elapsed, api);
    }
  }

  // ----- One round for a command

  datatype Judgement = Judgement(replacements: seq<Replacement>, verdict: Verdict, deleted: set<ProviderID>)

  function Judged(
    rs: seq<Replacement>, candidates: seq<ProviderID>, elapsed: int, api: string -> Status,
      deletions: ProviderID -> Deletion): Judgement
  {
    var w := Awaited(rs, |rs|, elapsed, api);
    if elapsed > MAX_RETRY_DURATION then Judgement(rs, Unrecoverable, {})
    else if w.lost then Judgement(w.replacements, Unrecoverable, {})
    else if w.pending then Judgement(w.replacements, Retry, {})
    else Judgement(
      w.replacements,
      if exists c :: c in candidates && deletions(c).Refused? then Retry else Complete,
      set c | c in candidates && deletions(c).Deleted?)
  }

  /**
   Candidates are deleted only in a round that ends with every replacement initialized; a
   command past its time is given up.
   */
  lemma JudgedMeans(
    rs: seq<Replacement>, candidates: seq<ProviderID>, elapsed: int, api: string -> Status,
      deletions: ProviderID -> Deletion)
    ensures var j := Judged(rs, candidates, elapsed, api, deletions);
      && |j.replacements| == |rs|
      && (forall i :: 0 <= i < |rs| ==> j.replacements[i].name == rs[i].name)
      && (forall i :: 0 <= i < |rs| && j.replacements[i].initialized ==> rs[i].initialized || api(rs[i].name).Ready?)
      && (j.deleted != {} || j.verdict.Complete? ==> forall i :: 0 <= i < |rs| ==> j.replacements[i].initialized)
      && (forall c :: c in j.deleted ==> c in candidates)
      && (j.verdict.Complete? ==> forall c :: c in candidates ==> deletions(c).Gone? || c in j.deleted)
      && (elapsed > MAX_RETRY_DURATION ==> j.verdict.Unrecoverable? && j.deleted == {})
  {
    AwaitedMeans(rs, |rs|, elapsed, api);
  }

  /** The replacement is gone, and has had the time to show up. */
  predicate IsLost(r: Replacement, elapsed: int, api: string -> Status) {
    !r.initialized && api(r.name).Missing? && elapsed > 5_000
  }

  predicate IsAwaited(r: Replacement, api: string -> Status) { !r.initialized && !api(r.name).Ready? }

  /** The first `n` replacements looked at, one by one. */
  lemma {:induction false} AwaitedIff(rs: seq<Replacement>, n: nat, elapsed: int, api: string -> Status)
    requires n <= |rs|
    ensures var w := Awaited(rs, n, elapsed, api);
      && (w.lost <==> exists i :: 0 <= i < n && IsLost(rs[i], elapsed, api))
      && (!w.lost ==> (w.pending <==> exists i :: 0 <= i < n && IsAwaited(rs[i], api)))
      && (forall i :: 0 <= i < |rs| ==>
            w.replacements[i] == rs[i].(initialized :=
              rs[i].initialized || (i < n && api(rs[i].name).Ready? && !LostBefore(rs, i, elapsed, api))))
  {
    if n > 0 {
      AwaitedIff(rs, n - 1, elapsed, api);
    }
  }

  predicate LostBefore(rs: seq<Replacement>, n: nat, elapsed: int, api: string -> Status)
    requires n <= |rs|
  {
    exists i :: 0 <= i < n && IsLost(rs[i], elapsed, api)
  }

  /**
   The whole verdict from the answers.  A command is given up exactly if it is more than ten
   minutes old, or a replacement is missing after more than five seconds; it is tried again
   exactly if otherwise a replacement is not ready or a deletion was refused.  Candidates are
   deleted exactly if it is in time and every replacement is initialized or ready, and a
   replacement is noted as initialized when it is seen ready before a lost one.
   */
  lemma VerdictIff(
    rs: seq<Replacement>, candidates: seq<ProviderID>, elapsed: int, api: string -> Status,
    deletions: ProviderID -> Deletion)
    ensures
      var j := Judged(rs, candidates, elapsed, api, deletions);
      var late := elapsed > 600_000;
      var lost := exists r :: r in rs && IsLost(r, elapsed, api);
      var waits := exists r :: r in rs && IsAwaited(r, api);
      var refused := exists c :: c in candidates && deletions(c).Refused?;
      && j.verdict == (if late || lost then Unrecoverable else if waits || refused then Retry else Complete)
      && j.deleted == (if late || waits then {} else set c | c in candidates && deletions(c).Deleted?)
      && |j.replacements| == |rs|
      && forall i :: 0 <= i < |rs| ==>
           j.replacements[i] == rs[i].(initialized :=
             rs[i].initialized || (!late && api(rs[i].name).Ready? && !LostBefore(rs, i, elapsed, api)))
  {
    hide Awaited;
    AwaitedIff(rs, |rs|, elapsed, api);
    var w := Awaited(rs, |rs|, elapsed, api);
    assert w.lost <==> exists r :: r in rs && IsLost(r, elapsed, api);
    assert !w.lost ==> (w.pending <==> exists r :: r in rs && IsAwaited(r, api));
    assert forall r :: IsLost(r, elapsed, api) ==> IsAwaited(r, api);
  }

  // ----- Marks on cluster nodes

  class ClusterMarks {
    var nodes: set<ProviderID>
    var marked: set<ProviderID>
    var tainted: set<ProviderID>         // nodes last asked to carry the disruption taint

    constructor (nodes: set<ProviderID>)
      ensures this.nodes == nodes && marked == {} && tainted == {}
    {
      this.nodes, marked, tainted := nodes, {}, {};
    }

    method RequireNoScheduleTaint(add: bool, ids: seq<ProviderID>)
      modifies this`tainted
      ensures tainted == if add then old(tainted) + Elements(ids) else old(tainted) - Elements(ids)
    {
      for i := 0 to |ids|
        invariant tainted == if add then old(tainted) + Elements(ids[..i]) else old(tainted) - Elements(ids[..i])
      {
        assert ids[..i + 1] == ids[..i] + [ids[i]];
        tainted := if add then tainted + {ids[i]} else tainted - {ids[i]};
      }
      assert ids[..|ids|] == ids;
    }

    /** Only nodes the cluster knows can be marked. */
    method MarkForDeletion(ids: seq<ProviderID>)
      modifies this`marked
      ensures marked == old(marked) + (Elements(ids) * nodes)
    {
      for i := 0 to |ids|
        invariant marked == old(marked) + (Elements(ids[..i]) * nodes)
      {
        assert ids[..i + 1] == ids[..i] + [ids[i]];
        if ids[i] in nodes {
          marked := marked + {ids[i]};
        }
      }
      assert ids[..|ids|] == ids;
    }

    method UnmarkForDeletion(ids: seq<ProviderID>)
      modifies this`marked
      ensures marked == old(marked) - (Elements(ids) * nodes)
    {
      for i := 0 to |ids|
        invariant marked == old(marked) - (Elements(ids[..i]) * nodes)
      {
        assert ids[..i + 1] == ids[..i] + [ids[i]];
        if ids[i] in nodes {
          marked := marked - {ids[i]};
        }
      }
      assert ids[..|ids|] == ids;
    }
  }

  // ----- Commands and the queue

  function Fresh(names: seq<string>): seq<Replacement> {
    seq(|names|, i requires 0 <= i < |names| => Replacement(names[i], false))
  }

  class Command {
    const id: CommandID
    const candidates: seq<ProviderID>
    var replacements: seq<Replacement>
    var timeAdded: int
    var failedBefore: bool

    constructor (id: CommandID, names: seq<string>, candidates: seq<ProviderID>)
      ensures this.id == id && this.candidates == candidates && !failedBefore && replacements == Fresh(names)
    {
      this.id, this.candidates := id, candidates;
      replacements := Fresh(names);
      timeAdded, failedBefore := 0, false;
    }
  }

  /** The index entries of a command. */
  function Owned(candidates: seq<ProviderID>, cmd: Command): map<ProviderID, Command> {
    map id | id in candidates :: cmd
  }

  lemma OwnedStep(index: map<ProviderID, Command>, candidates: seq<ProviderID>, i: nat, cmd: Command)
    requires i < |candidates|
    ensures (index + Owned(candidates[..i], cmd))[candidates[i] := cmd] == index + Owned(candidates[..i + 1], cmd)
  {
    assert candidates[..i + 1] == candidates[..i] + [candidates[i]];
  }

  /** A candidate belongs to one command, and a command in the index has all of its candidates there. */
  ghost predicate Exclusive(index: map<ProviderID, Command>) {
    && (forall id :: id in index ==> id in index[id].candidates)
    && (forall id, c :: id in index && c in index[id].candidates ==> c in index && index[c] == index[id])
  }

  lemma AddedIsExclusive(index: map<ProviderID, Command>, cmd: Command)
    requires Exclusive(index) && forall id :: id in cmd.candidates ==> id !in index
    ensures Exclusive(index + Owned(cmd.candidates, cmd))
  {
    var after := index + Owned(cmd.candidates, cmd);
    forall id, c | id in after && c in after[id].candidates ensures c in after && after[c] == after[id] {
      if id !in cmd.candidates {
        assert c in index && index[c] == index[id];
      }
    }
  }

  lemma RemovedIsExclusive(index: map<ProviderID, Command>, cmd: Command)
    requires Exclusive(index) && forall id :: id in cmd.candidates ==> id in index && index[id] == cmd
    ensures var after := index - Elements(cmd.candidates); Exclusive(after) && cmd !in after.Values
  {}

  class Queue {
    var providerIDToCommand: map<ProviderID, Command>
    var waiting: set<Command>
    const cluster: ClusterMarks

    ghost predicate Valid() reads this { Exclusive(providerIDToCommand) }

    constructor (cluster: ClusterMarks)
      ensures Valid() && this.cluster == cluster && providerIDToCommand == map[] && waiting == {}
    {
      this.cluster, providerIDToCommand, waiting := cluster, map[], {};
    }

    method HasAny(ids: seq<ProviderID>) returns (found: bool)
      ensures found <==> exists id :: id in ids && id in providerIDToCommand
    {
      for i := 0 to |ids|
        invariant forall j :: 0 <= j < i ==> ids[j] !in providerIDToCommand
      {
        if ids[i] in providerIDToCommand {
          return true;
        }
      }
      found := false;
    }

    /** The command is refused exactly if one of its candidates is being disrupted already. */
    method Add(cmd: Command, now: int) returns (ok: bool)
      requires Valid()
      modifies this, cmd`timeAdded
      ensures Valid() && cmd.replacements == old(cmd.replacements)
      ensures ok <==> forall id :: id in cmd.candidates ==> id !in old(providerIDToCommand)
      ensures !ok ==>
        providerIDToCommand == old(providerIDToCommand) && waiting == old(waiting) &&
          cmd.timeAdded == old(cmd.timeAdded)
      ensures ok ==> cmd.timeAdded == now && waiting == old(waiting) + {cmd}
      ensures ok ==> providerIDToCommand == old(providerIDToCommand) + map id | id in cmd.candidates :: cmd
    {
      hide Exclusive;
      var busy := HasAny(cmd.candidates);
      if busy {
        return false;
      }
      cmd.timeAdded := now;
      ghost var before := providerIDToCommand;
      for i := 0 to |cmd.candidates|
        invariant cmd.timeAdded == now && waiting == old(waiting)
        invariant providerIDToCommand == before + Owned(cmd.candidates[..i], cmd)
      {
        OwnedStep(before, cmd.candidates, i, cmd);
        providerIDToCommand := providerIDToCommand[cmd.candidates[i] := cmd];
      }
      assert cmd.candidates[..|cmd.candidates|] == cmd.candidates;
      AddedIsExclusive(before, cmd);
      waiting := waiting + {cmd};
      ok := true;
    }

    /** Nothing of the command stays behind; other commands keep their candidates. */
    method Remove(cmd: Command)
      requires Valid() &&
        forall id :: id in cmd.candidates ==> id in providerIDToCommand && providerIDToCommand[id] == cmd
      modifies this, cluster`marked
      ensures Valid() && waiting == old(waiting) - {cmd}
      ensures providerIDToCommand == old(providerIDToCommand) - Elements(cmd.candidates)
      ensures cluster.marked == old(cluster.marked) - (Elements(cmd.candidates) * cluster.nodes)
      ensures cmd !in providerIDToCommand.Values
    {
      hide Exclusive;
      RemovedIsExclusive(providerIDToCommand, cmd);
      waiting := waiting - {cmd};
      cluster.UnmarkForDeletion(cmd.candidates);
      ghost var before := providerIDToCommand;
      for i := 0 to |cmd.candidates|
        modifies this
        invariant waiting == old(waiting) - {cmd}
        invariant providerIDToCommand == before - Elements(cmd.candidates[..i])
      {
        assert cmd.candidates[..i + 1] == cmd.candidates[..i] + [cmd.candidates[i]];
        providerIDToCommand := providerIDToCommand - {cmd.candidates[i]};
      }
      assert cmd.candidates[..|cmd.candidates|] == cmd.candidates;
    }

    method WaitOrTerminate(cmd: Command, now: int, api: string -> Status, deletions: ProviderID -> Deletion)
      returns (verdict: Verdict, deleted: set<ProviderID>)
      modifies cmd`replacements
      ensures Judgement(cmd.replacements, verdict, deleted) ==
              Judged(old(cmd.replacements), cmd.candidates, now - cmd.timeAdded, api, deletions)
    {
      var elapsed := now - cmd.timeAdded;
      if elapsed > MAX_RETRY_DURATION {
        return Unrecoverable, {};
      }
      var lost, pending := AwaitReplacements(cmd, elapsed, api);
      if lost {
        return Unrecoverable, {};
      }
      if pending {
        return Retry, {};
      }
      deleted := {};
      var refused := false;
      for i := 0 to |cmd.candidates|
        invariant deleted == set c | c in cmd.candidates[..i] && deletions(c).Deleted?
        invariant refused <==> exists c :: c in cmd.candidates[..i] && deletions(c).Refused?
      {
        assert cmd.candidates[..i + 1] == cmd.candidates[..i] + [cmd.candidates[i]];
        match deletions(cmd.candidates[i]) {
          case Deleted => deleted := deleted + {cmd.candidates[i]};
          case Gone =>
          case Refused => refused := true;
        }
      }
      assert cmd.candidates[..|cmd.candidates|] == cmd.candidates;
      verdict := if refused then Retry else Complete;
    }

    method AwaitReplacements(cmd: Command, elapsed: int, api: string -> Status) returns (lost: bool, pending: bool)
      modifies cmd`replacements
      ensures Wait(cmd.replacements, lost, pending) ==
        Awaited(old(cmd.replacements), |old(cmd.replacements)|, elapsed, api)
    {
      ghost var rs := cmd.replacements;
      lost, pending := false, false;
      for i := 0 to |cmd.replacements|
        invariant Wait(cmd.replacements, false, pending) == Awaited(rs, i, elapsed, api)
        invariant |cmd.replacements| == |rs| && forall j :: i <= j < |rs| ==> cmd.replacements[j] == rs[j]
      {
        var r := cmd.replacements[i];
        if !r.initialized {
          match api(r.name) {
            case Missing =>
              if elapsed > CONSISTENCY_DELAY {
                LostEnds(rs, i + 1, elapsed, api);
                return true, pending;
              }
              pending := true;
            case Unreachable => pending := true;
            case Pending => pending := true;
            case Ready => cmd.replacements := cmd.replacements[i := r.(initialized := true)];
          }
        }
      }
    }

    /** One round for a command taken from the queue: it is put back, or it leaves with everything it held. */
    method Reconcile(cmd: Command, now: int, api: string -> Status, deletions: ProviderID -> Deletion)
      returns (verdict: Verdict, deleted: set<ProviderID>)
      requires Valid() && cmd in waiting
      requires forall id :: id in cmd.candidates ==> id in providerIDToCommand && providerIDToCommand[id] == cmd
      modifies this, cluster`marked, cluster`tainted, cmd`replacements, cmd`failedBefore
      ensures Valid()
      ensures Judgement(cmd.replacements, verdict, deleted) ==
              Judged(old(cmd.replacements), cmd.candidates, now - cmd.timeAdded, api, deletions)
      ensures verdict.Retry? ==>
        && providerIDToCommand == old(providerIDToCommand) && waiting == old(waiting)
        && cluster.marked == old(cluster.marked)
      ensures !verdict.Retry? ==>
        && providerIDToCommand == old(providerIDToCommand) - Elements(cmd.candidates) && waiting == old(waiting) - {cmd}
        && cluster.marked == old(cluster.marked) - (Elements(cmd.candidates) * cluster.nodes)
      ensures cluster.tainted ==
              if verdict.Unrecoverable? then old(cluster.tainted) - Elements(cmd.candidates) else old(cluster.tainted)
    {
      verdict, deleted := WaitOrTerminate(cmd, now, api, deletions);
      if verdict.Retry? {
        cmd.failedBefore := true;
        return;
      }
      if verdict.Unrecoverable? {
        cluster.RequireNoScheduleTaint(false, cmd.candidates);
      }
      Remove(cmd);
    }
  }

  // ----- Starting a command

  class Controller {
    const queue: Queue
    const cluster: ClusterMarks

    constructor (queue: Queue)
      ensures this.queue == queue && cluster == queue.cluster
    {
      this.queue, this.cluster := queue, queue.cluster;
    }

    /**
     Lift the taint from every node outside the queue, at the start of a pass; a node that is
     `going` is left alone.
     */
    method Sweep(going: set<ProviderID>)
      modifies cluster`tainted
      ensures cluster.tainted == old(cluster.tainted) - (cluster.nodes - queue.providerIDToCommand.Keys - going)
    {
      var todo := cluster.nodes;
      while todo != {}
        invariant todo <= cluster.nodes
        invariant cluster.tainted ==
          old(cluster.tainted) - (cluster.nodes - todo - queue.providerIDToCommand.Keys - going)
        decreases todo
      {
        var id :| id in todo;
        todo := todo - {id};
        var busy := queue.HasAny([id]);
        if !busy && id !in going {
          cluster.RequireNoScheduleTaint(false, [id]);
        }
      }
    }

    /**
     Taint the candidates, launch the replacements, mark the candidates, and hand the
     command to the queue; a step that fails undoes those before it.  `taints` and
     `launched` are the answers of the API server.
     */
    method ExecuteCommand(
      id: CommandID, candidates: seq<ProviderID>, replacements: nat, taints: bool, launched: Option<seq<string>>,
        now: int)
      returns (ok: bool, cmd: Command?)
      requires queue.Valid() && cluster == queue.cluster
      modifies queue, cluster`marked, cluster`tainted
      ensures queue.Valid()
      ensures var free := forall id :: id in candidates ==> id !in old(queue.providerIDToCommand);
        ok <==> taints && free && (replacements == 0 || (launched.Some? && |launched.value| == replacements))
      ensures ok ==>
        && cmd != null && fresh(cmd) && cmd.id == id && cmd.candidates == candidates && cmd.timeAdded == now
        && cmd.replacements == Fresh(if replacements == 0 then [] else launched.value)
        && queue.providerIDToCommand == old(queue.providerIDToCommand) + (map id | id in candidates :: cmd)
        && queue.waiting == old(queue.waiting) + {cmd}
        && cluster.marked == old(cluster.marked) + (Elements(candidates) * cluster.nodes)
        && cluster.tainted == old(cluster.tainted) + Elements(candidates)
      ensures !ok ==>
        && queue.providerIDToCommand == old(queue.providerIDToCommand) && queue.waiting == old(queue.waiting)
        && cluster.marked <= old(cluster.marked) && cluster.tainted == old(cluster.tainted) - Elements(candidates)
      ensures !ok && (forall id :: id in candidates ==> id !in old(queue.providerIDToCommand)) ==>
        cluster.marked == old(cluster.marked)
    {
      ok, cmd := false, null;
      cluster.RequireNoScheduleTaint(true, candidates);
      if !taints {
        cluster.RequireNoScheduleTaint(false, candidates);
        return;
      }
      var names: seq<string> := [];
      if replacements > 0 {
        if launched.None? || |launched.value| != replacements {
          cluster.RequireNoScheduleTaint(false, candidates);
          return;
        }
        names := launched.value;
      }
      cluster.MarkForDeletion(candidates);
      cmd := new Command(id, names, candidates);
      ok := queue.Add(cmd, now);
      if !ok {
        cluster.UnmarkForDeletion(candidates);
        cluster.RequireNoScheduleTaint(false, candidates);
      }
    }
  }

  lemma {:induction false} LostEnds(rs: seq<Replacement>, n: nat, elapsed: int, api: string -> Status)
    requires n <= |rs| && Awaited(rs, n, elapsed, api).lost
    ensures Awaited(rs, |rs|, elapsed, api) == Awaited(rs, n, elapsed, api)
    decreases |rs| - n
  {
    if n < |rs| {
      LostEnds(rs, n + 1, elapsed, api);
    }
  }
}
