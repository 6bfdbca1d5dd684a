/**
 The queue and the controller carry out the protocol: each of their operations takes the
 objects from one state of the protocol to the next, so that what holds of all runs of
 the protocol holds of the objects.
 */
module QueueRefinement {
  import opened Common
  import opened Orchestration
  import opened DisruptionProtocol

  /** What the objects hold: the waiting commands, whose each candidate is, and what is marked and tainted. */
  datatype Contents = Contents(
    commands: map<Command, Active>,
    owners: map<ProviderID, Command>,
    nodes: set<ProviderID>,
    marks: set<ProviderID>,
    taints: set<ProviderID>)

  ghost function ContentsOf(q: Queue): Contents reads q, q.cluster, q.waiting {
    Contents(
      map c | c in q.waiting :: Active(c.replacements, c.candidates, c.timeAdded),
      q.providerIDToCommand, q.cluster.nodes, q.cluster.marked, q.cluster.tainted)
  }

  /** The contents are those of the state `s`, between two operations of the worker. */
  ghost predicate Matches(o: Contents, s: Sys) {
    && s.worker.Resting?
    && (forall c, d :: c in o.commands && d in o.commands && c.id == d.id ==> c == d)
    && (forall p :: p in o.owners ==> o.owners[p] in o.commands)
    && (forall c :: c in o.commands ==> o.commands[c].candidates == c.candidates)
    && s.index == Index(o.owners) && s.waiting == IDs(o.commands)
    && s.active.Keys == s.waiting && (forall c :: c in o.commands ==> s.active[c.id] == o.commands[c])
    && s.nodes == o.nodes && s.marks == o.marks && s.taints == o.taints
  }

  ghost predicate Represents(q: Queue, s: Sys) reads q, q.cluster, q.waiting { Matches(ContentsOf(q), s) }

  lemma OwnCandidates(q: Queue, s: Sys, cmd: Command)
    requires Represents(q, s) && Inv(s) && cmd in q.waiting
    ensures cmd.id in s.active && s.active[cmd.id] == Active(cmd.replacements, cmd.candidates, cmd.timeAdded)
    ensures forall p :: p in cmd.candidates ==> p in q.providerIDToCommand && q.providerIDToCommand[p] == cmd
  {
    hide MarksInv, TaintsInv, WorkerInv, NamesInv, Orderly;
    forall p | p in cmd.candidates ensures p in q.providerIDToCommand && q.providerIDToCommand[p] == cmd {
      assert p in s.active[cmd.id].candidates && p in s.index && s.index[p] == cmd.id;
    }
  }

  /** A round of the worker, from taking up a command to putting it back or cleaning up after it. */
  function Rounded(s: Sys, id: CommandID, api: string -> Status, deletions: ProviderID -> Deletion): Sys
    requires Enabled(s, Process(id, api, deletions))
  {
    var s1 := Apply(s, Process(id, api, deletions));
    if s1.worker.Resting? then s1
    else
      var s2 := Apply(s1, Unmark);
      Apply(s2, Unindex)
  }

  lemma RoundedIs(s: Sys, id: CommandID, api: string -> Status, deletions: ProviderID -> Deletion)
    requires Enabled(s, Process(id, api, deletions))
    ensures var r, c, j := Rounded(s, id, api, deletions), s.active[id], Verdicted(s, id, api, deletions);
      && r.worker.Resting? && r.nodes == s.nodes
      && (j.verdict.Retry? ==>
            && r.index == s.index && r.waiting == s.waiting &&
              r.active == s.active[id := c.(replacements := j.replacements)]
            && r.marks == s.marks && r.taints == s.taints)
      && (!j.verdict.Retry? ==>
            && r.index == s.index - Elements(c.candidates) && r.waiting == s.waiting - {id} &&
              r.active == s.active - {id}
            && r.marks == s.marks - (Elements(c.candidates) * s.nodes)
            && r.taints == if j.verdict.Unrecoverable? then s.taints - Elements(c.candidates) else s.taints)
  {
    hide Judged, Sightings, Deletions;
    assert s.active[id := s.active[id]] - {id} == s.active - {id};
  }

  lemma RoundedKeepsInv(s: Sys, id: CommandID, api: string -> Status, deletions: ProviderID -> Deletion)
    requires Inv(s) && Enabled(s, Process(id, api, deletions))
    ensures Inv(Rounded(s, id, api, deletions))
  {
    hide Inv, Apply;
    var s1 := Apply(s, Process(id, api, deletions));
    StepKeepsInv(s, Process(id, api, deletions));
    if !s1.worker.Resting? {
      assert Enabled(s1, Unmark) && Enabled(Apply(s1, Unmark), Unindex) by { Cleanup(s, id, api, deletions); }
      StepKeepsInv(s1, Unmark);
      StepKeepsInv(Apply(s1, Unmark), Unindex);
    }
  }

  lemma Cleanup(s: Sys, id: CommandID, api: string -> Status, deletions: ProviderID -> Deletion)
    requires Enabled(s, Process(id, api, deletions))
    ensures var s1 := Apply(s, Process(id, api, deletions));
      !s1.worker.Resting? ==> Enabled(s1, Unmark) && Enabled(Apply(s1, Unmark), Unindex)
  {
    hide Judged, Sightings, Deletions;
  }

  lemma RetryMatches(o: Contents, s: Sys, cmd: Command, api: string -> Status, deletions: ProviderID -> Deletion)
    requires Matches(o, s) && cmd in o.commands && Enabled(s, Process(cmd.id, api, deletions)) && cmd.id in s.active
    requires Verdicted(s, cmd.id, api, deletions).verdict.Retry?
    ensures var j := Verdicted(s, cmd.id, api, deletions);
      Matches(o.(commands := o.commands[cmd := o.commands[cmd].(replacements := j.replacements)]),
        Rounded(s, cmd.id, api, deletions))
  {
    hide Judged, Rounded;
    RoundedIs(s, cmd.id, api, deletions);
  }

  lemma LeavingMatches(o: Contents, s: Sys, cmd: Command, api: string -> Status, deletions: ProviderID -> Deletion)
    requires Matches(o, s) && cmd in o.commands && Enabled(s, Process(cmd.id, api, deletions)) && cmd.id in s.active
    requires !Verdicted(s, cmd.id, api, deletions).verdict.Retry?
    requires forall p :: p in o.owners && o.owners[p] == cmd ==> p in cmd.candidates
    ensures var v := Verdicted(s, cmd.id, api, deletions).verdict;
      Matches(
        Contents(o.commands - {cmd}, o.owners - Elements(cmd.candidates), o.nodes,
          o.marks - (Elements(cmd.candidates) * o.nodes),
                 if v.Unrecoverable? then o.taints - Elements(cmd.candidates) else o.taints),
        Rounded(s, cmd.id, api, deletions))
  {
    hide Judged, Rounded, Verdicted;
    RoundedIs(s, cmd.id, api, deletions);
    IDsWithout(o.commands, cmd);
    IndexWithout(o.owners, Elements(cmd.candidates));
  }

  ghost function IDs(commands: map<Command, Active>): set<CommandID> { set c | c in commands :: c.id }

  ghost function Index(owners: map<ProviderID, Command>): map<ProviderID, CommandID> {
    map p | p in owners :: owners[p].id
  }

  lemma IDsWithout(commands: map<Command, Active>, cmd: Command)
    requires cmd in commands && forall c, d :: c in commands && d in commands && c.id == d.id ==> c == d
    ensures IDs(commands - {cmd}) == IDs(commands) - {cmd.id}
  {}

  lemma IndexWithout(owners: map<ProviderID, Command>, gone: set<ProviderID>)
    ensures Index(owners - gone) == Index(owners) - gone
  {}

  lemma IDsWith(commands: map<Command, Active>, cmd: Command, a: Active)
    ensures IDs(commands[cmd := a]) == IDs(commands) + {cmd.id}
  {
    assert cmd in commands[cmd := a] && forall c :: c in commands ==> c in commands[cmd := a];
  }

  lemma IndexWith(owners: map<ProviderID, Command>, candidates: seq<ProviderID>, cmd: Command)
    ensures Index(owners + map p | p in candidates :: cmd) == Index(owners) + map p | p in candidates :: cmd.id
  {}

  /** Processing a command is the protocol's round. */
  method ProcessCommand(
    q: Queue, cmd: Command, ghost s: Sys, now: int, api: string -> Status, deletions: ProviderID -> Deletion)
    returns (verdict: Verdict, deleted: set<ProviderID>)
    requires q.Valid() && Represents(q, s) && Inv(s) && now == s.now && cmd in q.waiting
    modifies q, q.cluster`marked, q.cluster`tainted, cmd`replacements, cmd`failedBefore
    ensures q.Valid() && Enabled(s, Process(cmd.id, api, deletions))
    ensures Represents(q, Rounded(s, cmd.id, api, deletions)) && Inv(Rounded(s, cmd.id, api, deletions))
    ensures deleted == Verdicted(s, cmd.id, api, deletions).deleted
  {
    hide Judged, Rounded, Inv, Matches;
    ghost var o := ContentsOf(q);
    OwnCandidates(q, s, cmd);
    assert Enabled(s, Process(cmd.id, api, deletions)) by { WaitingIsEnabled(q, s, cmd); }
    RoundedKeepsInv(s, cmd.id, api, deletions);
    ghost var owners := q.providerIDToCommand;
    verdict, deleted := q.Reconcile(cmd, now, api, deletions);
    if verdict.Retry? {
      RetryMatches(o, s, cmd, api, deletions);
      assert ContentsOf(q) == o.(commands := o.commands[cmd := o.commands[cmd].(replacements := cmd.replacements)]);
    } else {
      LeavingMatches(o, s, cmd, api, deletions);
      assert ContentsOf(q).commands == o.commands - {cmd};
    }
  }

  lemma WaitingIsEnabled(q: Queue, s: Sys, cmd: Command)
    requires Represents(q, s) && cmd in q.waiting
    ensures s.worker.Resting? && cmd.id in s.waiting && cmd.id in s.active
  {}

  /**
   What the loop does to disrupt nodes: choose and taint them, then mark them and enqueue the
   command, or call it off.
   */
  function Disrupted(s: Sys, candidates: seq<ProviderID>, names: Option<seq<string>>): Sys
    requires Enabled(s, Choose(candidates))
  {
    var s1 := Apply(s, Choose(candidates));
    match names
    case None => Apply(s1, Abort)
    case Some(names) => Apply(Apply(s1, Mark(names)), Enqueue)
  }

  lemma DisruptedKeepsInv(s: Sys, candidates: seq<ProviderID>, names: Option<seq<string>>)
    requires Inv(s) && Enabled(s, Choose(candidates))
    ensures Inv(Disrupted(s, candidates, names))
  {
    hide Inv;
    StepKeepsInv(s, Choose(candidates));
    var s1 := Apply(s, Choose(candidates));
    match names {
      case None => StepKeepsInv(s1, Abort);
      case Some(names) =>
        StepKeepsInv(s1, Mark(names));
        StepKeepsInv(Apply(s1, Mark(names)), Enqueue);
    }
  }

  lemma AbortedMatches(o: Contents, s: Sys, candidates: seq<ProviderID>)
    requires Matches(o, s) && Enabled(s, Choose(candidates))
    ensures Matches(o.(taints := o.taints - Elements(candidates)), Disrupted(s, candidates, None))
  {
    assert o.taints + Elements(candidates) - Elements(candidates) == o.taints - Elements(candidates);
  }

  lemma EnqueuedMatches(o: Contents, s: Sys, candidates: seq<ProviderID>, names: seq<string>, cmd: Command)
    requires Matches(o, s) && Enabled(s, Choose(candidates)) && cmd !in o.commands && cmd.candidates == candidates
    requires cmd.id == s.next && s.next !in s.active
    ensures Matches(
      Contents(o.commands[cmd := Active(Fresh(names), candidates, s.now)], o.owners + (map p | p in candidates :: cmd),
        o.nodes,
               o.marks + (Elements(candidates) * o.nodes), o.taints + Elements(candidates)),
      Disrupted(s, candidates, Some(names)))
  {
    hide Disrupted, IDs, Index;
    DisruptedIs(s, candidates, names);
    IDsWith(o.commands, cmd, Active(Fresh(names), candidates, s.now));
    IndexWith(o.owners, candidates, cmd);
    forall c | c in o.commands ensures c.id != cmd.id { MemberID(o.commands, c); }
  }

  lemma MemberID(commands: map<Command, Active>, c: Command)
    requires c in commands
    ensures c.id in IDs(commands)
  {}

  lemma DisruptedIs(s: Sys, candidates: seq<ProviderID>, names: seq<string>)
    requires Enabled(s, Choose(candidates))
    ensures var r := Disrupted(s, candidates, Some(names));
      && r.worker == s.worker && r.nodes == s.nodes
      && r.index == s.index + (map p | p in candidates :: s.next) && r.waiting == s.waiting + {s.next}
      && r.active == s.active[s.next := Active(Fresh(names), candidates, s.now)]
      && r.marks == s.marks + (Elements(candidates) * s.nodes) && r.taints == s.taints + Elements(candidates)
  {
    var s1 := Apply(Apply(s, Choose(candidates)), Mark(names));
    assert Accepts(s1);
  }

  /** Starting a command is choosing, marking and enqueuing its candidates; the queue does not refuse it. */
  method Execute(
    controller: Controller, ghost s: Sys, candidates: seq<ProviderID>, replacements: nat, taints: bool,
      launched: Option<seq<string>>, id: CommandID, now: int)
    returns (ok: bool)
    requires controller.queue.Valid() && controller.cluster == controller.queue.cluster &&
      Represents(controller.queue, s) && Inv(s)
    requires now == s.now && id == s.next && Enabled(s, Choose(candidates))
    modifies controller.queue, controller.cluster`marked, controller.cluster`tainted
    ensures controller.queue.Valid()
    ensures ok <==> taints && (replacements == 0 || (launched.Some? && |launched.value| == replacements))
    ensures
      var after :=
        Disrupted(s, candidates, if !ok then None else Some(if replacements == 0 then [] else launched.value));
      Represents(controller.queue, after) && Inv(after)
  {
    hide Inv, Matches, Disrupted;
    DisruptedKeepsInv(s, candidates, None);
    DisruptedKeepsInv(s, candidates,
      Some(if replacements == 0 then [] else if launched.Some? then launched.value else []));
    ghost var q := controller.queue;
    ghost var o := ContentsOf(q);
    ChosenAreFree(q, s, candidates);
    ActiveIDsAreOld(s);
    var cmd;
    ok, cmd := controller.ExecuteCommand(id, candidates, replacements, taints, launched, now);
    if ok {
      ghost var names := if replacements == 0 then [] else launched.value;
      EnqueuedMatches(o, s, candidates, names, cmd);
      StartedContents(o, ContentsOf(q), candidates, cmd, Active(Fresh(names), candidates, s.now));
    } else {
      AbortedMatches(o, s, candidates);
      assert ContentsOf(q) == o.(taints := o.taints - Elements(candidates));
    }
  }

  lemma StartedContents(o: Contents, o': Contents, candidates: seq<ProviderID>, cmd: Command, a: Active)
    requires o'.commands.Keys == o.commands.Keys + {cmd} && o'.commands[cmd] == a &&
      forall c :: c in o.commands && c != cmd ==> o'.commands[c] == o.commands[c]
    requires o'.owners.Keys == o.owners.Keys + Elements(candidates)
    requires forall p :: p in o'.owners ==> o'.owners[p] == if p in candidates then cmd else o.owners[p]
    ensures o'.commands == o.commands[cmd := a] && o'.owners == o.owners + (map p | p in candidates :: cmd)
  {}

  lemma ChosenAreFree(q: Queue, s: Sys, candidates: seq<ProviderID>)
    requires Represents(q, s) && Enabled(s, Choose(candidates))
    ensures forall p :: p in candidates ==> p !in q.providerIDToCommand
  {
    forall p | p in q.providerIDToCommand ensures p in s.index {}
  }

  lemma ActiveIDsAreOld(s: Sys)
    requires Inv(s)
    ensures s.next !in s.active
  {
    hide Indexed, MarksInv, TaintsInv, WorkerInv, Orderly;
  }

  /** Sweeping is the protocol's step. */
  method SweepTaints(controller: Controller, ghost s: Sys, going: set<ProviderID>)
    requires controller.queue.Valid() && controller.cluster == controller.queue.cluster &&
      Represents(controller.queue, s) && Inv(s)
    requires s.loop.Idle?
    modifies controller.cluster`tainted
    ensures controller.queue.Valid()
    ensures var after := Apply(s, Sweep(going)); Represents(controller.queue, after) && Inv(after)
  {
    hide Inv, Matches;
    ghost var q := controller.queue;
    ghost var o := ContentsOf(q);
    StepKeepsInv(s, Sweep(going));
    SweptMatches(o, s, going);
    controller.Sweep(going);
    assert ContentsOf(q) == o.(taints := o.taints - (o.nodes - o.owners.Keys - going));
  }

  lemma SweptMatches(o: Contents, s: Sys, going: set<ProviderID>)
    requires Matches(o, s) && Enabled(s, Sweep(going))
    ensures Matches(o.(taints := o.taints - (o.nodes - o.owners.Keys - going)), Apply(s, Sweep(going)))
  {
    assert Index(o.owners).Keys == o.owners.Keys;
  }
}
