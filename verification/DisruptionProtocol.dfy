/**
 Disruption as a protocol between two loops that run side by side: the disruption loop,
 which chooses candidates, marks them and hands a command to the queue, and the queue's
 worker, which waits, deletes and cleans up.  Each locked operation is one step; time
 passes and the cluster gains and loses nodes between any two steps.
 */
module DisruptionProtocol {
  import opened Common
  import opened Orchestration

  datatype Active = Active(replacements: seq<Replacement>, candidates: seq<ProviderID>, timeAdded: int)

  /** What happened to a command: a replacement was seen initialized, or a candidate was deleted. */
  datatype Event = Saw(id: CommandID, name: string) | Deleting(id: CommandID, candidate: ProviderID)

  datatype Loop = Idle | Chosen(candidates: seq<ProviderID>) | Marked(candidates: seq<ProviderID>, names: seq<string>)

  datatype Worker = Resting | Unmarking(id: CommandID) | Unindexing(id: CommandID)

  datatype Sys = Sys(
    now: int,
    nodes: set<ProviderID>,
    marks: set<ProviderID>,
    taints: set<ProviderID>,
    index: map<ProviderID, CommandID>,
    active: map<CommandID, Active>,
    waiting: set<CommandID>,
    loop: Loop,
    worker: Worker,
    issued: map<CommandID, seq<string>>,  // the replacements of every command there has been
    history: seq<Event>,
    retired: set<ProviderID>,             // candidates of commands carried out, and taints of an earlier process
    next: CommandID)

  datatype Step =
    | Tick(ms: nat)
    | Cluster(nodes: set<ProviderID>)
    | Sweep(going: set<ProviderID>)
    | Choose(candidates: seq<ProviderID>)
    | Abort
    | Mark(names: seq<string>)
    | Enqueue
    | Process(id: CommandID, api: string -> Status, deletions: ProviderID -> Deletion)
    | Unmark
    | Unindex

  // ----- Steps

  function Sightings(id: CommandID, before: seq<Replacement>, after: seq<Replacement>): seq<Event>
    requires |before| == |after|
  {
    if before == [] then []
    else
      var n := |before| - 1;
      Sightings(id, before[..n], after[..n]) +
        (if after[n].initialized && !before[n].initialized then [Saw(id, after[n].name)] else [])
  }

  function Deletions(id: CommandID, candidates: seq<ProviderID>, deleted: set<ProviderID>): seq<Event> {
    if candidates == [] then []
    else
      var n := |candidates| - 1;
      Deletions(id, candidates[..n], deleted) + (if candidates[n] in deleted then [Deleting(id, candidates[n])] else [])
  }

  function Verdicted(s: Sys, id: CommandID, api: string -> Status, deletions: ProviderID -> Deletion): Judgement
    requires id in s.active
  {
    Judged(s.active[id].replacements, s.active[id].candidates, s.now - s.active[id].timeAdded, api, deletions)
  }

  predicate Enabled(s: Sys, step: Step) {
    match step
    case Tick(_) => true
    case Cluster(_) => true
    case Sweep(_) => s.loop.Idle?
    case Choose(candidates) => s.loop.Idle? && forall c :: c in candidates ==> c !in s.index
    case Abort => s.loop.Chosen?
    case Mark(_) => s.loop.Chosen?
    case Enqueue => s.loop.Marked?
    case Process(id, _, _) => s.worker.Resting? && id in s.waiting && id in s.active
    case Unmark => s.worker.Unmarking? && s.worker.id in s.active
    case Unindex => s.worker.Unindexing? && s.worker.id in s.active
  }

  /** Whether the queue would take the marked candidates. */
  predicate Accepts(s: Sys)
    requires s.loop.Marked?
  {
    forall c :: c in s.loop.candidates ==> c !in s.index
  }

  function Enqueued(s: Sys): Sys
    requires s.loop.Marked?
  {
    var cs, names := s.loop.candidates, s.loop.names;
    if !Accepts(s) then s.(marks := s.marks - (Elements(cs) * s.nodes), taints := s.taints - Elements(cs), loop := Idle)
    else
      s.(index := s.index + map c | c in cs :: s.next,
         active := s.active[s.next := Active(Fresh(names), cs, s.now)],
         waiting := s.waiting + {s.next},
         issued := s.issued[s.next := names],
         next := s.next + 1,
         loop := Idle)
  }

  function Processed(s: Sys, id: CommandID, api: string -> Status, deletions: ProviderID -> Deletion): Sys
    requires id in s.active
  {
    var c, j := s.active[id], Verdicted(s, id, api, deletions);
    JudgedMeans(c.replacements, c.candidates, s.now - c.timeAdded, api, deletions);
    var history := s.history + Sightings(id, c.replacements, j.replacements) + Deletions(id, c.candidates, j.deleted);
    var s' := s.(active := s.active[id := c.(replacements := j.replacements)], history := history);
    match j.verdict
    case Retry => s'
    case Complete =>
      s'.(waiting := s.waiting - {id}, worker := Unmarking(id), retired := s.retired + Elements(c.candidates))
    case Unrecoverable =>
      s'.(waiting := s.waiting - {id}, worker := Unmarking(id), taints := s.taints - Elements(c.candidates))
  }

  function Apply(s: Sys, step: Step): Sys
    requires Enabled(s, step)
  {
    match step
    case Tick(ms) => s.(now := s.now + ms)
    case Cluster(nodes) => s.(nodes := nodes, marks := s.marks * nodes)
    case Sweep(going) => s.(taints := s.taints - (s.nodes - s.index.Keys - going))
    case Choose(candidates) => s.(loop := Chosen(candidates), taints := s.taints + Elements(candidates))
    case Abort => s.(loop := Idle, taints := s.taints - Elements(s.loop.candidates))
    case Mark(names) =>
      s.(marks := s.marks + (Elements(s.loop.candidates) * s.nodes), loop := Marked(s.loop.candidates, names))
    case Enqueue => Enqueued(s)
    case Process(id, api, deletions) => Processed(s, id, api, deletions)
    case Unmark =>
      s.(marks := s.marks - (Elements(s.active[s.worker.id].candidates) * s.nodes), worker := Unindexing(s.worker.id))
    case Unindex =>
      s.(index := s.index - Elements(s.active[s.worker.id].candidates), active := s.active - {s.worker.id},
        worker := Resting)
  }

  // ----- The invariant

  /** The index holds exactly the candidates of the active commands, each under its command. */
  predicate Indexed(s: Sys) {
    && (forall c :: c in s.index ==> s.index[c] in s.active && c in s.active[s.index[c]].candidates)
    && (forall id, c :: id in s.active && c in s.active[id].candidates ==> c in s.index && s.index[c] == id)
  }

  function Busy(loop: Loop): seq<ProviderID> { if loop.Idle? then [] else loop.candidates }

  /**
   What is marked belongs to an active command or is about to; the loop and the active
   commands have nothing in common.
   */
  predicate MarksInv(s: Sys) {
    && (forall c :: c in s.marks ==> c in s.nodes && (c in s.index || (s.loop.Marked? && c in s.loop.candidates)))
    && (forall c :: c in Busy(s.loop) ==> c !in s.index)
  }

  /**
   A taint belongs to an active command, to the loop, to a command that was carried out or
   to an earlier process; what the loop has chosen and what an active command is about to delete is tainted,
   and a command that is being cleaned up without having been carried out has no taints.
   */
  predicate TaintsInv(s: Sys) {
    && (forall c :: c in s.taints ==> c in s.index || c in Busy(s.loop) || c in s.retired)
    && (forall c :: c in Busy(s.loop) ==> c in s.taints)
    && (forall id, c :: id in s.waiting && id in s.active && c in s.active[id].candidates ==> c in s.taints)
    && (!s.worker.Resting? && s.worker.id in s.active ==>
          forall c :: c in s.active[s.worker.id].candidates && c in s.taints ==> c in s.retired)
  }

  /** Every active command waits or is being cleaned up. */
  predicate WorkerInv(s: Sys) {
    && (forall id :: id in s.waiting ==> id in s.active)
    && (forall id :: id in s.active ==> (id in s.waiting <==> s.worker.Resting? || s.worker.id != id))
    && (!s.worker.Resting? ==> s.worker.id in s.active)
    && (s.worker.Unindexing? ==> forall c :: c in s.active[s.worker.id].candidates ==> c !in s.marks)
  }

  predicate SameNames(rs: seq<Replacement>, names: seq<string>) {
    |rs| == |names| && forall i :: 0 <= i < |rs| ==> rs[i].name == names[i]
  }

  predicate NamesInv(s: Sys) {
    && (forall id :: id in s.active ==> id in s.issued && SameNames(s.active[id].replacements, s.issued[id]))
    && (forall id :: id in s.issued ==> id < s.next)
    && (forall id, r :: id in s.active && r in s.active[id].replacements && r.initialized ==>
      Saw(id, r.name) in s.history)
  }

  /** A candidate is deleted only after every replacement of its command was seen initialized. */
  predicate Orderly(history: seq<Event>, issued: map<CommandID, seq<string>>) {
    forall i :: 0 <= i < |history| && history[i].Deleting? ==>
      history[i].id in issued &&
        forall name :: name in issued[history[i].id] ==> Saw(history[i].id, name) in history[..i]
  }

  predicate Inv(s: Sys) {
    Indexed(s) && MarksInv(s) && TaintsInv(s) && WorkerInv(s) && NamesInv(s) && Orderly(s.history, s.issued)
  }

  /** The process starts with empty memory; an earlier one may have left nodes tainted. */
  function Initial(now: int, nodes: set<ProviderID>, leftover: set<ProviderID>): Sys {
    Sys(now, nodes, {}, leftover, map[], map[], {}, Idle, Resting, map[], [], leftover, 0)
  }

  lemma InitialInv(now: int, nodes: set<ProviderID>, leftover: set<ProviderID>)
    ensures Inv(Initial(now, nodes, leftover))
  {}

  // ----- Every step keeps it

  lemma {:induction false} SeenMeans(id: CommandID, before: seq<Replacement>, after: seq<Replacement>, i: nat)
    requires |before| == |after| && i < |before| && after[i].initialized && !before[i].initialized
    ensures Saw(id, after[i].name) in Sightings(id, before, after)
  {
    var n := |before| - 1;
    if i < n {
      SeenMeans(id, before[..n], after[..n], i);
    }
  }

  lemma {:induction false} SeenOnly(id: CommandID, before: seq<Replacement>, after: seq<Replacement>)
    requires |before| == |after|
    ensures forall e :: e in Sightings(id, before, after) ==> e.Saw?
  {
    if before != [] {
      SeenOnly(id, before[..|before| - 1], after[..|before| - 1]);
    }
  }

  lemma {:induction false} DeletionsOnly(id: CommandID, candidates: seq<ProviderID>, deleted: set<ProviderID>)
    ensures forall e :: e in Deletions(id, candidates, deleted) ==> e.Deleting? && e.id == id && e.candidate in deleted
  {
    if candidates != [] {
      DeletionsOnly(id, candidates[..|candidates| - 1], deleted);
    }
  }

  /** Sightings may be added at any time, deletions once everything has been seen. */
  lemma OrderlyExtends(history: seq<Event>, more: seq<Event>, issued: map<CommandID, seq<string>>, id: CommandID)
    requires Orderly(history, issued) && id in issued
    requires (forall e :: e in more ==> e.Saw?) ||
             ((forall e :: e in more ==> e.Deleting? && e.id == id) && forall name :: name in issued[id] ==>
               Saw(id, name) in history)
    ensures Orderly(history + more, issued)
  {
    var h := history + more;
    forall i | 0 <= i < |h| && h[i].Deleting?
      ensures h[i].id in issued && forall name :: name in issued[h[i].id] ==> Saw(h[i].id, name) in h[..i]
    {
      if i < |history| {
        assert h[..i] == history[..i];
      } else {
        assert h[i] == more[i - |history|] && h[i] in more;
        assert h[..i] == history + more[..i - |history|];
      }
    }
  }

  /** After a round, whatever counts as initialized has been seen. */
  lemma RoundIsSeen(s: Sys, id: CommandID, rs: seq<Replacement>, r: Replacement)
    requires NamesInv(s) && id in s.active && |rs| == |s.active[id].replacements| && r in rs && r.initialized
    requires forall i :: 0 <= i < |rs| ==> rs[i].name == s.active[id].replacements[i].name
    ensures Saw(id, r.name) in s.history + Sightings(id, s.active[id].replacements, rs)
  {
    var before := s.active[id].replacements;
    var i :| 0 <= i < |rs| && rs[i] == r;
    if before[i].initialized {
      assert before[i] in before;
    } else {
      SeenMeans(id, before, rs, i);
    }
  }

  lemma ProcessKeepsHistory(s: Sys, id: CommandID, api: string -> Status, deletions: ProviderID -> Deletion)
    requires Inv(s) && Enabled(s, Process(id, api, deletions))
    ensures var s' := Processed(s, id, api, deletions); NamesInv(s') && Orderly(s'.history, s'.issued)
  {
    hide Judged, Sightings, Deletions, Indexed, MarksInv, TaintsInv, WorkerInv;
    var c, j, s' := s.active[id], Verdicted(s, id, api, deletions), Processed(s, id, api, deletions);
    JudgedMeans(c.replacements, c.candidates, s.now - c.timeAdded, api, deletions);
    var seen, gone := Sightings(id, c.replacements, j.replacements), Deletions(id, c.candidates, j.deleted);
    assert s'.history == s.history + seen + gone;
    SeenOnly(id, c.replacements, j.replacements);
    OrderlyExtends(s.history, seen, s.issued, id);
    forall r | r in j.replacements && r.initialized ensures Saw(id, r.name) in s.history + seen {
      RoundIsSeen(s, id, j.replacements, r);
    }
    DeletionsOnly(id, c.candidates, j.deleted);
    if gone != [] {
      assert gone[0] in gone && j.deleted != {};
      forall name | name in s.issued[id] ensures Saw(id, name) in s.history + seen {
        var i :| 0 <= i < |s.issued[id]| && s.issued[id][i] == name;
        assert j.replacements[i] in j.replacements && j.replacements[i].name == name;
      }
    }
    OrderlyExtends(s.history + seen, gone, s.issued, id);
  }

  lemma ProcessKeepsInv(s: Sys, id: CommandID, api: string -> Status, deletions: ProviderID -> Deletion)
    requires Inv(s) && Enabled(s, Process(id, api, deletions))
    ensures Inv(Processed(s, id, api, deletions))
  {
    hide Judged, Sightings, Deletions, NamesInv, Orderly, Indexed, MarksInv, TaintsInv, WorkerInv, Processed;
    ProcessKeepsHistory(s, id, api, deletions);
    ProcessKeepsIndex(s, id, api, deletions);
    ProcessKeepsMarks(s, id, api, deletions);
    ProcessKeepsWorker(s, id, api, deletions);
    ProcessKeepsTaints(s, id, api, deletions);
  }

  /** Giving up a command lifts its taints and nobody else's. */
  lemma ProcessKeepsTaints(s: Sys, id: CommandID, api: string -> Status, deletions: ProviderID -> Deletion)
    requires Inv(s) && Enabled(s, Process(id, api, deletions))
    ensures TaintsInv(Processed(s, id, api, deletions))
  {
    hide Judged, Sightings, Deletions, NamesInv, Orderly, WorkerInv;
    forall c | c in s.active[id].candidates ensures c in s.index && s.index[c] == id && c !in Busy(s.loop) {}
  }

  lemma ProcessKeepsIndex(s: Sys, id: CommandID, api: string -> Status, deletions: ProviderID -> Deletion)
    requires Inv(s) && Enabled(s, Process(id, api, deletions))
    ensures Indexed(Processed(s, id, api, deletions))
  {
    hide Judged, Sightings, Deletions, NamesInv, Orderly, TaintsInv, MarksInv, WorkerInv;
  }

  lemma ProcessKeepsMarks(s: Sys, id: CommandID, api: string -> Status, deletions: ProviderID -> Deletion)
    requires Inv(s) && Enabled(s, Process(id, api, deletions))
    ensures MarksInv(Processed(s, id, api, deletions))
  {
    hide Judged, Sightings, Deletions, NamesInv, Orderly, TaintsInv, Indexed, WorkerInv;
  }

  lemma ProcessKeepsWorker(s: Sys, id: CommandID, api: string -> Status, deletions: ProviderID -> Deletion)
    requires Inv(s) && Enabled(s, Process(id, api, deletions))
    ensures WorkerInv(Processed(s, id, api, deletions))
  {
    hide Judged, Sightings, Deletions, NamesInv, Orderly, Indexed, MarksInv, TaintsInv;
  }

  lemma NextIsNew(s: Sys)
    requires NamesInv(s)
    ensures s.next !in s.active && s.next !in s.issued
  {}

  lemma EnqueueKeepsIndex(s: Sys)
    requires Inv(s) && s.loop.Marked? && Accepts(s)
    ensures Indexed(Enqueued(s))
  {
    hide Orderly, WorkerInv, TaintsInv;
    NextIsNew(s);
    hide NamesInv;
    var s' := Enqueued(s);
    forall id, c | id in s'.active && c in s'.active[id].candidates ensures c in s'.index && s'.index[c] == id {
      if id != s.next {
        assert c in s.index && c !in s.loop.candidates;
      }
    }
  }

  lemma EnqueueKeepsMarks(s: Sys)
    requires Inv(s) && s.loop.Marked? && Accepts(s)
    ensures MarksInv(Enqueued(s))
  {
    hide Orderly, WorkerInv, TaintsInv;
    NextIsNew(s);
    hide NamesInv;
  }

  lemma EnqueueKeepsWorker(s: Sys)
    requires Inv(s) && s.loop.Marked? && Accepts(s)
    ensures WorkerInv(Enqueued(s))
  {
    hide Orderly, Indexed, MarksInv, TaintsInv;
    NextIsNew(s);
  }

  lemma EnqueueKeepsNames(s: Sys)
    requires Inv(s) && s.loop.Marked? && Accepts(s)
    ensures var s' := Enqueued(s); NamesInv(s') && Orderly(s'.history, s'.issued)
  {
    hide Indexed, MarksInv, TaintsInv, WorkerInv;
    NextIsNew(s);
    var s' := Enqueued(s);
    forall i | 0 <= i < |s'.history| && s'.history[i].Deleting?
      ensures s'.issued[s'.history[i].id] == s.issued[s'.history[i].id] {
      assert s.history[i].id in s.issued;
    }
  }

  lemma EnqueueKeepsInv(s: Sys)
    requires Inv(s) && s.loop.Marked?
    ensures Inv(Enqueued(s)) && Accepts(s)
  {
    hide Indexed, TaintsInv, WorkerInv, NamesInv, Orderly, Enqueued;
    assert Accepts(s);
    EnqueueKeepsIndex(s);
    EnqueueKeepsMarks(s);
    EnqueueKeepsWorker(s);
    EnqueueKeepsNames(s);
    EnqueueKeepsTaints(s);
  }

  lemma EnqueueKeepsTaints(s: Sys)
    requires Inv(s) && s.loop.Marked? && Accepts(s)
    ensures TaintsInv(Enqueued(s))
  {
    hide Orderly, NamesInv, MarksInv, Indexed;
    NextIsNew(s);
  }

  /** Marking does not touch what the worker has just unmarked. */
  lemma MarkKeepsInv(s: Sys, names: seq<string>)
    requires Inv(s) && Enabled(s, Mark(names))
    ensures Inv(Apply(s, Mark(names)))
  {
    hide Orderly;
    if s.worker.Unindexing? {
      forall c | c in s.active[s.worker.id].candidates ensures c !in s.loop.candidates {
        assert c in s.index;
      }
    }
  }

  /** Unindexing takes away exactly the command's own candidates. */
  lemma UnindexKeepsInv(s: Sys)
    requires Inv(s) && Enabled(s, Unindex)
    ensures Inv(Apply(s, Unindex))
  {
    hide Orderly;
    var id := s.worker.id;
    forall c, d | d in s.active && d != id && c in s.active[d].candidates ensures c !in s.active[id].candidates {
      assert s.index[c] == d;
    }
  }

  /** Lifting the taints of what was chosen leaves those of the active commands. */
  lemma AbortKeepsTaints(s: Sys)
    requires Inv(s) && Enabled(s, Abort)
    ensures TaintsInv(Apply(s, Abort))
  {
    hide Orderly, NamesInv, WorkerInv;
    forall id, c | id in s.waiting && id in s.active && c in s.active[id].candidates ensures c !in s.loop.candidates {
      assert c in s.index;
    }
  }

  lemma ChooseKeepsInv(s: Sys, candidates: seq<ProviderID>)
    requires Inv(s) && Enabled(s, Choose(candidates))
    ensures Inv(Apply(s, Choose(candidates)))
  {
    hide Orderly;
  }

  lemma UnmarkKeepsInv(s: Sys)
    requires Inv(s) && Enabled(s, Unmark)
    ensures Inv(Apply(s, Unmark))
  {
    hide Orderly;
  }

  lemma ClusterKeepsInv(s: Sys, nodes: set<ProviderID>)
    requires Inv(s)
    ensures Inv(Apply(s, Cluster(nodes)))
  {
    hide Orderly;
  }

  /** Sweeping does not touch the taints of active commands. */
  lemma SweepKeepsInv(s: Sys, going: set<ProviderID>)
    requires Inv(s) && Enabled(s, Sweep(going))
    ensures Inv(Apply(s, Sweep(going)))
  {
    hide Orderly;
    forall id, c | id in s.waiting && id in s.active && c in s.active[id].candidates ensures c in s.index {}
  }

  lemma AbortKeepsInv(s: Sys)
    requires Inv(s) && Enabled(s, Abort)
    ensures Inv(Apply(s, Abort))
  {
    hide Orderly;
    AbortKeepsTaints(s);
    hide TaintsInv;
  }

  lemma StepKeepsInv(s: Sys, step: Step)
    requires Inv(s) && Enabled(s, step)
    ensures Inv(Apply(s, step))
  {
    match step {
      case Enqueue => EnqueueKeepsInv(s);
      case Process(id, api, deletions) => ProcessKeepsInv(s, id, api, deletions);
      case Unindex => UnindexKeepsInv(s);
      case Tick(_) =>
      case Cluster(nodes) => ClusterKeepsInv(s, nodes);
      case Sweep(going) => SweepKeepsInv(s, going);
      case Choose(candidates) => ChooseKeepsInv(s, candidates);
      case Abort => AbortKeepsInv(s);
      case Mark(names) => MarkKeepsInv(s, names);
      case Unmark => UnmarkKeepsInv(s);
    }
  }

  // ----- Runs

  ghost predicate Run(run: seq<Sys>, steps: seq<Step>) {
    && |run| == |steps| + 1
    && run[0] == Initial(run[0].now, run[0].nodes, run[0].taints)
    && forall i :: 0 <= i < |steps| ==> Enabled(run[i], steps[i]) && run[i + 1] == Apply(run[i], steps[i])
  }

  lemma {:induction false} RunKeepsInv(run: seq<Sys>, steps: seq<Step>, n: nat)
    requires Run(run, steps) && n < |run|
    ensures Inv(run[n])
  {
    hide Inv, Apply, Enabled;
    if n == 0 {
      InitialInv(run[0].now, run[0].nodes, run[0].taints);
    } else {
      RunKeepsInv(run, steps, n - 1);
      StepKeepsInv(run[n - 1], steps[n - 1]);
    }
  }

  /** No two commands disrupt the same node. */
  lemma CommandsAreDisjoint(run: seq<Sys>, steps: seq<Step>, n: nat, a: CommandID, b: CommandID)
    requires Run(run, steps) && n < |run| && a in run[n].active && b in run[n].active && a != b
    ensures forall c :: c in run[n].active[a].candidates ==> c !in run[n].active[b].candidates
  {
    hide Run;
    RunKeepsInv(run, steps, n);
    forall c | c in run[n].active[a].candidates ensures c !in run[n].active[b].candidates {
      assert run[n].index[c] == a;
    }
  }

  /** A candidate's claim is deleted only after every replacement of its command was seen initialized. */
  lemma DeletedAfterReplaced(run: seq<Sys>, steps: seq<Step>, n: nat, i: nat)
    requires Run(run, steps) && n < |run| && i < |run[n].history| && run[n].history[i].Deleting?
    ensures var e := run[n].history[i];
      e.id in run[n].issued && forall name :: name in run[n].issued[e.id] ==> Saw(e.id, name) in run[n].history[..i]
  {
    hide Run;
    RunKeepsInv(run, steps, n);
  }

  /** A command taken up more than ten minutes after it was added leaves the queue on that step, deleting nothing. */
  lemma LateCommandLeaves(s: Sys, id: CommandID, api: string -> Status, deletions: ProviderID -> Deletion)
    requires Enabled(s, Process(id, api, deletions)) && s.now - s.active[id].timeAdded > MAX_RETRY_DURATION
    ensures var s' := Apply(s, Process(id, api, deletions));
      id !in s'.waiting && s'.worker == Unmarking(id) && forall e :: e in s'.history ==> e in s.history
  {
    var c := s.active[id];
    NothingSeen(id, c.replacements);
    DeletionsOnly(id, c.candidates, {});
  }

  lemma {:induction false} NothingSeen(id: CommandID, rs: seq<Replacement>)
    ensures Sightings(id, rs, rs) == []
  {
    if rs != [] {
      NothingSeen(id, rs[..|rs| - 1]);
    }
  }

  /** From such a step on, the command does not come back and nothing is deleted for it. */
  lemma {:induction false} LateCommandIsOver(
    run: seq<Sys>, steps: seq<Step>, i: nat, n: nat, id: CommandID, api: string -> Status,
      deletions: ProviderID -> Deletion)
    requires Run(run, steps) && i < |steps| && i < n < |run| && steps[i] == Process(id, api, deletions)
    requires run[i].now - run[i].active[id].timeAdded > MAX_RETRY_DURATION
    ensures id !in run[n].waiting && id < run[n].next
    ensures |run[i].history| <= |run[n].history|
    ensures forall k ::
      |run[i].history| <= k < |run[n].history| ==> !(run[n].history[k].Deleting? && run[n].history[k].id == id)
    decreases n
  {
    hide Run, Inv, Judged;
    if n == i + 1 {
      RunStep(run, steps, i);
      RunKeepsInv(run, steps, i);
      assert id < run[i].next by { ActiveIsIssued(run[i], id); }
      NothingAdded(run[i], id, api, deletions);
    } else {
      LateCommandIsOver(run, steps, i, n - 1, id, api, deletions);
      RunLength(run, steps);
      RunStep(run, steps, n - 1);
      StepWithout(run[n - 1], steps[n - 1], id);
      assert forall k :: |run[i].history| <= k < |run[n - 1].history| ==> run[n].history[k] == run[n - 1].history[k];
    }
  }

  lemma RunLength(run: seq<Sys>, steps: seq<Step>)
    requires Run(run, steps)
    ensures |run| == |steps| + 1
  {}

  lemma RunStep(run: seq<Sys>, steps: seq<Step>, i: nat)
    requires Run(run, steps) && i < |steps|
    ensures |run| == |steps| + 1 && Enabled(run[i], steps[i]) && run[i + 1] == Apply(run[i], steps[i])
  {}

  lemma ActiveIsIssued(s: Sys, id: CommandID)
    requires Inv(s) && id in s.active
    ensures id < s.next
  {
    hide Indexed, MarksInv, TaintsInv, WorkerInv, Orderly;
  }

  lemma NothingAdded(s: Sys, id: CommandID, api: string -> Status, deletions: ProviderID -> Deletion)
    requires Enabled(s, Process(id, api, deletions)) && s.now - s.active[id].timeAdded > MAX_RETRY_DURATION
    ensures var s' := Apply(s, Process(id, api, deletions));
      s'.history == s.history && id !in s'.waiting && s'.next == s.next
  {
    var c := s.active[id];
    NothingSeen(id, c.replacements);
    NothingDeleted(id, c.candidates);
  }

  lemma {:induction false} NothingDeleted(id: CommandID, candidates: seq<ProviderID>)
    ensures Deletions(id, candidates, {}) == []
  {
    if candidates != [] {
      NothingDeleted(id, candidates[..|candidates| - 1]);
    }
  }

  /** A step deletes only for a command that waits, and only new commands start to wait. */
  lemma StepWithout(s: Sys, step: Step, id: CommandID)
    requires Enabled(s, step) && id !in s.waiting && id < s.next
    ensures var s' := Apply(s, step);
      && id !in s'.waiting && id < s'.next && s.history <= s'.history
      && forall k :: |s.history| <= k < |s'.history| ==> !(s'.history[k].Deleting? && s'.history[k].id == id)
  {
    hide Judged, Sightings, Deletions;
    match step {
      case Process(other, api, deletions) =>
        var c, j := s.active[other], Verdicted(s, other, api, deletions);
        JudgedMeans(c.replacements, c.candidates, s.now - c.timeAdded, api, deletions);
        SeenOnly(other, c.replacements, j.replacements);
        DeletionsOnly(other, c.candidates, j.deleted);
        var seen, gone := Sightings(other, c.replacements, j.replacements), Deletions(other, c.candidates, j.deleted);
        var s' := Apply(s, step);
        assert s'.history == s.history + (seen + gone);
        forall k | |s.history| <= k < |s'.history| ensures !(s'.history[k].Deleting? && s'.history[k].id == id) {
          assert s'.history[k] == (seen + gone)[k - |s.history|];
          assert s'.history[k] in seen || s'.history[k] in gone;
        }
      case _ =>
    }
  }

  /**
   The index holds exactly the candidates of the active commands.  Outside it, a mark is
   left only while the loop is about to enqueue the node, and a taint only while the loop
   has chosen the node, after its command was carried out, or from an earlier process.
   */
  lemma NothingLeftBehind(run: seq<Sys>, steps: seq<Step>, n: nat, c: ProviderID)
    requires Run(run, steps) && n < |run|
    ensures c in run[n].index <==> exists id :: id in run[n].active && c in run[n].active[id].candidates
    ensures c !in run[n].index && c in run[n].marks ==> run[n].loop.Marked? && c in run[n].loop.candidates
    ensures c !in run[n].index && c in run[n].taints ==> c in Busy(run[n].loop) || c in run[n].retired
  {
    hide Run;
    RunKeepsInv(run, steps, n);
  }

  /** The disruption loop's commands are never refused: nobody else adds, and the worker only removes. */
  lemma AddNeverFails(run: seq<Sys>, steps: seq<Step>, n: nat)
    requires Run(run, steps) && n < |run| && run[n].loop.Marked?
    ensures Accepts(run[n])
  {
    hide Run;
    RunKeepsInv(run, steps, n);
    EnqueueKeepsInv(run[n]);
  }

  /**
   A sweep leaves tainted, of the nodes there are, only those of active commands and those
   that are going, and it takes no other taint.
   */
  lemma SweptClean(run: seq<Sys>, steps: seq<Step>, i: nat, going: set<ProviderID>, c: ProviderID)
    requires Run(run, steps) && i < |steps| && steps[i] == Sweep(going) && c in run[i].nodes && c !in going
    ensures c in run[i + 1].taints <==>
      c in run[i].taints && exists id :: id in run[i].active && c in run[i].active[id].candidates
    ensures (exists id :: id in run[i].waiting && id in run[i].active && c in run[i].active[id].candidates) ==>
      c in run[i + 1].taints
  {
    hide Run, Inv, Apply, TaintsInv;
    RunStep(run, steps, i);
    RunKeepsInv(run, steps, i);
    NothingLeftBehind(run, steps, i, c);
    ActiveAreTainted(run[i], c);
    assert Apply(run[i], Sweep(going)).taints == run[i].taints - (run[i].nodes - run[i].index.Keys - going) by {
      SweepIs(run[i], going);
    }
  }

  lemma SweepIs(s: Sys, going: set<ProviderID>)
    requires Enabled(s, Sweep(going))
    ensures Apply(s, Sweep(going)).taints == s.taints - (s.nodes - s.index.Keys - going)
  {}

  lemma ActiveAreTainted(s: Sys, c: ProviderID)
    requires Inv(s)
    ensures (exists id :: id in s.waiting && id in s.active && c in s.active[id].candidates) ==> c in s.taints
  {
    hide Indexed, MarksInv, WorkerInv, NamesInv, Orderly;
  }

  // ----- When a command is carried out, put back or given up

  /** Every replacement has come up. */
  predicate AllUp(s: Sys, id: CommandID, api: string -> Status)
    requires id in s.active
  {
    forall r :: r in s.active[id].replacements ==> r.initialized || api(r.name).Ready?
  }

  predicate NoneRefused(s: Sys, id: CommandID, deletions: ProviderID -> Deletion)
    requires id in s.active
  {
    forall c :: c in s.active[id].candidates ==> !deletions(c).Refused?
  }

  predicate SomeLost(s: Sys, id: CommandID, api: string -> Status)
    requires id in s.active
  {
    exists r :: r in s.active[id].replacements && IsLost(r, s.now - s.active[id].timeAdded, api)
  }

  /** More than ten minutes have passed since the command was added. */
  predicate Overdue(s: Sys, id: CommandID)
    requires id in s.active
  {
    s.now - s.active[id].timeAdded > 600_000
  }

  lemma {:induction false} DeletionsAll(
    id: CommandID, candidates: seq<ProviderID>, deleted: set<ProviderID>, c: ProviderID)
    requires c in candidates && c in deleted
    ensures Deleting(id, c) in Deletions(id, candidates, deleted)
  {
    var n := |candidates| - 1;
    if candidates[n] != c {
      assert c in candidates[..n];
      DeletionsAll(id, candidates[..n], deleted, c);
    }
  }

  /**
   A command taken up in time whose replacements are all up is carried out on that step,
   unless a deletion is refused.
   */
  lemma ReadyCommandIsCarriedOut(s: Sys, id: CommandID, api: string -> Status, deletions: ProviderID -> Deletion)
    requires Enabled(s, Process(id, api, deletions))
    requires !Overdue(s, id) && AllUp(s, id, api) && NoneRefused(s, id, deletions)
    ensures var s', cs := Apply(s, Process(id, api, deletions)), s.active[id].candidates;
      && id !in s'.waiting && s'.worker == Unmarking(id) && Elements(cs) <= s'.retired && s'.taints == s.taints
      && s.history <= s'.history
      && forall c :: c in cs ==> deletions(c).Gone? || Deleting(id, c) in s'.history[|s.history|..]
  {
    hide Judged, Deletions, Sightings;
    var c, j := s.active[id], Verdicted(s, id, api, deletions);
    VerdictIff(c.replacements, c.candidates, s.now - c.timeAdded, api, deletions);
    var seen, gone := Sightings(id, c.replacements, j.replacements), Deletions(id, c.candidates, j.deleted);
    var s' := Apply(s, Process(id, api, deletions));
    assert s'.history == s.history + (seen + gone);
    forall d | d in c.candidates ensures deletions(d).Gone? || Deleting(id, d) in s'.history[|s.history|..] {
      if deletions(d).Deleted? {
        DeletionsAll(id, c.candidates, j.deleted, d);
      }
    }
  }

  /** A command in time that has lost nothing and is not carried out goes on waiting, with everything it holds. */
  lemma WaitingCommandStays(s: Sys, id: CommandID, api: string -> Status, deletions: ProviderID -> Deletion)
    requires Enabled(s, Process(id, api, deletions)) && !Overdue(s, id) && !SomeLost(s, id, api)
    requires !AllUp(s, id, api) || !NoneRefused(s, id, deletions)
    ensures var s' := Apply(s, Process(id, api, deletions));
      && s' == s.(active := s'.active, history := s'.history) && id in s'.waiting
      && s'.active == s.active[id := s.active[id].(replacements := s'.active[id].replacements)]
      && (!AllUp(s, id, api) ==> forall e :: e in s'.history && e !in s.history ==> e.Saw?)
  {
    hide Judged, Deletions, Sightings;
    var c, j := s.active[id], Verdicted(s, id, api, deletions);
    VerdictIff(c.replacements, c.candidates, s.now - c.timeAdded, api, deletions);
    SeenOnly(id, c.replacements, j.replacements);
    DeletionsOnly(id, c.candidates, j.deleted);
  }

  /**
   A command that is overdue or has lost a replacement is given up on that step: nothing is
   deleted, its taints are lifted.
   */
  lemma HopelessCommandIsGivenUp(s: Sys, id: CommandID, api: string -> Status, deletions: ProviderID -> Deletion)
    requires Enabled(s, Process(id, api, deletions)) && (Overdue(s, id) || SomeLost(s, id, api))
    ensures var s' := Apply(s, Process(id, api, deletions));
      && id !in s'.waiting && s'.worker == Unmarking(id) && s'.retired == s.retired
      && s'.taints == s.taints - Elements(s.active[id].candidates)
      && forall e :: e in s'.history && e !in s.history ==> e.Saw?
  {
    hide Judged, Deletions, Sightings;
    var c, j := s.active[id], Verdicted(s, id, api, deletions);
    VerdictIff(c.replacements, c.candidates, s.now - c.timeAdded, api, deletions);
    SeenOnly(id, c.replacements, j.replacements);
    DeletionsOnly(id, c.candidates, j.deleted);
  }

  /** The command was taken up and carried out, or it was hopeless. */
  ghost predicate HasReason(s: Sys, step: Step, id: CommandID) {
    && step.Process? && step.id == id && id in s.active
    && (Overdue(s, id) || SomeLost(s, id, step.api) || (AllUp(s, id, step.api) && NoneRefused(s, id, step.deletions)))
  }

  lemma StepHasReason(s: Sys, step: Step, id: CommandID)
    requires Enabled(s, step) && id in s.waiting && id !in Apply(s, step).waiting
    ensures HasReason(s, step, id)
  {
    hide Judged, Sightings, Deletions;
    match step {
      case Process(other, api, deletions) =>
        if other == id && !HasReason(s, step, id) {
          WaitingCommandStays(s, id, api, deletions);
        }
      case _ =>
    }
  }

  /** Over every run, a command leaves the queue only on a step that carries it out or on which it is hopeless. */
  lemma {:induction false} LeavesForAReason(run: seq<Sys>, steps: seq<Step>, i: nat, n: nat, id: CommandID)
    returns (k: nat)
    requires Run(run, steps) && i <= n < |run| && id in run[i].waiting && id !in run[n].waiting
    ensures i <= k < n && k < |steps| && HasReason(run[k], steps[k], id)
    decreases n
  {
    hide Run, HasReason, Apply, Enabled;
    RunLength(run, steps);
    if id in run[n - 1].waiting {
      k := n - 1;
      RunStep(run, steps, k);
      StepHasReason(run[k], steps[k], id);
    } else {
      k := LeavesForAReason(run, steps, i, n - 1, id);
    }
  }
}
