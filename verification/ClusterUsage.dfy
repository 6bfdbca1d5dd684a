/**
 What the cluster state cache says nodes are used for.  A pod event or a node event that is
 handled leaves the pods concerned counted with exactly what they ask for, and whatever
 else happens, that stays until the pod or its node is mentioned again.
 */
module ClusterUsage {
  import opened Common
  import opened Resources
  import opened HostPorts
  import opened ClusterState

  // ----- What is counted

  /** What an entry counts for a pod, if anything. */
  function UsageAt(c: Cache, id: ProviderID, key: PodKey): Option<PodUsage> {
    if id in c.nodes && key in c.nodes[id].usage then Some(c.nodes[id].usage[key]) else None
  }

  function BindingOf(c: Cache, key: PodKey): Option<string> {
    if key in c.bindings then Some(c.bindings[key]) else None
  }

  /** The node is known under its name, and counts the pod with this usage. */
  predicate Counts(c: Cache, name: string, key: PodKey, u: PodUsage) {
    && name in c.nodeIDs && c.nodeIDs[name] in c.nodes
    && var n := c.nodes[c.nodeIDs[name]];
    n.node.Some? && n.node.value.name == name && key in n.usage && n.usage[key] == u
  }

  /** A pod with known volumes uses what it requests, its ports and its volumes. */
  function UsageOf(pod: PodObject, daemons: Option<ResourceList>): PodUsage
    requires pod.volumes.Some?
  {
    PodUsage(pod.requests, daemons, pod.ports, pod.volumes.value)
  }

  /** The share of a pod in what daemon sets use: all of it if it belongs to one, else what was noted for it before. */
  function DaemonShare(before: Option<PodUsage>, pod: PodObject): Option<ResourceList> {
    if pod.daemon then Some(pod.requests) else if before.Some? then before.value.daemons else None
  }

  /** Nothing but what concerns these pods differs. */
  ghost predicate SameForOthers(c: Cache, c': Cache, keys: set<PodKey>) {
    && SameObjects(c, c')
    && (forall id, k :: k !in keys ==> UsageAt(c', id, k) == UsageAt(c, id, k))
    && (forall k :: k !in keys ==> BindingOf(c', k) == BindingOf(c, k))
  }

  // ----- Pod events

  lemma BindIsLocal(c: Cache, pod: PodObject)
    ensures SameForOthers(c, Bind(c, pod), {pod.key}) && BindingOf(Bind(c, pod), pod.key) == Some(pod.nodeName)
  {}

  lemma CompletePodIsLocal(c: Cache, key: PodKey)
    ensures SameForOthers(c, CompletePod(c, key), {key})
  {}

  /**
   An event for a running pod on a node is handled iff the node and the pod's volumes are
   known.  Then the node counts exactly what the pod asks for, no other node counts it, and
   nothing else has changed; otherwise nothing has.
   */
  lemma PodEventCounts(c: Cache, pod: PodObject)
    requires Coherent(c) && !pod.terminal && pod.nodeName != ""
    ensures var (c', ok) := UpdatePod(c, pod); var id := NodeID(c, pod.nodeName);
      && (ok <==> id in c.nodes && pod.volumes.Some?)
      && (ok ==>
            && Counts(c', pod.nodeName, pod.key, UsageOf(pod, DaemonShare(UsageAt(c, id, pod.key), pod)))
            && BindingOf(c', pod.key) == Some(pod.nodeName)
            && (forall other :: other in c'.nodes && c'.nodes[other].node.Some? && other != id ==>
              UsageAt(c', other, pod.key) == None)
            && SameForOthers(c, c', {pod.key}))
      && (!ok ==> c' == c)
  {
    hide Coherent, Bind;
    var (c', ok) := UpdatePod(c, pod);
    var id := NodeID(c, pod.nodeName);
    if ok {
      var counted := c.(nodes := c.nodes[id := UpdateForPod(c.nodes[id], pod).value]);
      NodeOf(c, pod.nodeName);
      BindIsLocal(counted, pod);
      BindLeavesOwnNode(counted, pod);
      UpdatePodKeepsCoherent(c, pod);
      forall other | other in c'.nodes && c'.nodes[other].node.Some? && other != id
        ensures UsageAt(c', other, pod.key) == None {
        if pod.key in c'.nodes[other].usage {
          CountedOnce(c', other, id, pod.key);
        }
      }
    }
  }

  lemma NodeOf(c: Cache, name: string)
    requires Coherent(c) && NodeID(c, name) in c.nodes
    ensures name in c.nodeIDs && c.nodes[c.nodeIDs[name]].node.Some? && c.nodes[c.nodeIDs[name]].node.value.name == name
    ensures "" !in c.nodes
    ensures forall other :: other in c.nodeIDs && c.nodeIDs[other] == c.nodeIDs[name] ==> other == name
  {
    hide Bound;
    NodeAt(c, name);
  }

  /** Binding takes the pod off another node only. */
  lemma BindLeavesOwnNode(c: Cache, pod: PodObject)
    requires forall name :: name in c.nodeIDs && c.nodeIDs[name] == NodeID(c, pod.nodeName) ==> name == pod.nodeName
    requires NodeID(c, pod.nodeName) in c.nodes && pod.nodeName in c.nodeIDs && "" !in c.nodes
    ensures var id := NodeID(c, pod.nodeName); UsageAt(Bind(c, pod), id, pod.key) == UsageAt(c, id, pod.key)
  {}

  // ----- Node events

  function RunningKeys(pods: seq<PodObject>): set<PodKey> { set pod | pod in pods && !pod.terminal :: pod.key }

  /** No other running pod of the list has this one's key. */
  predicate Lone(pods: seq<PodObject>, i: nat)
    requires i < |pods|
  {
    !pods[i].terminal && forall j :: 0 <= j < |pods| && j != i && !pods[j].terminal ==> pods[j].key != pods[i].key
  }

  lemma RunningKeysStep(pods: seq<PodObject>)
    requires pods != []
    ensures var m := |pods| - 1;
      RunningKeys(pods) == RunningKeys(pods[..m]) + if pods[m].terminal then {} else {pods[m].key}
  {
    var m := |pods| - 1;
    assert pods == pods[..m] + [pods[m]];
  }

  lemma SameForMore(a: Cache, b: Cache, c: Cache, keys: set<PodKey>, more: set<PodKey>)
    requires SameForOthers(a, b, keys) && SameForOthers(b, c, more)
    ensures SameForOthers(a, c, keys + more)
  {
    hide UsageAt, BindingOf;
  }

  /** Populating an entry concerns no pod that is not listed. */
  lemma {:induction false} PopulateIsLocal(c: Cache, n: StateNode, pods: seq<PodObject>)
    ensures SameForOthers(c, Populate(c, n, pods).cache, RunningKeys(pods))
  {
    hide Bind, RunningKeys, SameForOthers;
    if pods == [] {
      SameAsItself(c, RunningKeys([]));
    } else {
      var m := |pods| - 1;
      var before, pod := Populate(c, n, pods[..m]), pods[m];
      PopulateIsLocal(c, n, pods[..m]);
      RunningKeysStep(pods);
      var after, more := Populate(c, n, pods).cache, if pod.terminal then {} else {pod.key};
      BindIsLocal(before.cache, pod);
      SameAsItself(before.cache, more);
      SameForMore(c, before.cache, after, RunningKeys(pods[..m]), more);
    }
  }

  lemma SameAsItself(c: Cache, keys: set<PodKey>)
    ensures SameForOthers(c, c, keys)
  {}

  /** The listed pod is counted with what it asks for. */
  predicate CountsListed(n: StateNode, pod: PodObject) {
    pod.volumes.Some? && pod.key in n.usage && n.usage[pod.key] == UsageOf(pod, DaemonShare(None, pod))
  }

  /** Populating an entry without pods counts the listed running pods, with what they ask for, and no others. */
  lemma {:induction false} PopulateCounts(c: Cache, n: StateNode, pods: seq<PodObject>)
    requires n.usage == map[]
    ensures var p := Populate(c, n, pods);
      && p.node == n.(usage := p.node.usage) && p.node.usage.Keys <= RunningKeys(pods)
      && (p.ok ==> p.node.usage.Keys == RunningKeys(pods))
      && (p.ok ==> forall i :: 0 <= i < |pods| && Lone(pods, i) ==> CountsListed(p.node, pods[i]))
  {
    hide Bind, RunningKeys, SameForOthers;
    if pods == [] {
      assert RunningKeys([]) == {} by { NoRunningKeys(); }
    } else {
      var m := |pods| - 1;
      PopulateCounts(c, n, pods[..m]);
      RunningKeysStep(pods);
      var before, p := Populate(c, n, pods[..m]), Populate(c, n, pods);
      if p.ok {
        forall i | 0 <= i < |pods| && Lone(pods, i) ensures CountsListed(p.node, pods[i]) {
          if i < m {
            assert Lone(pods[..m], i) && pods[..m][i] == pods[i];
          } else {
            LoneIsNew(pods);
          }
        }
      }
    }
  }

  lemma NoRunningKeys()
    ensures RunningKeys([]) == {}
  {}

  lemma LoneIsNew(pods: seq<PodObject>)
    requires pods != [] && Lone(pods, |pods| - 1)
    ensures pods[|pods| - 1].key !in RunningKeys(pods[..|pods| - 1])
  {}

  /**
   A node event that is handled leaves an entry with the node, the claim and the mark there
   were, that counts the listed running pods and no others, each with what it asks for.
   */
  lemma NodeEventCounts(c: Cache, event: NodeObject, answers: Answers)
    requires Coherent(c) && !Ignored(event) && UpdateNode(c, event, answers).1
    ensures var node, c' := Effective(event), UpdateNode(c, event, answers).0;
      && answers.pods.Some? && node.providerID in c'.nodes && NodeID(c', node.name) == node.providerID
      && var n, pods := c'.nodes[node.providerID], answers.pods.value;
      && n.node == Some(node) && n.usage.Keys == RunningKeys(pods)
      && n.claim == Known(c, node.providerID).claim && n.marked == Known(c, node.providerID).marked
      && forall i :: 0 <= i < |pods| && Lone(pods, i) ==>
           && pods[i].volumes.Some? && Counts(c', node.name, pods[i].key, UsageOf(pods[i], DaemonShare(None, pods[i])))
  {
    hide Coherent, Populate;
    var node, pods := Effective(event), answers.pods.value;
    PopulateCounts(c, StartNode(c, node), pods);
    PopulateKeepsIndexes(c, StartNode(c, node), pods);
  }

  // ----- Over runs

  /** The event is about the pod, or about the node of that name, or lists the pod on another node. */
  predicate Mentions(e: Event, name: string, key: PodKey) {
    match e
    case NodeUpdated(node, answers) =>
      node.name == name || (answers.pods.Some? && key in RunningKeys(answers.pods.value))
    case NodeDeleted(other) => other == name
    case ClaimUpdated(_) => false
    case ClaimDeleted(_) => false
    case PodUpdated(pod) => pod.key == key
    case PodDeleted(other) => other == key
  }

  lemma SameForOthersCounts(c: Cache, c': Cache, keys: set<PodKey>, name: string, key: PodKey, u: PodUsage)
    requires SameForOthers(c, c', keys) && Counts(c, name, key, u) && key !in keys
    ensures Counts(c', name, key, u)
  {
    assert UsageAt(c', c.nodeIDs[name], key) == UsageAt(c, c.nodeIDs[name], key);
  }

  lemma CleanupNodeCounts(c: Cache, other: string, name: string, key: PodKey, u: PodUsage)
    requires Coherent(c) && Counts(c, name, key, u) && other != name
    requires NodeID(c, other) != "" ==> NodeID(c, other) in c.nodes
    ensures Counts(CleanupNode(c, other), name, key, u)
  {
    hide Bound;
    if NodeID(c, other) != "" {
      assert c.nodeIDs[name] in NodeNames(c.nodes) && NodeNames(c.nodes)[c.nodeIDs[name]] == name;
      assert c.nodeIDs[other] in NodeNames(c.nodes) && NodeNames(c.nodes)[c.nodeIDs[other]] == other;
    }
  }

  lemma ClaimEventsCount(c: Cache, claim: ClaimObject, name: string, key: PodKey, u: PodUsage)
    requires Coherent(c) && Counts(c, name, key, u)
    ensures Counts(UpdateClaim(c, claim), name, key, u) && Counts(DeleteClaim(c, claim.name), name, key, u)
  {
    hide Coherent;
    CoherentMeans(c, claim.name);
  }

  lemma StoreNodeCounts(c: Cache, node: NodeObject, n: StateNode, name: string, key: PodKey, u: PodUsage)
    requires Coherent(c) && OwnNodeID(c, node) && node.name != name && Counts(c, name, key, u)
    requires NodeID(c, node.name) != "" ==> NodeID(c, node.name) in c.nodes
    ensures Counts(StoreNode(c, node, n), name, key, u)
  {
    hide Coherent, CleanupNode;
    CleanupNodeCounts(c, node.name, name, key, u);
    assert CleanupNode(c, node.name).nodeIDs[name] == c.nodeIDs[name] by { CleanupKeepsIDs(c, node.name, name); }
  }

  lemma CleanupKeepsIDs(c: Cache, other: string, name: string)
    requires name in c.nodeIDs && other != name && (NodeID(c, other) != "" ==> NodeID(c, other) in c.nodes)
    ensures name in CleanupNode(c, other).nodeIDs && CleanupNode(c, other).nodeIDs[name] == c.nodeIDs[name]
  {}

  lemma NodeEventKeepsCounts(c: Cache, event: NodeObject, answers: Answers, name: string, key: PodKey, u: PodUsage)
    requires Coherent(c) && ListedByName(event, answers) && Expected(c, NodeUpdated(event, answers))
    requires Counts(c, name, key, u) && !Mentions(NodeUpdated(event, answers), name, key)
    ensures Counts(UpdateNode(c, event, answers).0, name, key, u)
  {
    hide Coherent, Populate, StoreNode, Counts, SameForOthers;
    if !Ignored(event) && answers.pods.Some? {
      var node, pods := Effective(event), answers.pods.value;
      var p := Populate(c, StartNode(c, node), pods);
      PopulateIsLocal(c, StartNode(c, node), pods);
      PopulateKeepsIndexes(c, StartNode(c, node), pods);
      SameForOthersCounts(c, p.cache, RunningKeys(pods), name, key, u);
      if p.ok && answers.limits {
        PopulateSucceedsIff(c, StartNode(c, node), pods);
        PopulateKeepsCoherent(c, StartNode(c, node), pods);
        CoherentMeans(p.cache, node.name);
        StoreNodeCounts(p.cache, node, p.node, name, key, u);
      }
    }
  }

  /** What a node counts for a pod stays through every event that mentions neither. */
  lemma HandleKeepsCounts(c: Cache, e: Event, name: string, key: PodKey, u: PodUsage)
    requires Coherent(c) && Expected(c, e) && (e.NodeUpdated? ==> ListedByName(e.node, e.answers))
    requires Counts(c, name, key, u) && !Mentions(e, name, key)
    ensures Counts(Handle(c, e), name, key, u)
  {
    hide Coherent, UpdateNode, UpdateClaim, UpdatePod, CompletePod, CleanupNode, CleanupClaim, Counts, Expected,
      ListedByName;
    match e {
      case NodeUpdated(node, answers) => NodeEventKeepsCounts(c, node, answers, name, key, u);
      case NodeDeleted(other) =>
        CoherentMeans(c, other);
        CleanupNodeCounts(c, other, name, key, u);
      case ClaimUpdated(claim) => ClaimEventsCount(c, claim, name, key, u);
      case ClaimDeleted(other) => ClaimEventsCount(c, ClaimObject(other, ""), name, key, u);
      case PodUpdated(pod) =>
        UpdatePodIsLocal(c, pod);
        SameForOthersCounts(c, UpdatePod(c, pod).0, {pod.key}, name, key, u);
      case PodDeleted(other) =>
        CompletePodIsLocal(c, other);
        SameForOthersCounts(c, CompletePod(c, other), {other}, name, key, u);
    }
  }

  lemma UpdatePodIsLocal(c: Cache, pod: PodObject)
    requires Coherent(c)
    ensures SameForOthers(c, UpdatePod(c, pod).0, {pod.key})
  {
    hide Coherent, Bind, CompletePod;
    CompletePodIsLocal(c, pod.key);
    if !pod.terminal && pod.nodeName != "" {
      PodEventCounts(c, pod);
    }
  }

  /** Along a run, what a node counts for a pod stays until the pod or the node is mentioned. */
  lemma {:induction false} StaysCounted(
    run: seq<Cache>, events: seq<Event>, i: nat, n: nat, name: string, key: PodKey, u: PodUsage)
    requires Run(run, events) && AllExpected(run, events) && i <= n < |run| && Counts(run[i], name, key, u)
    requires forall j :: i <= j < n ==> !Mentions(events[j], name, key)
    ensures Counts(run[n], name, key, u)
    decreases n
  {
    hide Coherent, Handle, Expected, Counts, Mentions, ListedByName;
    if i < n {
      StaysCounted(run, events, i, n - 1, name, key, u);
      ExpectedStaysCoherent(run, events, n - 1);
      HandleKeepsCounts(run[n - 1], events[n - 1], name, key, u);
    }
  }

  /**
   After an event for a running pod on a known node, the cache counts exactly what the pod asks
   for, against that node, until an event mentions the pod or the node.
   */
  lemma PodIsCounted(run: seq<Cache>, events: seq<Event>, i: nat, n: nat, pod: PodObject)
    requires Run(run, events) && AllExpected(run, events) && i < n < |run| && events[i] == PodUpdated(pod)
    requires !pod.terminal && pod.nodeName != "" && NodeID(run[i], pod.nodeName) in run[i].nodes && pod.volumes.Some?
    requires forall j :: i < j < n ==> !Mentions(events[j], pod.nodeName, pod.key)
    ensures var share := DaemonShare(UsageAt(run[i], NodeID(run[i], pod.nodeName), pod.key), pod);
      Counts(run[n], pod.nodeName, pod.key, UsageOf(pod, share))
  {
    hide Coherent, UpdatePod, Expected, Counts, Mentions, AllExpected;
    ExpectedStaysCoherent(run, events, i);
    PodEventCounts(run[i], pod);
    var share := DaemonShare(UsageAt(run[i], NodeID(run[i], pod.nodeName), pod.key), pod);
    StaysCounted(run, events, i + 1, n, pod.nodeName, pod.key, UsageOf(pod, share));
  }

  /** After an event for a node that is handled, the same holds of every pod running there. */
  lemma ListedIsCounted(run: seq<Cache>, events: seq<Event>, i: nat, n: nat, k: nat)
    requires Run(run, events) && AllExpected(run, events) && i < n < |run| && events[i].NodeUpdated?
    requires !Ignored(events[i].node) && Answered(events[i].answers)
    requires var pods := events[i].answers.pods.value; k < |pods| && Lone(pods, k)
    requires forall j :: i < j < n ==> !Mentions(events[j], events[i].node.name, events[i].answers.pods.value[k].key)
    ensures var pod := events[i].answers.pods.value[k];
      pod.volumes.Some? && Counts(run[n], events[i].node.name, pod.key, UsageOf(pod, DaemonShare(None, pod)))
  {
    hide Coherent, UpdateNode, Expected, Counts, Mentions, AllExpected;
    ExpectedStaysCoherent(run, events, i);
    var node, answers := events[i].node, events[i].answers;
    HandledIff(run[i], node, answers);
    NodeEventCounts(run[i], node, answers);
    var pod := answers.pods.value[k];
    StaysCounted(run, events, i + 1, n, node.name, pod.key, UsageOf(pod, DaemonShare(None, pod)));
  }

  /** A node event is handled iff it is to be ignored or every answer is there. */
  lemma HandledIff(c: Cache, event: NodeObject, answers: Answers)
    requires Coherent(c)
    ensures UpdateNode(c, event, answers).1 <==> Ignored(event) || Answered(answers)
  {
    hide Coherent, Populate, StoreNode;
    if answers.pods.Some? {
      PopulateSucceedsIff(c, StartNode(c, Effective(event)), answers.pods.value);
    }
  }

  // ----- Claim events

  /** A claim event leaves an entry with the claim, and with the node, the usage and the mark there were. */
  lemma ClaimEventKeeps(c: Cache, claim: ClaimObject)
    requires Coherent(c) && claim.providerID != ""
    ensures var c' := UpdateClaim(c, claim);
      && claim.providerID in c'.nodes && ClaimID(c', claim.name) == claim.providerID
      && c'.nodes[claim.providerID] == Known(c, claim.providerID).(claim := Some(claim))
      && (forall id :: id in c'.nodes && id != claim.providerID ==>
            id in c.nodes && c'.nodes[id] == c.nodes[id].(claim := c'.nodes[id].claim))
      && (forall id :: id in c.nodes && c.nodes[id].node.Some? ==> id in c'.nodes)
  {
    hide Coherent;
    CoherentMeans(c, claim.name);
  }
}
