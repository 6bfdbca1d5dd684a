/**
 The cluster state cache: nodes and node claims joined by provider id, two name indexes,
 pod bindings, and the usage of every node, all kept up by events that arrive in any order.
 */
module ClusterState {
  import opened Common
  import opened Resources
  import opened HostPorts
  import opened Volumes

  type ProviderID = string

  datatype NodeObject = NodeObject(name: string, providerID: ProviderID, managed: bool, initialized: bool,
    hasInstanceType: bool)

  datatype ClaimObject = ClaimObject(name: string, providerID: ProviderID)

  /** A pod as an event or a listing reports it; `volumes` is None when they cannot be determined. */
  datatype PodObject = PodObject(
    key: PodKey,
    nodeName: string,
    terminal: bool,
    daemon: bool,
    requests: ResourceList,
    ports: seq<HostPort>,
    volumes: Option<VolumeSet>)

  /** What a pod uses on its node; `daemons` is its share of what daemon sets use. */
  datatype PodUsage = PodUsage(requests: ResourceList, daemons: Option<ResourceList>, ports: seq<HostPort>,
    volumes: VolumeSet)

  datatype StateNode = StateNode(node: Option<NodeObject>, claim: Option<ClaimObject>, usage: map<PodKey, PodUsage>,
    marked: bool)

  const NEW_NODE := StateNode(None, None, map[], false)

  datatype Cache = Cache(
    nodes: map<ProviderID, StateNode>,
    bindings: map<PodKey, string>,
    nodeIDs: map<string, ProviderID>,
    claimIDs: map<string, ProviderID>)

  // ----- Usage of one node

  function CleanupForPod(n: StateNode, key: PodKey): StateNode { n.(usage := n.usage - {key}) }

  /** None if the pod's volumes cannot be determined; then nothing is tracked. */
  function UpdateForPod(n: StateNode, pod: PodObject): Option<StateNode> {
    if pod.volumes.None? then None
    else
      var daemons :=
        if pod.daemon then Some(pod.requests) else if pod.key in n.usage then n.usage[pod.key].daemons else None;
      Some(n.(usage := n.usage[pod.key := PodUsage(pod.requests, daemons, pod.ports, pod.volumes.value)]))
  }

  // ----- Lookups; an unknown name has the empty id

  function NodeID(c: Cache, name: string): ProviderID { if name in c.nodeIDs then c.nodeIDs[name] else "" }

  function ClaimID(c: Cache, name: string): ProviderID { if name in c.claimIDs then c.claimIDs[name] else "" }

  function Known(c: Cache, id: ProviderID): StateNode { if id in c.nodes then c.nodes[id] else NEW_NODE }

  // ----- Cleanups

  /** The entry must be there: the source dereferences it. */
  function CleanupNode(c: Cache, name: string): Cache
    requires NodeID(c, name) != "" ==> NodeID(c, name) in c.nodes
  {
    var id := NodeID(c, name);
    if id == "" then c
    else
      c.(nodes := if c.nodes[id].claim.None? then c.nodes - {id} else c.nodes[id := c.nodes[id].(node := None)],
         nodeIDs := c.nodeIDs - {name})
  }

  function CleanupClaim(c: Cache, name: string): Cache
    requires ClaimID(c, name) != "" ==> ClaimID(c, name) in c.nodes
  {
    var id := ClaimID(c, name);
    var nodes :=
      if id == "" then c.nodes
      else if c.nodes[id].node.None? then c.nodes - {id}
      else c.nodes[id := c.nodes[id].(claim := None)];
    c.(nodes := nodes, claimIDs := c.claimIDs - {name})
  }

  /** The pod leaves the node it was bound to before, if that was another one. */
  function CleanupOldBinding(c: Cache, key: PodKey, nodeName: string): Cache {
    if key !in c.bindings || c.bindings[key] == nodeName then c
    else
      var id := NodeID(c, c.bindings[key]);
      if id !in c.nodes then c
      else c.(nodes := c.nodes[id := CleanupForPod(c.nodes[id], key)], bindings := c.bindings - {key})
  }

  function Bind(c: Cache, pod: PodObject): Cache {
    var cleaned := CleanupOldBinding(c, pod.key, pod.nodeName);
    cleaned.(bindings := cleaned.bindings[pod.key := pod.nodeName])
  }

  // ----- Events

  datatype Populated = Populated(cache: Cache, node: StateNode, ok: bool)

  /** The listed pods, one by one, until one fails; those before it are bound even then. */
  function Populate(c: Cache, n: StateNode, pods: seq<PodObject>): Populated {
    if pods == [] then Populated(c, n, true)
    else
      var before, pod := Populate(c, n, pods[..|pods| - 1]), pods[|pods| - 1];
      if !before.ok || pod.terminal then before
      else match UpdateForPod(before.node, pod)
        case None => before.(ok := false)
        case Some(n') => Populated(Bind(before.cache, pod), n', true)
  }

  /**
   What the API server answers while a node event is handled: the pods on the node, and
   whether the other lookups succeed.
   */
  datatype Answers = Answers(pods: Option<seq<PodObject>>, limits: bool)

  predicate Ignored(node: NodeObject) {
    node.managed && (node.providerID == "" || (!node.hasInstanceType && !node.initialized))
  }

  /** An unmanaged node without provider id goes by its name. */
  function Effective(node: NodeObject): NodeObject {
    if node.providerID == "" then node.(providerID := node.name) else node
  }

  function StartNode(c: Cache, node: NodeObject): StateNode {
    var old' := Known(c, node.providerID);
    NEW_NODE.(node := Some(node), claim := old'.claim, marked := old'.marked)
  }

  /** The node's old entry goes if its id has changed, and the new one is stored. */
  function StoreNode(c: Cache, node: NodeObject, n: StateNode): Cache
    requires NodeID(c, node.name) != "" ==> NodeID(c, node.name) in c.nodes
  {
    var cleaned := if node.name in c.nodeIDs &&
      c.nodeIDs[node.name] != node.providerID then CleanupNode(c, node.name) else c;
    cleaned.(nodes := cleaned.nodes[node.providerID := n], nodeIDs := cleaned.nodeIDs[node.name := node.providerID])
  }

  /** The state after a node event, and whether it was handled. */
  function UpdateNode(c: Cache, event: NodeObject, answers: Answers): (Cache, bool)
    requires Coherent(c)
  {
    if Ignored(event) then (c, true)
    else
      var node := Effective(event);
      if answers.pods.None? then (c, false)
      else
        var p := Populate(c, StartNode(c, node), answers.pods.value);
        PopulateKeepsIndexes(c, StartNode(c, node), answers.pods.value);
        CoherentMeans(c, node.name);
        if !p.ok || !answers.limits then (p.cache, false) else (StoreNode(p.cache, node, p.node), true)
  }

  function DeleteNode(c: Cache, name: string): Cache
    requires Coherent(c)
  {
    CoherentMeans(c, name);
    CleanupNode(c, name)
  }

  function UpdateClaim(c: Cache, claim: ClaimObject): Cache
    requires Coherent(c)
  {
    if claim.providerID == "" then c.(claimIDs := c.claimIDs[claim.name := ""])
    else
      CoherentMeans(c, claim.name);
      var n := Known(c, claim.providerID).(claim := Some(claim));
      var cleaned := if claim.name in c.claimIDs &&
        c.claimIDs[claim.name] != claim.providerID then CleanupClaim(c, claim.name) else c;
      cleaned.(nodes := cleaned.nodes[claim.providerID := n],
        claimIDs := cleaned.claimIDs[claim.name := claim.providerID])
  }

  function DeleteClaim(c: Cache, name: string): Cache
    requires Coherent(c)
  {
    CoherentMeans(c, name);
    CleanupClaim(c, name)
  }

  function CompletePod(c: Cache, key: PodKey): Cache {
    if key !in c.bindings then c
    else
      var id := NodeID(c, c.bindings[key]);
      var unbound := c.(bindings := c.bindings - {key});
      if id !in c.nodes then unbound else unbound.(nodes := c.nodes[id := CleanupForPod(c.nodes[id], key)])
  }

  /** The state after a pod event, and whether it was handled. */
  function UpdatePod(c: Cache, pod: PodObject): (Cache, bool) {
    if pod.terminal then (CompletePod(c, pod.key), true)
    else if pod.nodeName == "" then (c, true)
    else
      var id := NodeID(c, pod.nodeName);
      if id !in c.nodes then (c, false)
      else match UpdateForPod(c.nodes[id], pod)
        case None => (c, false)
        case Some(n) => (Bind(c.(nodes := c.nodes[id := n]), pod), true)
  }

  // ----- Coherence

  /** Two maps that undo each other. */
  predicate Inverse(ids: map<string, ProviderID>, names: map<ProviderID, string>) {
    && (forall name :: name in ids ==> ids[name] in names && names[ids[name]] == name)
    && (forall id :: id in names ==> names[id] in ids && ids[names[id]] == id)
  }

  function NodeNames(nodes: map<ProviderID, StateNode>): map<ProviderID, string> {
    map id | id in nodes && nodes[id].node.Some? :: nodes[id].node.value.name
  }

  function ClaimNames(nodes: map<ProviderID, StateNode>): map<ProviderID, string> {
    map id | id in nodes && nodes[id].claim.Some? :: nodes[id].claim.value.name
  }

  /** The claims that have been launched. */
  function Launched(ids: map<string, ProviderID>): map<string, ProviderID> {
    map name | name in ids && ids[name] != "" :: ids[name]
  }

  /** A name in an index, unless its id is not known yet, leads to an entry that holds the named object, and back. */
  predicate Joined(c: Cache) {
    "" !in c.nodes && Inverse(c.nodeIDs, NodeNames(c.nodes)) && Inverse(Launched(c.claimIDs), ClaimNames(c.nodes))
  }

  /** No entry is without both a node and a claim. */
  predicate Inhabited(nodes: map<ProviderID, StateNode>) {
    forall id :: id in nodes ==> nodes[id].node.Some? || nodes[id].claim.Some?
  }

  /** A pod counts against an entry with a node only if it is bound to that node. */
  predicate Bound(n: StateNode, bindings: map<PodKey, string>) {
    n.node.Some? ==> forall p :: p in n.usage ==> p in bindings && bindings[p] == n.node.value.name
  }

  predicate CountedWhereBound(c: Cache) { forall id :: id in c.nodes ==> Bound(c.nodes[id], c.bindings) }

  predicate Coherent(c: Cache) { Joined(c) && Inhabited(c.nodes) && CountedWhereBound(c) }

  /** Every name with an id leads to an entry holding that object, so that no cleanup finds its entry missing. */
  lemma CoherentMeans(c: Cache, name: string)
    requires Coherent(c)
    ensures NodeID(c, name) != "" ==>
      && NodeID(c, name) in c.nodes
      && c.nodes[NodeID(c, name)].node.Some? && c.nodes[NodeID(c, name)].node.value.name == name
    ensures ClaimID(c, name) != "" ==>
      && ClaimID(c, name) in c.nodes
      && c.nodes[ClaimID(c, name)].claim.Some? && c.nodes[ClaimID(c, name)].claim.value.name == name
  {
    if name in c.nodeIDs {
      assert c.nodeIDs[name] in NodeNames(c.nodes);
    }
    if name in Launched(c.claimIDs) {
      assert c.claimIDs[name] in ClaimNames(c.nodes);
    }
  }

  /** No pod counts against two nodes of the cluster. */
  lemma CountedOnce(c: Cache, a: ProviderID, b: ProviderID, p: PodKey)
    requires Coherent(c) && a in c.nodes && b in c.nodes && c.nodes[a].node.Some? && c.nodes[b].node.Some?
    requires p in c.nodes[a].usage && p in c.nodes[b].usage
    ensures a == b
  {
    assert Bound(c.nodes[a], c.bindings) && Bound(c.nodes[b], c.bindings);
    assert a in NodeNames(c.nodes) && b in NodeNames(c.nodes);
  }

  /** Populating a node touches nothing but bindings and usage. */
  lemma {:induction false} PopulateKeepsIndexes(c: Cache, n: StateNode, pods: seq<PodObject>)
    ensures var p := Populate(c, n, pods); SameObjects(c, p.cache)
  {
    if pods != [] {
      PopulateKeepsIndexes(c, n, pods[..|pods| - 1]);
    }
  }

  /** Only bindings and usage differ. */
  predicate SameObjects(c: Cache, c': Cache) {
    && c'.nodeIDs == c.nodeIDs && c'.claimIDs == c.claimIDs && c'.nodes.Keys == c.nodes.Keys
    && forall id :: id in c.nodes ==>
         c'.nodes[id].node == c.nodes[id].node && c'.nodes[id].claim == c.nodes[id].claim &&
           c'.nodes[id].marked == c.nodes[id].marked
  }

  lemma SameObjectsJoined(c: Cache, c': Cache)
    requires Joined(c) && Inhabited(c.nodes) && SameObjects(c, c')
    ensures Joined(c') && Inhabited(c'.nodes)
  {
    assert NodeNames(c'.nodes) == NodeNames(c.nodes) && ClaimNames(c'.nodes) == ClaimNames(c.nodes);
  }

  // ----- Maps that undo each other

  lemma InverseInsert(ids: map<string, ProviderID>, names: map<ProviderID, string>, name: string, id: ProviderID)
    requires Inverse(ids, names) && (name in ids ==> ids[name] == id) && (id in names ==> names[id] == name)
    ensures Inverse(ids[name := id], names[id := name])
  {}

  lemma InverseRemove(ids: map<string, ProviderID>, names: map<ProviderID, string>, name: string)
    requires Inverse(ids, names)
    ensures name in ids ==> Inverse(ids - {name}, names - {ids[name]})
  {}

  /** The names after an entry is replaced or removed. */
  lemma NamesAfter(nodes: map<ProviderID, StateNode>, id: ProviderID, n: StateNode)
    ensures NodeNames(nodes[id := n]) == if n.node.Some?
      then NodeNames(nodes)[id := n.node.value.name] else NodeNames(nodes) - {id}
    ensures ClaimNames(nodes[id := n]) == if n.claim.Some?
      then ClaimNames(nodes)[id := n.claim.value.name] else ClaimNames(nodes) - {id}
    ensures NodeNames(nodes - {id}) == NodeNames(nodes) - {id} && ClaimNames(nodes - {id}) == ClaimNames(nodes) - {id}
  {
    NodeNamesAfter(nodes, id, n);
    ClaimNamesAfter(nodes, id, n);
  }

  lemma NodeNamesAfter(nodes: map<ProviderID, StateNode>, id: ProviderID, n: StateNode)
    ensures NodeNames(nodes[id := n]) == if n.node.Some?
      then NodeNames(nodes)[id := n.node.value.name] else NodeNames(nodes) - {id}
    ensures NodeNames(nodes - {id}) == NodeNames(nodes) - {id}
  {}

  lemma ClaimNamesAfter(nodes: map<ProviderID, StateNode>, id: ProviderID, n: StateNode)
    ensures ClaimNames(nodes[id := n]) == if n.claim.Some?
      then ClaimNames(nodes)[id := n.claim.value.name] else ClaimNames(nodes) - {id}
    ensures ClaimNames(nodes - {id}) == ClaimNames(nodes) - {id}
  {}

  lemma NamesOf(nodes: map<ProviderID, StateNode>, id: ProviderID)
    ensures id in NodeNames(nodes) <==> id in nodes && nodes[id].node.Some?
    ensures id in NodeNames(nodes) ==>
      NodeNames(nodes)[id] == nodes[id].node.value.name &&
        NodeNames(nodes)[id := NodeNames(nodes)[id]] == NodeNames(nodes)
    ensures id !in NodeNames(nodes) ==> NodeNames(nodes) - {id} == NodeNames(nodes)
    ensures id in ClaimNames(nodes) <==> id in nodes && nodes[id].claim.Some?
    ensures id in ClaimNames(nodes) ==>
      ClaimNames(nodes)[id] == nodes[id].claim.value.name &&
        ClaimNames(nodes)[id := ClaimNames(nodes)[id]] == ClaimNames(nodes)
    ensures id !in ClaimNames(nodes) ==> ClaimNames(nodes) - {id} == ClaimNames(nodes)
  {}

  // ----- Every event keeps the cache coherent

  lemma NodeAt(c: Cache, name: string)
    requires Joined(c) && NodeID(c, name) in c.nodes
    ensures name in c.nodeIDs && c.nodes[c.nodeIDs[name]].node.Some? && c.nodes[c.nodeIDs[name]].node.value.name == name
  {
    assert c.nodeIDs[name] in NodeNames(c.nodes);
  }

  /** Entries that hold a pod and a node are the node the pod is bound to. */
  lemma HolderOf(c: Cache, id: ProviderID, key: PodKey)
    requires Joined(c) && id in c.nodes && c.nodes[id].node.Some? && Bound(c.nodes[id], c.bindings) &&
      key in c.nodes[id].usage
    ensures key in c.bindings && NodeID(c, c.bindings[key]) == id
  {
    assert id in NodeNames(c.nodes);
  }

  /** The pod is bound to its node and counts nowhere else, whether or not it counts there already. */
  lemma BindKeepsCoherent(c: Cache, pod: PodObject)
    requires Coherent(c)
    ensures Coherent(Bind(c, pod)) && SameObjects(c, Bind(c, pod))
    ensures forall id :: id in c.nodes && c.nodes[id].node.Some? && c.nodes[id].node.value.name != pod.nodeName ==>
              pod.key !in Bind(c, pod).nodes[id].usage
  {
    hide Inverse, NodeNames, ClaimNames, Bound, Joined;
    var c' := Bind(c, pod);
    SameObjectsJoined(c, c');
    forall id | id in c'.nodes
      ensures Bound(c'.nodes[id], c'.bindings)
      ensures c'.nodes[id].node.Some? && c'.nodes[id].node.value.name != pod.nodeName ==> pod.key !in c'.nodes[id].usage
    {
      BindEntry(c, pod, id);
    }
  }

  lemma BindEntry(c: Cache, pod: PodObject, id: ProviderID)
    requires Coherent(c) && id in c.nodes
    ensures var c' := Bind(c, pod);
      && Bound(c'.nodes[id], c'.bindings)
      && (c'.nodes[id].node.Some? && c'.nodes[id].node.value.name != pod.nodeName ==> pod.key !in c'.nodes[id].usage)
  {
    hide Joined;
    assert Bound(c.nodes[id], c.bindings);
    if c.nodes[id].node.Some? && pod.key in c.nodes[id].usage {
      HolderOf(c, id, pod.key);
    }
  }

  lemma {:induction false} PopulateKeepsCoherent(c: Cache, n: StateNode, pods: seq<PodObject>)
    requires Coherent(c)
    ensures Coherent(Populate(c, n, pods).cache)
  {
    hide Coherent, Bind;
    if pods != [] {
      PopulateKeepsCoherent(c, n, pods[..|pods| - 1]);
      BindKeepsCoherent(Populate(c, n, pods[..|pods| - 1]).cache, pods[|pods| - 1]);
    }
  }

  /** The pods counted while populating a node are bound to it. */
  lemma {:induction false} PopulateBinds(c: Cache, n: StateNode, pods: seq<PodObject>, name: string)
    requires forall pod :: pod in pods ==> pod.nodeName == name
    ensures var p := Populate(c, n, pods);
      && p.node.node == n.node && p.node.claim == n.claim && p.node.marked == n.marked
      && forall key ::
        key in p.node.usage ==> key in n.usage || (key in p.cache.bindings && p.cache.bindings[key] == name)
  {
    if pods != [] {
      PopulateBinds(c, n, pods[..|pods| - 1], name);
      assert pods[|pods| - 1] in pods;
    }
  }

  lemma CleanupNodeKeepsCoherent(c: Cache, name: string)
    requires Coherent(c)
    ensures NodeID(c, name) != "" ==> NodeID(c, name) in c.nodes
    ensures Coherent(CleanupNode(c, name)) && name !in CleanupNode(c, name).nodeIDs
    ensures forall id :: id != NodeID(c, name) ==> Known(CleanupNode(c, name), id) == Known(c, id)
  {
    hide Inverse, NodeNames, ClaimNames, Bound;
    CoherentMeans(c, name);
    var id := NodeID(c, name);
    if name in c.nodeIDs {
      NamedIsLive(c, name);
      InverseRemove(c.nodeIDs, NodeNames(c.nodes), name);
      NamesOf(c.nodes, id);
      NamesAfter(c.nodes, id, c.nodes[id].(node := None));
      Nodeless(c.nodes[id], c.bindings);
    }
  }

  lemma Nodeless(n: StateNode, bindings: map<PodKey, string>)
    ensures Bound(n.(node := None), bindings)
    ensures forall claim :: Bound(n, bindings) ==> Bound(n.(claim := claim), bindings)
  {}

  lemma NamedIsLive(c: Cache, name: string)
    requires Coherent(c) && name in c.nodeIDs
    ensures c.nodeIDs[name] != "" && c.nodeIDs[name] in c.nodes
  {
    assert c.nodeIDs[name] in NodeNames(c.nodes);
  }

  lemma CleanupClaimKeepsCoherent(c: Cache, name: string)
    requires Coherent(c)
    ensures ClaimID(c, name) != "" ==> ClaimID(c, name) in c.nodes
    ensures Coherent(CleanupClaim(c, name)) && name !in CleanupClaim(c, name).claimIDs
    ensures forall id :: id != ClaimID(c, name) ==> Known(CleanupClaim(c, name), id) == Known(c, id)
  {
    hide Joined, Bound;
    CoherentMeans(c, name);
    CleanupClaimKeepsJoined(c, name);
    var id := ClaimID(c, name);
    if id != "" {
      Nodeless(c.nodes[id], c.bindings);
    }
  }

  lemma CleanupClaimKeepsJoined(c: Cache, name: string)
    requires Coherent(c) && (ClaimID(c, name) != "" ==> ClaimID(c, name) in c.nodes)
    ensures Joined(CleanupClaim(c, name))
  {
    hide Inverse, NodeNames, ClaimNames, Bound, Inhabited, CountedWhereBound;
    CoherentMeans(c, name);
    var c', id := CleanupClaim(c, name), ClaimID(c, name);
    assert Launched(c'.claimIDs) == Launched(c.claimIDs) - {name};
    hide Launched;
    if id != "" {
      assert name in Launched(c.claimIDs) && Launched(c.claimIDs)[name] == id by { LaunchedAt(c.claimIDs, name); }
      InverseRemove(Launched(c.claimIDs), ClaimNames(c.nodes), name);
      NamesOf(c.nodes, id);
      NamesAfter(c.nodes, id, c.nodes[id].(claim := None));
    } else {
      assert Launched(c.claimIDs) - {name} == Launched(c.claimIDs) by { LaunchedAt(c.claimIDs, name); }
    }
  }

  lemma LaunchedAt(ids: map<string, ProviderID>, name: string)
    ensures name in Launched(ids) <==> name in ids && ids[name] != ""
    ensures name in Launched(ids) ==> Launched(ids)[name] == ids[name]
  {}

  /** No other node is known under the id. */
  predicate OwnNodeID(c: Cache, node: NodeObject) {
    node.providerID != "" &&
      forall name :: name in c.nodeIDs && name != node.name ==> c.nodeIDs[name] != node.providerID
  }

  lemma InsertNodeKeepsCoherent(c: Cache, node: NodeObject, n: StateNode)
    requires Coherent(c) && OwnNodeID(c, node) && (node.name in c.nodeIDs ==> c.nodeIDs[node.name] == node.providerID)
    requires n.node == Some(node) && n.claim == Known(c, node.providerID).claim && Bound(n, c.bindings)
    ensures Coherent(c.(nodes := c.nodes[node.providerID := n], nodeIDs := c.nodeIDs[node.name := node.providerID]))
  {
    hide NodeNames, ClaimNames, Bound, Inverse;
    var id := node.providerID;
    NamesOf(c.nodes, id);
    NamesAfter(c.nodes, id, n);
    assert id in NodeNames(c.nodes) ==> NodeNames(c.nodes)[id] == node.name by { NameOfID(c, node); }
    InverseInsert(c.nodeIDs, NodeNames(c.nodes), node.name, id);
  }

  lemma NameOfID(c: Cache, node: NodeObject)
    requires Coherent(c) && OwnNodeID(c, node)
    ensures node.providerID in NodeNames(c.nodes) ==> NodeNames(c.nodes)[node.providerID] == node.name
  {}

  lemma StoreNodeKeepsCoherent(c: Cache, node: NodeObject, n: StateNode)
    requires Coherent(c) && OwnNodeID(c, node)
    requires n.node == Some(node) && n.claim == Known(c, node.providerID).claim && Bound(n, c.bindings)
    ensures NodeID(c, node.name) != "" ==> NodeID(c, node.name) in c.nodes
    ensures Coherent(StoreNode(c, node, n))
  {
    hide Coherent, Bound;
    CleanupNodeKeepsCoherent(c, node.name);
    if node.name in c.nodeIDs && c.nodeIDs[node.name] != node.providerID {
      InsertNodeKeepsCoherent(CleanupNode(c, node.name), node, n);
    } else {
      InsertNodeKeepsCoherent(c, node, n);
    }
  }

  /** A node stored under the id of another one leaves that one's name pointing at the wrong object. */
  lemma SharedNodeIDBreaks(c: Cache, node: NodeObject, n: StateNode)
    requires Coherent(c) && !OwnNodeID(c, node) && n.node == Some(node)
    requires NodeID(c, node.name) != "" ==> NodeID(c, node.name) in c.nodes
    ensures !Coherent(StoreNode(c, node, n))
  {
    hide Inhabited, CountedWhereBound;
    var c' := StoreNode(c, node, n);
    if node.providerID != "" {
      var name :| name in c.nodeIDs && name != node.name && c.nodeIDs[name] == node.providerID;
      assert c'.nodeIDs[name] == node.providerID && NodeNames(c'.nodes)[node.providerID] == node.name;
    }
  }

  /** Every lookup the node event needs succeeds. */
  predicate Answered(answers: Answers) {
    answers.limits && answers.pods.Some? &&
      forall pod :: pod in answers.pods.value ==> pod.terminal || pod.volumes.Some?
  }

  lemma {:induction false} PopulateSucceedsIff(c: Cache, n: StateNode, pods: seq<PodObject>)
    ensures Populate(c, n, pods).ok <==> forall pod :: pod in pods ==> pod.terminal || pod.volumes.Some?
  {
    hide Bind;
    if pods != [] {
      PopulateSucceedsIff(c, n, pods[..|pods| - 1]);
      assert pods == pods[..|pods| - 1] + [pods[|pods| - 1]];
    }
  }

  /** The pods of a node are listed under its name. */
  predicate ListedByName(event: NodeObject, answers: Answers) {
    answers.pods.Some? ==> forall pod :: pod in answers.pods.value ==> pod.nodeName == event.name
  }

  /** A node event breaks the cache exactly if the node is stored under an id that is empty or another node's. */
  lemma UpdateNodeKeepsCoherent(c: Cache, event: NodeObject, answers: Answers)
    requires Coherent(c) && ListedByName(event, answers)
    ensures Coherent(UpdateNode(c, event, answers).0) <==>
            Ignored(event) || !Answered(answers) || OwnNodeID(c, Effective(event))
  {
    hide Coherent, Populate, StoreNode, Ignored;
    if !Ignored(event) && answers.pods.Some? {
      var node := Effective(event);
      var start, pods := StartNode(c, node), answers.pods.value;
      var p := Populate(c, start, pods);
      PopulateKeepsCoherent(c, start, pods);
      PopulateKeepsIndexes(c, start, pods);
      PopulateSucceedsIff(c, start, pods);
      PopulateBinds(c, start, pods, node.name);
      if p.ok && answers.limits {
        CoherentMeans(c, node.name);
        if OwnNodeID(c, node) {
          StoreNodeKeepsCoherent(p.cache, node, p.node);
        } else {
          SharedNodeIDBreaks(p.cache, node, p.node);
        }
      }
    }
  }

  /** No other claim is known under the id, and an id once known is not cleared. */
  predicate OwnClaimID(c: Cache, claim: ClaimObject) {
    && (claim.providerID == "" ==> ClaimID(c, claim.name) == "")
    && (claim.providerID != "" ==> forall name :: name in c.claimIDs && name != claim.name ==>
      c.claimIDs[name] != claim.providerID)
  }

  lemma InsertClaimKeepsCoherent(c: Cache, claim: ClaimObject)
    requires Coherent(c) && OwnClaimID(c, claim) && claim.providerID != ""
    requires claim.name in c.claimIDs ==> c.claimIDs[claim.name] == claim.providerID
    ensures var n := Known(c, claim.providerID).(claim := Some(claim));
      Coherent(c.(nodes := c.nodes[claim.providerID := n], claimIDs := c.claimIDs[claim.name := claim.providerID]))
  {
    hide NodeNames, ClaimNames, Bound, Inverse;
    var id, n := claim.providerID, Known(c, claim.providerID).(claim := Some(claim));
    NamesOf(c.nodes, id);
    NamesAfter(c.nodes, id, n);
    assert id in ClaimNames(c.nodes) ==> ClaimNames(c.nodes)[id] == claim.name by { NameOfClaimID(c, claim); }
    InverseInsert(Launched(c.claimIDs), ClaimNames(c.nodes), claim.name, id);
    assert Launched(c.claimIDs[claim.name := id]) == Launched(c.claimIDs)[claim.name := id];
    Nodeless(Known(c, id), c.bindings);
    assert Bound(NEW_NODE, c.bindings) by { Nodeless(NEW_NODE, c.bindings); }
  }

  lemma NameOfClaimID(c: Cache, claim: ClaimObject)
    requires Coherent(c) && OwnClaimID(c, claim) && claim.providerID != ""
    ensures claim.providerID in ClaimNames(c.nodes) ==> ClaimNames(c.nodes)[claim.providerID] == claim.name
  {
    assert Inverse(Launched(c.claimIDs), ClaimNames(c.nodes));
  }

  /** A claim event breaks the cache exactly if it takes back an id or takes that of another claim. */
  lemma UpdateClaimKeepsCoherent(c: Cache, claim: ClaimObject)
    requires Coherent(c)
    ensures Coherent(UpdateClaim(c, claim)) <==> OwnClaimID(c, claim)
  {
    hide Coherent, CleanupClaim, Known;
    if OwnClaimID(c, claim) {
      OwnClaimIDKeeps(c, claim);
    } else {
      SharedClaimIDBreaks(c, claim);
    }
  }

  lemma SharedClaimIDBreaks(c: Cache, claim: ClaimObject)
    requires Coherent(c) && !OwnClaimID(c, claim)
    ensures !Coherent(UpdateClaim(c, claim))
  {
    hide Inhabited, CountedWhereBound;
    var c' := UpdateClaim(c, claim);
    CoherentMeans(c, claim.name);
    if claim.providerID == "" {
      var id := ClaimID(c, claim.name);
      assert id in ClaimNames(c'.nodes) && ClaimNames(c'.nodes)[id] == claim.name &&
        claim.name !in Launched(c'.claimIDs);
    } else {
      var name :| name in c.claimIDs && name != claim.name && c.claimIDs[name] == claim.providerID;
      assert name in Launched(c'.claimIDs) && Launched(c'.claimIDs)[name] == claim.providerID;
      assert ClaimNames(c'.nodes)[claim.providerID] == claim.name;
    }
  }

  lemma OwnClaimIDKeeps(c: Cache, claim: ClaimObject)
    requires Coherent(c) && OwnClaimID(c, claim)
    ensures Coherent(UpdateClaim(c, claim))
  {
    hide Bound;
    if claim.providerID == "" {
      var c' := UpdateClaim(c, claim);
      assert Launched(c'.claimIDs) == Launched(c.claimIDs);
    } else if claim.name in c.claimIDs && c.claimIDs[claim.name] != claim.providerID {
      CleanupClaimKeepsCoherent(c, claim.name);
      InsertClaimKeepsCoherent(CleanupClaim(c, claim.name), claim);
    } else {
      InsertClaimKeepsCoherent(c, claim);
    }
  }

  /** A pod that is gone is bound nowhere and counts on no node. */
  lemma CompletePodKeepsCoherent(c: Cache, key: PodKey)
    requires Coherent(c)
    ensures var c' := CompletePod(c, key);
      && Coherent(c') && key !in c'.bindings
      && forall id :: id in c'.nodes && c'.nodes[id].node.Some? ==> key !in c'.nodes[id].usage
  {
    hide Inverse;
    var c' := CompletePod(c, key);
    assert SameObjects(c, c');
    SameObjectsJoined(c, c');
    forall id | id in c'.nodes ensures Bound(c'.nodes[id], c'.bindings) {
      assert Bound(c.nodes[id], c.bindings);
      if c.nodes[id].node.Some? && key in c.nodes[id].usage {
        HolderOf(c, id, key);
      }
    }
  }

  lemma UpdatePodKeepsCoherent(c: Cache, pod: PodObject)
    requires Coherent(c)
    ensures Coherent(UpdatePod(c, pod).0)
  {
    hide Coherent, Bind, CompletePod;
    CompletePodKeepsCoherent(c, pod.key);
    if !pod.terminal && pod.nodeName != "" && NodeID(c, pod.nodeName) in c.nodes && pod.volumes.Some? {
      TrackPod(c, pod);
    }
  }

  lemma TrackPod(c: Cache, pod: PodObject)
    requires Coherent(c) && NodeID(c, pod.nodeName) in c.nodes && pod.volumes.Some?
    ensures var id := NodeID(c, pod.nodeName);
      Coherent(Bind(c.(nodes := c.nodes[id := UpdateForPod(c.nodes[id], pod).value]), pod))
  {
    hide Inverse, NodeNames, ClaimNames, Joined, Bound;
    var id := NodeID(c, pod.nodeName);
    NodeAt(c, pod.nodeName);
    var n := UpdateForPod(c.nodes[id], pod).value;
    var c' := Bind(c.(nodes := c.nodes[id := n]), pod);
    assert SameObjects(c, c');
    SameObjectsJoined(c, c');
    forall i | i in c'.nodes ensures Bound(c'.nodes[i], c'.bindings) {
      TrackEntry(c, pod, i);
    }
  }

  lemma TrackEntry(c: Cache, pod: PodObject, i: ProviderID)
    requires Coherent(c) && NodeID(c, pod.nodeName) in c.nodes && pod.volumes.Some? && i in c.nodes
    ensures var id := NodeID(c, pod.nodeName);
      var c' := Bind(c.(nodes := c.nodes[id := UpdateForPod(c.nodes[id], pod).value]), pod);
      Bound(c'.nodes[i], c'.bindings)
  {
    hide Inverse, NodeNames, ClaimNames, Joined;
    NodeAt(c, pod.nodeName);
    assert Bound(c.nodes[i], c.bindings);
    if c.nodes[i].node.Some? && pod.key in c.nodes[i].usage {
      HolderOf(c, i, pod.key);
    }
  }

  // ----- Runs

  datatype Event =
    | NodeUpdated(node: NodeObject, answers: Answers)
    | NodeDeleted(name: string)
    | ClaimUpdated(claim: ClaimObject)
    | ClaimDeleted(name: string)
    | PodUpdated(pod: PodObject)
    | PodDeleted(key: PodKey)

  /** Provider ids belong to one node and one claim and are not taken back. */
  predicate Expected(c: Cache, e: Event) {
    match e
    case NodeUpdated(node, answers) => Ignored(node) || !Answered(answers) || OwnNodeID(c, Effective(node))
    case ClaimUpdated(claim) => OwnClaimID(c, claim)
    case _ => true
  }

  function Handle(c: Cache, e: Event): Cache
    requires Coherent(c)
  {
    match e
    case NodeUpdated(node, answers) => UpdateNode(c, node, answers).0
    case NodeDeleted(name) => DeleteNode(c, name)
    case ClaimUpdated(claim) => UpdateClaim(c, claim)
    case ClaimDeleted(name) => DeleteClaim(c, name)
    case PodUpdated(pod) => UpdatePod(c, pod).0
    case PodDeleted(key) => CompletePod(c, key)
  }

  lemma HandleKeepsCoherent(c: Cache, e: Event)
    requires Coherent(c) && (e.NodeUpdated? ==> ListedByName(e.node, e.answers))
    ensures Coherent(Handle(c, e)) <==> Expected(c, e)
  {
    hide Coherent, UpdateNode, UpdateClaim, UpdatePod, CompletePod, OwnNodeID, OwnClaimID, Ignored, Answered,
      ListedByName;
    match e {
      case NodeUpdated(node, answers) => UpdateNodeKeepsCoherent(c, node, answers);
      case NodeDeleted(name) => CleanupNodeKeepsCoherent(c, name);
      case ClaimUpdated(claim) => UpdateClaimKeepsCoherent(c, claim);
      case ClaimDeleted(name) => CleanupClaimKeepsCoherent(c, name);
      case PodUpdated(pod) => UpdatePodKeepsCoherent(c, pod);
      case PodDeleted(key) => CompletePodKeepsCoherent(c, key);
    }
  }

  const EMPTY := Cache(map[], map[], map[], map[])

  /** The caches along a run, as long as they are coherent: cleanups of an incoherent one may find no entry. */
  ghost predicate Run(run: seq<Cache>, events: seq<Event>) {
    && |run| == |events| + 1 && run[0] == EMPTY
    && forall i :: 0 <= i < |events| ==>
         && (events[i].NodeUpdated? ==> ListedByName(events[i].node, events[i].answers))
         && (Coherent(run[i]) ==> run[i + 1] == Handle(run[i], events[i]))
  }

  ghost predicate AllExpected(run: seq<Cache>, events: seq<Event>)
    requires |run| == |events| + 1
  {
    forall i :: 0 <= i < |events| ==> Expected(run[i], events[i])
  }

  lemma {:induction false} ExpectedStaysCoherent(run: seq<Cache>, events: seq<Event>, n: nat)
    requires Run(run, events) && n < |run| && AllExpected(run, events)
    ensures Coherent(run[n])
  {
    hide Handle, Expected;
    if n > 0 {
      hide Coherent;
      ExpectedStaysCoherent(run, events, n - 1);
      HandleKeepsCoherent(run[n - 1], events[n - 1]);
    }
  }

  /**
   Whatever the events and their order, and however many fail half way, the cache is
   coherent throughout exactly if every event has an id of its own.
   */
  lemma RunStaysCoherent(run: seq<Cache>, events: seq<Event>)
    requires Run(run, events)
    ensures (forall c :: c in run ==> Coherent(c)) <==> AllExpected(run, events)
  {
    hide Handle, Expected, Coherent;
    if AllExpected(run, events) {
      forall n | 0 <= n < |run| ensures Coherent(run[n]) {
        ExpectedStaysCoherent(run, events, n);
      }
    } else {
      var i :| 0 <= i < |events| && !Expected(run[i], events[i]);
      assert run[i] in run && run[i + 1] in run;
      if Coherent(run[i]) {
        HandleKeepsCoherent(run[i], events[i]);
      }
    }
  }

  /** No pod is ever counted on two live nodes. */
  lemma NeverCountedTwice(run: seq<Cache>, events: seq<Event>, n: nat, a: ProviderID, b: ProviderID, p: PodKey)
    requires Run(run, events) && n < |run| && AllExpected(run, events)
    requires a in run[n].nodes && b in run[n].nodes && run[n].nodes[a].node.Some? && run[n].nodes[b].node.Some?
    requires p in run[n].nodes[a].usage && p in run[n].nodes[b].usage
    ensures a == b
  {
    hide Coherent, Run, AllExpected;
    ExpectedStaysCoherent(run, events, n);
    CountedOnce(run[n], a, b, p);
  }

  // Two nodes under one id.

  function NodeUnder(name: string): NodeObject { NodeObject(name, "id", false, true, true) }

  function Appears(name: string): Event { NodeUpdated(NodeUnder(name), Answers(Some([]), true)) }

  function Entry(name: string): StateNode { NEW_NODE.(node := Some(NodeUnder(name))) }

  lemma FirstAppears()
    ensures Coherent(EMPTY) && Coherent(Handle(EMPTY, Appears("a")))
    ensures Handle(EMPTY, Appears("a")) == Cache(map["id" := Entry("a")], map[], map["a" := "id"], map[])
  {
    hide Coherent;
    assert Coherent(EMPTY) by { NothingIsCoherent(); }
    HandleKeepsCoherent(EMPTY, Appears("a"));
    assert Populate(EMPTY, StartNode(EMPTY, NodeUnder("a")), []) == Populated(EMPTY, Entry("a"), true);
  }

  lemma NothingIsCoherent()
    ensures Coherent(EMPTY)
  {}

  /** Two nodes under one id break the cache: deleting the first leaves the second indexed to an entry that is gone. */
  lemma SharedIDExample()
    ensures Coherent(EMPTY) && Coherent(Handle(EMPTY, Appears("a")))
    ensures
      var one := Handle(EMPTY, Appears("a"));
      var both := Handle(one, Appears("b"));
      && !Expected(one, Appears("b")) && !Coherent(both) && "id" in both.nodes && NodeID(both, "a") == "id"
      && var after := CleanupNode(both, "a"); NodeID(after, "b") == "id" && "id" !in after.nodes
  {
    hide Coherent;
    FirstAppears();
    var one := Handle(EMPTY, Appears("a"));
    assert "a" in one.nodeIDs && one.nodeIDs["a"] == "id" && "b" != "a" by { assert "b"[0] != "a"[0]; }
    assert !Expected(one, Appears("b"));
    HandleKeepsCoherent(one, Appears("b"));
    assert StartNode(one, NodeUnder("b")) == Entry("b");
    assert Populate(one, Entry("b"), []) == Populated(one, Entry("b"), true);
    assert Handle(one, Appears("b")) == StoreNode(one, NodeUnder("b"), Entry("b"));
  }

  // ----- The cache as an object

  class Cluster {
    var nodes: map<ProviderID, StateNode>
    var bindings: map<PodKey, string>
    var nodeNameToProviderID: map<string, ProviderID>
    var nodeClaimNameToProviderID: map<string, ProviderID>

    ghost function View(): Cache reads this { Cache(nodes, bindings, nodeNameToProviderID, nodeClaimNameToProviderID) }

    constructor ()
      ensures View() == EMPTY && Coherent(View())
    {
      nodes, bindings, nodeNameToProviderID, nodeClaimNameToProviderID := map[], map[], map[], map[];
    }

    method UpdateNodeEvent(event: NodeObject, answers: Answers) returns (ok: bool)
      requires Coherent(View())
      modifies this
      ensures (View(), ok) == UpdateNode(old(View()), event, answers)
    {
      hide Coherent;
      if event.managed && event.providerID == "" {
        return true;
      }
      var node := if event.providerID == "" then event.(providerID := event.name) else event;
      if event.managed && !event.hasInstanceType && !event.initialized {
        return true;
      }
      var oldNode := if node.providerID in nodes then nodes[node.providerID] else NEW_NODE;
      var n := NEW_NODE.(node := Some(node), claim := oldNode.claim, marked := oldNode.marked);
      if answers.pods.None? {
        return false;
      }
      ghost var before := View();
      n, ok := PopulateResourceRequests(n, answers.pods.value);
      PopulateKeepsIndexes(before, StartNode(before, node), answers.pods.value);
      CoherentMeans(before, node.name);
      if !ok || !answers.limits {
        return false;
      }
      if node.name in nodeNameToProviderID && nodeNameToProviderID[node.name] != node.providerID {
        CleanupNodeEntry(node.name);
      }
      nodes := nodes[node.providerID := n];
      nodeNameToProviderID := nodeNameToProviderID[node.name := node.providerID];
    }

    method PopulateResourceRequests(start: StateNode, pods: seq<PodObject>) returns (n: StateNode, ok: bool)
      modifies this
      ensures Populated(View(), n, ok) == Populate(old(View()), start, pods)
    {
      hide UpdateForPod;
      n := start;
      ghost var before := View();
      for i := 0 to |pods|
        invariant Populated(View(), n, true) == Populate(before, start, pods[..i])
      {
        assert pods[..i + 1][..i] == pods[..i];
        if !pods[i].terminal {
          var updated := UpdateForPod(n, pods[i]);
          if updated.None? {
            FailureEnds(before, start, pods, i + 1);
            return n, false;
          }
          n := updated.value;
          BindPod(pods[i]);
        }
      }
      assert pods[..|pods|] == pods;
      ok := true;
    }

    method BindPod(pod: PodObject)
      modifies this
      ensures View() == Bind(old(View()), pod)
    {
      if pod.key in bindings && bindings[pod.key] != pod.nodeName {
        var name := bindings[pod.key];
        var id := if name in nodeNameToProviderID then nodeNameToProviderID[name] else "";
        if id in nodes {
          nodes := nodes[id := CleanupForPod(nodes[id], pod.key)];
          bindings := bindings - {pod.key};
        }
      }
      bindings := bindings[pod.key := pod.nodeName];
    }

    method CleanupNodeEntry(name: string)
      requires NodeID(View(), name) != "" ==> NodeID(View(), name) in nodes
      modifies this
      ensures View() == CleanupNode(old(View()), name)
    {
      var id := if name in nodeNameToProviderID then nodeNameToProviderID[name] else "";
      if id != "" {
        if nodes[id].claim.None? {
          nodes := nodes - {id};
        } else {
          nodes := nodes[id := nodes[id].(node := None)];
        }
        nodeNameToProviderID := nodeNameToProviderID - {name};
      }
    }

    method CleanupClaimEntry(name: string)
      requires ClaimID(View(), name) != "" ==> ClaimID(View(), name) in nodes
      modifies this
      ensures View() == CleanupClaim(old(View()), name)
    {
      var id := if name in nodeClaimNameToProviderID then nodeClaimNameToProviderID[name] else "";
      if id != "" {
        if nodes[id].node.None? {
          nodes := nodes - {id};
        } else {
          nodes := nodes[id := nodes[id].(claim := None)];
        }
      }
      nodeClaimNameToProviderID := nodeClaimNameToProviderID - {name};
    }

    method DeleteNodeEvent(name: string)
      requires Coherent(View())
      modifies this
      ensures View() == DeleteNode(old(View()), name) && Coherent(View())
    {
      hide Coherent;
      CoherentMeans(View(), name);
      CleanupNodeKeepsCoherent(View(), name);
      CleanupNodeEntry(name);
    }

    method UpdateClaimEvent(claim: ClaimObject)
      requires Coherent(View())
      modifies this
      ensures View() == UpdateClaim(old(View()), claim)
    {
      hide Coherent;
      if claim.providerID != "" {
        CoherentMeans(View(), claim.name);
        var n := (if claim.providerID in nodes then nodes[claim.providerID] else NEW_NODE).(claim := Some(claim));
        if claim.name in nodeClaimNameToProviderID && nodeClaimNameToProviderID[claim.name] != claim.providerID {
          CleanupClaimEntry(claim.name);
        }
        nodes := nodes[claim.providerID := n];
      }
      nodeClaimNameToProviderID := nodeClaimNameToProviderID[claim.name := claim.providerID];
    }

    method DeleteClaimEvent(name: string)
      requires Coherent(View())
      modifies this
      ensures View() == DeleteClaim(old(View()), name) && Coherent(View())
    {
      hide Coherent;
      CoherentMeans(View(), name);
      CleanupClaimKeepsCoherent(View(), name);
      CleanupClaimEntry(name);
    }

    method UpdatePodEvent(pod: PodObject) returns (ok: bool)
      requires Coherent(View())
      modifies this
      ensures (View(), ok) == UpdatePod(old(View()), pod) && Coherent(View())
    {
      hide Coherent, UpdateForPod;
      UpdatePodKeepsCoherent(View(), pod);
      if pod.terminal {
        CompletePodEvent(pod.key);
        return true;
      }
      if pod.nodeName == "" {
        return true;
      }
      var id := if pod.nodeName in nodeNameToProviderID then nodeNameToProviderID[pod.nodeName] else "";
      if id !in nodes {
        return false;
      }
      var updated := UpdateForPod(nodes[id], pod);
      if updated.None? {
        return false;
      }
      nodes := nodes[id := updated.value];
      BindPod(pod);
      ok := true;
    }

    method CompletePodEvent(key: PodKey)
      requires Coherent(View())
      modifies this
      ensures View() == CompletePod(old(View()), key) && Coherent(View())
    {
      hide Coherent;
      CompletePodKeepsCoherent(View(), key);
      if key in bindings {
        var name := bindings[key];
        bindings := bindings - {key};
        var id := if name in nodeNameToProviderID then nodeNameToProviderID[name] else "";
        if id in nodes {
          nodes := nodes[id := CleanupForPod(nodes[id], key)];
        }
      }
    }
  }

  /** Once a pod fails, the rest of the list is not looked at. */
  lemma {:induction false} FailureEnds(c: Cache, n: StateNode, pods: seq<PodObject>, i: nat)
    requires i <= |pods| && !Populate(c, n, pods[..i]).ok
    ensures Populate(c, n, pods) == Populate(c, n, pods[..i])
    decreases |pods|
  {
    if i == |pods| {
      assert pods[..i] == pods;
    } else {
      assert pods[..|pods| - 1][..i] == pods[..i];
      FailureEnds(c, n, pods[..|pods| - 1], i);
    }
  }
}
