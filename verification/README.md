# Karpenter decision logic in Dafny

A model of the decision logic of Karpenter, the Kubernetes node autoscaler, with proofs
of what that logic promises. `dafny verify dfyconfig.toml` checks the whole project.

Four connected parts are modelled.

1. **Scheduling simulation.** A retry queue of pods; existing nodes and node claims that
   take pods if taints, host ports, volumes, resources, requirements, instance types and
   topology allow; node pool limits; preference relaxation; topology spread, affinity
   and anti-affinity, the last also through inverse groups. `Provisioning.Schedule` is one
   whole pass: every pod ends up on a returned node or claim exactly once or with an
   error, every node and claim satisfies its invariant, and pools stay within their
   limits. What it promises beyond that it promises of the pods as they were given,
   although they are relaxed on the way: a placed pod keeps what it insists on and its
   host serves it, pods that repel each other, or pods that run already, share no value
   of the topology key, a pod has the company its affinity terms ask for, topology spread
   keeps its skew, and a pod is left over only if nothing in the final plan takes it.
2. **Requirement algebra.** A requirement is a finite set of label values or a bounded
   complement of one. Intersection, addition and compatibility agree with plain sets, do
   not depend on order, and agree with Kubernetes node selectors under an exact condition.
3. **Disruption.** Budgets per pool and reason and the five methods that spend them, the
   binary search over candidate prefixes, price filtering of replacements, validation, and
   the orchestration queue as a protocol between two loops that the queue and controller
   objects carry out step by step.
4. **Cluster state cache.** Nodes and claims joined by provider id, two name indexes, pod
   bindings and per-node usage, kept coherent by events in any order.

## How the model is built

State that the program updates in place is a class (`TopologyGroup`, `Topology`,
`NodeClaim`, `ExistingNode`, `Scheduler`, `Queue`, `Ledger`, `Cluster`, ...). Its methods are
proved against functions or relations on an immutable view of the state, and the
properties of whole runs are lemmas about those. Iteration over a Go map is a loop that
picks any remaining key, so results hold for every order. Answers of the API server, the
cloud provider and the clock are parameters. Resource quantities are integers in a fixed
unit, prices are reals, the hash of a topology group is its tuple of fields; the source's
hash skips unexported fields, so that there two node filters with the same keys and other
values share a spread group, which the model keeps apart. The known topology domains are stored under canonical keys, as the keys of requirements are.

Files follow the program: `Requirement`, `Requirements`, `NodeSelector` (label
requirements); `Resources`, `HostPorts`, `Volumes`, `InstanceTypes`, `Pods`,
`Preferences`, `VolumeTopology`; `TopologyGroup`, `Topology`, `AntiAffinity`, `Affinity`;
`NodeClaim`, `ExistingNode`, `MissingLabel`, `Limits`, `Plan`, `SchedulerQueue`, `Scheduler`,
`SchedulerSetup`, `Solve`, `Results`; properties of whole runs in `Moves`, `RelaxedLookups`,
`FailedLookup`, `Inputs`, `RunningPods`, `SpreadSkew`, `RunCounts`, `AffinityRuns`,
`RunOutcome`, and a whole pass in `Provisioning`; `Budgets`, `DisruptionMethods`,
`MultiNodeSearch`, `Consolidation`, `Orchestration`, `DisruptionProtocol`,
`QueueRefinement`; `Cluster`, `ClusterUsage`.

## Where a natural statement fails

Each of these has a lemma with a concrete input, and a lemma that says exactly when the
property holds.

- `Len` does not see that a co-set with no integer between its bounds is empty
  (`GaplessExample`, `EmptyIffLenZeroOrGapless`).
- Printing a requirement keeps one bound only (`PrintExample`, `PrintRoundTrip`).
- Two expressions on one absent key can be compatible although the Kubernetes selector
  rejects the node (`MixedExpressionsExample`, `MatchesIffCompatible`).
- A spread domain named by the empty string hides admissible domains
  (`EmptyNameExample`, `NothingIffNoneAdmissible`).
- With no node claim template at all, `add` reports success for a pod that went nowhere
  (`NoTemplateDropsPod`, `AttemptKeeps`); `Schedule` stops before that.
- A failed lookup while a relaxed pod registers its groups is only logged and can end
  with two pods that repel each other in one zone (`FailedUpdateExample`). An update does
  no harm exactly if no lookup fails before the required terms are dealt with
  (`UpdateKeepsInv`), and no relaxation of a pod ever runs into that exactly if its spread
  groups can be counted under the node filters its required terms leave
  (`FollowableIff`); that is the condition of `Solve` and `Schedule`.
- A node whose deprecated and canonical labels disagree is refused although Kubernetes
  accepts it (`DisagreeingLabelsExample`, `FaithfulIff`, `DisagreeingIsAbsent`).
- Filtering the options of a multi-node replacement can dereference a nil claim
  (`PanicExample`; `FilterOutSameType` says exactly when).
- A pod that a spread constraint selects but that does not carry it can exceed the skew
  (`PassengerExample`, `RecordedEvenIff`); if every selected pod carries it the skew is
  kept (`GivenPodsStayEven`).
- A pod can be placed on a node without a label it selects, after a pod that merely
  excludes a value of that label (`MissingLabelExample`, `LabelsSuitIff`,
  `MissingLabelMeans`).
- A percentage budget is rounded up and can be exceeded by less than a node
  (`FivePercentOfTen`, `AllowedIs`, `NoBudgetExceeded`).
- Two nodes under one provider id break the cache (`SharedIDExample`,
  `UpdateNodeKeepsCoherent`, `RunStaysCoherent`).

## Model

| member | source | states |
|---|---|---|
| `RequirementAlgebra.NewIsNormal` | pkg/scheduling/requirement.go:44-84 | Every requirement built from an operator has the normal shape: canonical key, no bounds on a finite set, uncrossed bounds and no useless exclusions on a co-set |
| `RequirementAlgebra.IntersectionHas` | pkg/scheduling/requirement.go:155-188 | A value is in an intersection iff it is in both operands, for every value and every pair of normal requirements |
| `RequirementAlgebra.IntersectionIsNormal` | pkg/scheduling/requirement.go:155-188 | Intersection keeps the normal shape, so the laws below hold of everything reachable |
| `RequirementAlgebra.IntersectionIdempotent` | pkg/scheduling/requirement.go:155-188 | Structural idempotence on normal requirements |
| `RequirementAlgebra.IntersectionCommutative` | pkg/scheduling/requirement.go:155-188 | Structural commutativity on normal requirements of one key |
| `RequirementAlgebra.IntersectionAssociative` | pkg/scheduling/requirement.go:155-188 | Structural associativity on normal requirements of one key |
| `RequirementAlgebra.Intersect` | pkg/scheduling/requirement.go:155-188 | The loop that deletes out-of-bounds values from a fresh set computes the set-theoretic intersection |
| `RequirementAlgebra.EmptyIffLenZeroOrGapless` | pkg/scheduling/requirement.go:237-242 | Len is zero exactly for empty sets, except for a co-set whose bounds leave no integer between them |
| `RequirementAlgebra.GaplessExample` | pkg/scheduling/requirement.go:224-242 | Greater than 4 and less than 5 admits nothing and yet reports a positive length |
| `RequirementAlgebra.PrintRoundTrip` | pkg/scheduling/requirement.go:90-151 | Writing a requirement out and reading it back is the identity iff it has at most one bound and a bounded one excludes nothing |
| `Strconv.AtoiFormatInt` | pkg/scheduling/requirement.go:268-284 | Reading back a printed 64-bit integer gives that integer |
| `Strconv.FreshSpelling` | pkg/scheduling/requirement.go:268-284 | No finite set of strings contains every spelling of an integer |
| `Labels.NormalizeIsCanonical` | pkg/scheduling/requirement.go:44-48 | Rewriting a deprecated key once is enough |
| `RequirementSets.AddInOrder` | pkg/scheduling/requirements.go:127-134 | The loop over Add equals the fold that specifies it |
| `RequirementSets.AddAllPermutation` | pkg/scheduling/requirements.go:127-134 | Adding any permutation of a list of requirements yields the same requirement set |
| `RequirementSets.AddAllAllows` | pkg/scheduling/requirements.go:127-134 | A set built by Add allows a value iff the old set and every requirement added on that key allow it |
| `RequirementSets.AddListed` | pkg/scheduling/requirements.go:127-134 | Adding all requirements of a set, in any order, is the key-wise meet of the two sets |
| `RequirementSets.CopyListed` | pkg/scheduling/requirements.go:38-44 | Rebuilding a requirement set from its own requirements, in any order, gives the same set |
| `RequirementSets.MeetAllows` | pkg/scheduling/requirements.go:127-134 | The meet allows exactly what both sets allow |
| `RequirementSets.MeetNarrows` | pkg/scheduling/requirements.go:127-134 | The meet never allows more than either set |
| `RequirementSets.FoldedNarrows` | pkg/scheduling/requirements.go:56-62 | Folding a longer list of expressions never allows more than folding a part of it |
| `RequirementSets.NewLabelRequirements` | pkg/scheduling/requirements.go:65-71 | The loop over a label map, in any order, equals one requirement per canonical key that admits the agreed values |
| `NodeSelector.CompatibleWithLabels` | pkg/scheduling/requirements.go:176-187 | Against any label map, deprecated spellings included, with nothing allowed undefined: compatible iff every key whose spellings agree on a value has its requirement admit it and every other key has one that tolerates absence |
| `NodeSelector.DisagreeingIsAbsent` | pkg/scheduling/requirements.go:65-71 | A node whose spellings of a key disagree is treated exactly as a node without any spelling of it |
| `NodeSelector.DisagreeingLabelsExample` | pkg/scheduling/requirements.go:65-71 | Two architecture labels that disagree make a node refused that Kubernetes accepts |
| `NodeSelector.AgreedMatchesIffCompatible` | pkg/scheduling/requirements.go:176-187 | For every label map and every list of expressions: Kubernetes semantics on the agreed labels and canonical keys holds iff the folded expressions are compatible and none insists on an absent key |
| `NodeSelector.FaithfulIff` | pkg/scheduling/requirement.go:44-48 | Every expression on a key means the same to Kubernetes and to the canonical reading iff the key as spelled carries the value all its spellings agree on |
| `NodeSelector.AgreeingIsFaithful` | pkg/scheduling/requirement.go:44-48 | That is so of every canonical key, and every spelling carried, on a node that carries the canonical spelling with the same value beside each deprecated one |
| `NodeSelector.MatchesIffCompatible` | pkg/scheduling/requirements.go:176-187 | For expressions on such keys: Kubernetes node selector semantics holds iff the folded expressions are compatible and no expression on an absent key insists on presence |
| `NodeSelector.OneExpressionPerKey` | pkg/scheduling/requirements.go:176-187 | With one expression per such key, compatibility is exactly the Kubernetes node selector |
| `NodeSelector.MixedExpressionsExample` | pkg/scheduling/requirements.go:176-187 | Exists and NotIn on one absent key fold to NotIn and are accepted although Kubernetes rejects the node |
| `Resources.MergeInto` | pkg/utils/resources/resources.go:68-82 | Summing a list into another, resource by resource in any order, is the pointwise sum |
| `Resources.FitsIff` | pkg/utils/resources/resources.go:221-234 | A list fits iff nothing is overdrawn and every resource is covered; what is there always fits itself |
| `Resources.MaxResourcesBounds` | pkg/utils/resources/resources.go:175-185 | The maximum bounds every list that mentions the resource and is reached by one of them |
| `Resources.ComputePodRequests` | pkg/utils/resources/resources.go:102-132 | The three-accumulator loop equals the recursive definition |
| `Resources.RequestsArePeakDemand` | pkg/utils/resources/resources.go:102-132 | For every resource the request minus overhead is the greatest demand over all start-up phases, attained by one of them |
| `Resources.RequestsOfConcatenation` | pkg/utils/resources/resources.go:28-36 | Requests of two groups of pods together are the merge of the groups' requests, pod count included |
| `HostPorts.MatchesIff` | pkg/scheduling/hostportusage.go:49-60 | Two ports overlap iff there is an address on which both are claimed for one protocol and port number |
| `HostPorts.ReserveKeepsFree` | pkg/scheduling/hostportusage.go:70-85 | Reserving ports that conflict with no other pod keeps all pods pairwise free |
| `HostPorts.HostPortUsage.Add` | pkg/scheduling/hostportusage.go:70-72 | The reservation replaces the pod's own entry only, and keeps pairwise freedom |
| `HostPorts.HostPortUsage.FindConflict` | pkg/scheduling/hostportusage.go:74-85 | The nested loops find a conflict iff some port overlaps a port of another pod |
| `HostPorts.HostPortUsage.DeletePod` | pkg/scheduling/hostportusage.go:88-90 | Deleting a pod frees its ports and keeps pairwise freedom |
| `Volumes.InsertAll` | pkg/scheduling/volumeusage.go:56-81 | Joining volume sets driver by driver, in any order, is the union |
| `Volumes.KeepsLimitsIff` | pkg/scheduling/volumeusage.go:202-209 | Limits are kept iff no driver with a limit has more claims than it may attach |
| `Volumes.VolumeUsage.ExceedsLimits` | pkg/scheduling/volumeusage.go:202-209 | Reports an excess iff the union exceeds some driver's limit |
| `Volumes.VolumeUsage.Add` | pkg/scheduling/volumeusage.go:215-218 | The aggregate still covers what every pod mounts |
| `Volumes.VolumeUsage.DeletePod` | pkg/scheduling/volumeusage.go:220-227 | The rebuilt aggregate covers the remaining pods and nothing else |
| `InstanceTypes.OrderByPrice` | pkg/cloudprovider/types.go:102-119 | The result is a permutation ordered by cheapest compatible available price, then name |
| `InstanceTypes.Cheapest` | pkg/cloudprovider/types.go:264-268 | A member that no other undercuts |
| `InstanceTypes.MostExpensive` | pkg/cloudprovider/types.go:271-275 | A member that no other exceeds |
| `InstanceTypes.WorstBelowIff` | pkg/cloudprovider/types.go:280-295 | The worst launch price is below a limit iff every spot offering that may be bought is, failing that every on-demand one, failing that the largest price there is |
| `InstanceTypes.SatisfiesMinValues` | pkg/cloudprovider/types.go:163-197 | For a non-empty list: the least prefix length that covers every minValues key, and an error iff the whole list does not; an empty list is accepted |
| `InstanceTypes.CoveredMonotone` | pkg/cloudprovider/types.go:163-197 | A longer prefix covers whatever a shorter one covers |
| `InstanceTypes.CutStillCovers` | pkg/controllers/disruption/consolidation.go:271-277 | Cutting to max(15, needed) still satisfies minValues |
| `InstanceTypes.Truncate` | pkg/cloudprovider/types.go:201-210 | Some order by price is cut to the allowed length, or kept whole iff the cut list is not diverse enough, and the flag says which |
| `InstanceTypes.TruncationKeepsCheapest` | pkg/cloudprovider/types.go:201-210 | Whatever is kept is no dearer than whatever is cut, as many are kept as allowed and they satisfy minValues; a list that cannot be cut loses nothing |
| `Pods.ToleratesIff` | pkg/scheduling/taints.go:41-53 | A toleration with key and effect tolerates the taints of that key and effect, and value if it is given; an empty key or effect stands for any |
| `Pods.SortByWeightSorts` | pkg/scheduling/requirements.go:97-101 | Sorting preferences by weight gives a permutation, heaviest first |
| `Pods.HeaviestCounts` | pkg/scheduling/requirements.go:94-101 | The preference that is treated as required is one of the pod's and none is heavier; there is one iff the pod has any |
| `Pods.RequirementsWithNarrows` | pkg/scheduling/requirements.go:90-110 | Whatever preference is included, the first required term constrains the pod |
| `Pods.PodAllowsIff` | pkg/scheduling/requirements.go:90-110 | A pod allows exactly the label values that its node selector, the first of its required terms and the heaviest of its preferences allow; strictly, the preference does not count |
| `Pods.SelectorAgrees` | pkg/controllers/provisioning/scheduling/topology.go:399-435 | A label selector expression accepts a label map iff the node requirement with the same operator has the value, or allows the absence of the label |
| `PreferenceRelaxation.Preferences.Relax` | pkg/controllers/provisioning/scheduling/preferences.go:38-58 | The in-place edits compute the first applicable of the six relaxations, and report whether there was one |
| `PreferenceRelaxation.Preferences.RemoveScheduleAnyway` | pkg/controllers/provisioning/scheduling/preferences.go:91-101 | The first soft spread constraint is replaced by the last one |
| `PreferenceRelaxation.RelaxedDropsPotential` | pkg/controllers/provisioning/scheduling/preferences.go:38-147 | A relaxation happens iff a natural-number potential is positive, and lowers it by exactly one |
| `PreferenceRelaxation.RelaxesInOrder` | pkg/controllers/provisioning/scheduling/preferences.go:38-58 | A pod gives up one thing at a time, of the first kind it still has any of: required terms but the last from the front, preferred pod affinities, pod anti-affinities and node terms heaviest first, the first soft spread constraint, and last its dislike of soft taints; everything else stays |
| `PreferenceRelaxation.NotRelaxedIff` | pkg/controllers/provisioning/scheduling/preferences.go:38-58 | It cannot be relaxed iff it has none of these left |
| `PreferenceRelaxation.DropsHeaviest` | pkg/controllers/provisioning/scheduling/preferences.go:60-131 | What is dropped from a list of preferences is one term, and none was heavier |
| `PreferenceRelaxation.RelaxedKeepsHardTerms` | pkg/controllers/provisioning/scheduling/preferences.go:38-147 | Relaxation keeps required pod (anti-)affinity, the node selector, every hard spread constraint and every toleration; of the required node terms it never drops the last, and it adds nothing but one toleration |
| `PreferenceRelaxation.ReachedKeepsHardTerms` | pkg/controllers/provisioning/scheduling/preferences.go:38-147 | So does any number of relaxations, one after the other |
| `VolumeTopology.Inject` | pkg/controllers/provisioning/scheduling/volumetopology.go:42-78 | Appending in place to every required term equals the injected spec |
| `VolumeTopology.InjectedMeans` | pkg/controllers/provisioning/scheduling/volumetopology.go:42-78 | Injection keeps the pod's alternatives, or makes one if it had none; each allows a value iff it did before and the volume allows it, and nothing else about the pod changes |
| `VolumeTopology.InjectedIsBound` | pkg/controllers/provisioning/scheduling/volumetopology.go:67-72 | After injection every required term carries every volume expression |
| `VolumeTopology.RelaxationsStayBound` | pkg/controllers/provisioning/scheduling/volumetopology.go:67-72 | That survives any number of relaxations |
| `VolumeTopology.VolumeRequirementSurvives` | pkg/controllers/provisioning/scheduling/volumetopology.go:67-72 | After injection and any relaxations a required term remains, and neither the full nor the strict requirements admit a value the volume excludes |
| `TopologyGroups.MakeNodeFilter` | pkg/controllers/provisioning/scheduling/topologynodefilter.go:33-51 | The filter holds one alternative per required term, each joined with the node selector |
| `TopologyGroups.SelectsIff` | pkg/controllers/provisioning/scheduling/topologygroup.go:268-275 | A group selects a pod iff the pod is of one of its namespaces, carries its labels and meets its expressions, read as node requirements; a missing selector or one that does not parse selects none |
| `TopologyGroups.TopologyGroup.Record` | pkg/controllers/provisioning/scheduling/topologygroup.go:108-113 | Every domain recorded counts one more pod and is no longer empty; nothing else changes |
| `TopologyGroups.TopologyGroup.Register` | pkg/controllers/provisioning/scheduling/topologygroup.go:122-129 | A new domain starts empty at zero; a known one is untouched |
| `TopologyGroups.RecordIsConsistent` | pkg/controllers/provisioning/scheduling/topologygroup.go:108-129 | emptyDomains always equals the domains with count zero |
| `TopologyGroups.TopologyGroup.DomainMinCount` | pkg/controllers/provisioning/scheduling/topologygroup.go:196-217 | The global minimum over supported domains, zero for hostnames and when fewer than minDomains are supported |
| `TopologyGroups.TopologyGroup.NextDomainTopologySpread` | pkg/controllers/provisioning/scheduling/topologygroup.go:167-194 | For every map order the result is a least-count admissible domain, or nothing |
| `TopologyGroups.SpreadAnswer` | pkg/controllers/provisioning/scheduling/topologygroup.go:167-216 | The domain answered keeps the skew against every eligible domain, or against an empty one for host names and while fewer than minDomains are eligible, and holds the fewest pods of those that do; nothing is answered only if no domain the node allows keeps the skew, or the one named by the empty string holds the fewest |
| `TopologyGroups.TopologyGroup.NextDomainAffinity` | pkg/controllers/provisioning/scheduling/topologygroup.go:219-250 | For every map order the answer is one of those: the occupied domains the pod allows, or a bootstrap domain for a self-selecting pod that finds none |
| `TopologyGroups.AffinityAnswer` | pkg/controllers/provisioning/scheduling/topologygroup.go:219-249 | Where the group has pods in domains the pod allows, the answer is exactly these domains; where it has none, the answer is empty, unless the pod is of the group itself: then some known domain it allows, one the node allows too if there is one |
| `TopologyGroups.TopologyGroup.NextDomainAntiAffinity` | pkg/controllers/provisioning/scheduling/topologygroup.go:252-265 | Exactly the domains the pod allows that no matching pod occupies |
| `TopologyGroups.AntiAffinityAnswer` | pkg/controllers/provisioning/scheduling/topologygroup.go:252-266 | A domain is in the answer iff it is known, the pod allows it and it holds no pod of the group |
| `TopologyGroups.TopologyGroup.Get` | pkg/controllers/provisioning/scheduling/topologygroup.go:95-106 | Each kind of group answers with its own choice |
| `TopologyGroups.ChosenIsLeastAdmissible` | pkg/controllers/provisioning/scheduling/topologygroup.go:167-194 | A single-domain answer is an admissible domain of least count |
| `TopologyGroups.PlacementKeepsSkew` | pkg/controllers/provisioning/scheduling/topologygroup.go:167-217 | Choosing for and recording one self-selecting pod keeps the skew within maxSkew |
| `TopologyGroups.RunKeepsSkew` | pkg/controllers/provisioning/scheduling/topologygroup.go:167-217 | So does any sequence of choose-then-record steps |
| `TopologyGroups.NothingIffNoneAdmissible` | pkg/controllers/provisioning/scheduling/topologygroup.go:167-194 | Every possible answer is nothing exactly when no domain is admissible, if and only if the empty string is not itself an admissible domain of least count |
| `TopologyGroups.EmptyNameExample` | pkg/controllers/provisioning/scheduling/topologygroup.go:172-190 | A domain named by the empty string hides an admissible one |
| `Topologies.NewTopology` | pkg/controllers/provisioning/scheduling/topology.go:62-86 | Running pods are tracked, then each batch pod registers its groups; success iff every lookup succeeded |
| `Topologies.Topology.Update` | pkg/controllers/provisioning/scheduling/topology.go:105-136 | The pod gives up the groups it owned and owns those its current spec asks for, up to the first failed lookup, the two kinds of affinity in either order |
| `Topologies.Topology.Record` | pkg/controllers/provisioning/scheduling/topology.go:139-162 | Every group that counts the pod, and every inverse group it owns, records the domains the node may land in |
| `Topologies.Topology.AddRequirements` | pkg/controllers/provisioning/scheduling/topology.go:168-190 | Success means every matching group was asked once and all answers were satisfiable and added; failure means some matching group has no answer |
| `Topologies.Topology.Register` | pkg/controllers/provisioning/scheduling/topology.go:193-204 | The domain becomes known to every group and inverse group on the key, and to no other |
| `Topologies.Topology.UpdateInverseAntiAffinity` | pkg/controllers/provisioning/scheduling/topology.go:225-250 | The pod owns one inverse group per required term, counted at its node if it runs on one |
| `Topologies.Topology.UpdateTopologies` | pkg/controllers/provisioning/scheduling/topology.go:121-135 | Groups are created and counted once, and owned in order until a lookup fails |
| `Topologies.Topology.MatchingTopologies` | pkg/controllers/provisioning/scheduling/topology.go:384-397 | Each group the pod owns and each inverse group that counts it, exactly once |
| `Topologies.CountDomains` | pkg/controllers/provisioning/scheduling/topology.go:256-309 | The loop over the listed pods fails iff listing fails or a pod that counts has a node that cannot be told, and otherwise records one domain per pod that counts |
| `Topologies.CountsInIff` | pkg/controllers/provisioning/scheduling/topology.go:256-309 | A listed pod counts in a domain iff it is scheduled and there to stay, not of the batch, and its node exists, passes the filter and carries the domain as its label, or as its name for a host name label that is not set yet |
| `Topologies.ListedAre` | pkg/controllers/provisioning/scheduling/topology.go:256-309 | Each domain is recorded exactly once per pod that is scheduled, not ending, not excluded, on a node that exists, has the domain (or is named after it) and passes the node filter |
| `Topologies.RecordEachCounts` | pkg/controllers/provisioning/scheduling/topology.go:256-309 | Recording a list of domains raises each count by its number of entries |
| `AffinityDemands.TightenedJoins` | pkg/controllers/provisioning/scheduling/topology.go:168-190 | What the topology leaves of a node's requirements is confined to domains where each affinity group of the pod has a pod, unless the pod starts the group |
| `AffinityDemands.PlacementJoins` | pkg/controllers/provisioning/scheduling/nodeclaim.go:86-105 | So are the requirements a node or claim ends up with, for all affinity groups of the pod at once |
| `AntiAffinitySafety.TightenedIsClear` | pkg/controllers/provisioning/scheduling/topology.go:168-190 | A matching anti-affinity group confines the node to finitely many values, none of them occupied |
| `AntiAffinitySafety.PlacementClears` | pkg/controllers/provisioning/scheduling/topology.go:168-190 | The requirements a placement computes only narrow the node's and stay clear of every matching occupied domain |
| `AntiAffinitySafety.PlacementKeepsInv` | pkg/controllers/provisioning/scheduling/topology.go:139-190 | Placing a pod on any node, or on a new one, keeps: owners, occupied domains in both directions, and separation of all placed pods |
| `AntiAffinitySafety.UpdateKeepsInv` | pkg/controllers/provisioning/scheduling/topology.go:105-136 | Registering a relaxed pod of the batch again keeps all of that if and only if no lookup fails before its required anti-affinity terms are dealt with |
| `AntiAffinitySafety.UpdateSucceedsIff` | pkg/controllers/provisioning/scheduling/topology.go:105-136 | Registering succeeds iff each group asked for is known or can be counted, in whichever order the two kinds of affinity come |
| `AntiAffinitySafety.UpdateOwnsIff` | pkg/controllers/provisioning/scheduling/topology.go:105-136 | A pod that registers again owns exactly the groups its present spec asks for, if all can be counted |
| `AntiAffinitySafety.OwnedIff` | pkg/controllers/provisioning/scheduling/topology.go:121-135 | A pod that owned nothing ends up owning exactly the groups asked for before the first failing lookup |
| `AntiAffinitySafety.RegisterKeepsInv` | pkg/controllers/provisioning/scheduling/topology.go:193-204 | New domains disturb nothing |
| `AntiAffinitySafety.InitialInv` | pkg/controllers/provisioning/scheduling/topology.go:62-86 | A freshly built topology starts in the invariant |
| `AntiAffinitySafety.InitialTopoSucceedsIff` | pkg/controllers/provisioning/scheduling/topology.go:62-86 | The topology can be built iff every group the batch asks for can be counted |
| `RelaxedLookups.FollowableIff` | pkg/controllers/provisioning/scheduling/topology.go:105-136 | No relaxation of a pod, ever, runs into a failing lookup before its required anti-affinity is dealt with iff its present groups can be counted and its spread groups also under each node filter left as required terms are dropped |
| `FailedLookup.FailedUpdateExample` | pkg/controllers/provisioning/scheduling/scheduler.go:213-225 | A run from a topology built without error, with templates that promise no GPU: a pod that wants one is refused by the node and declined by every template, relaxed, its update fails, and it follows the pod it repels onto one node |
| `NodeClaims.FilterInstanceTypes` | pkg/controllers/provisioning/scheduling/nodeclaim.go:242-287 | Keeps exactly the types that are compatible, fit, and have a compatible available offering, or none if they are not diverse enough |
| `NodeClaims.SuitsIff` | pkg/controllers/provisioning/scheduling/nodeclaim.go:242-295 | A type is kept iff the system takes no more than its capacity, every resource asked for is within the rest, its labels can be what is required, and an available offering is compatible |
| `NodeClaims.NodeClaim.constructor` | pkg/controllers/provisioning/scheduling/nodeclaim.go:46-63 | The claim carries the template's requirements and its host name, which the topology now knows |
| `NodeClaims.NodeClaim.Add` | pkg/controllers/provisioning/scheduling/nodeclaim.go:65-120 | On success every check passed under the topology's answer and the whole new state is given; on failure nothing changed and some check fails |
| `NodeClaims.AddKeepsClaim` | pkg/controllers/provisioning/scheduling/nodeclaim.go:65-120 | One addition keeps the claim invariant: account, non-empty suitable options, containment in every pod's requirements, tolerated taints, free ports; options shrink and requirements narrow |
| `NodeClaims.ClaimRunKeepsInv` | pkg/controllers/provisioning/scheduling/nodeclaim.go:65-120 | The invariant holds after any sequence of additions |
| `NodeClaims.EveryOptionCarriesAll` | pkg/controllers/provisioning/scheduling/nodeclaim.go:65-121 | Whichever type is launched for a claim, its capacity less the system's share covers the daemons and all pods of the claim in every resource, and it can be bought as required |
| `NodeClaims.PlacedPodsArePortFree` | pkg/controllers/provisioning/scheduling/nodeclaim.go:65-120 | No two pods with different names on a claim overlap in host ports |
| `NodeClaims.OpenedInv` | pkg/controllers/provisioning/scheduling/nodeclaim.go:46-63 | A new claim satisfies the invariant |
| `ExistingNodes.NewExistingNode` | pkg/controllers/provisioning/scheduling/existingnode.go:40-62 | Remaining daemon requests never go negative, and the host name is a known domain |
| `ExistingNodes.ExistingNode.Add` | pkg/controllers/provisioning/scheduling/existingnode.go:64-124 | On success taints, volumes, ports, resources, requirements and topology all allowed it, and the whole new state is given; on failure nothing changed and one of them refuses |
| `ExistingNodes.AddKeepsNode` | pkg/controllers/provisioning/scheduling/existingnode.go:64-124 | One addition keeps the node invariant and frees nothing that was taken; the requirements go on saying of every label of the node what the node has, and each pod's requirements meet these labels |
| `ExistingNodes.LabelsSuitIff` | pkg/controllers/provisioning/scheduling/existingnode.go:64-124 | The labels of a node are compatible with a pod placed on it iff the pod does without every label that the node does not have |
| `ExistingNodes.MissingLabelMeans` | pkg/controllers/provisioning/scheduling/existingnode.go:64-124 | A pod that insists on a label the node does not have got there only because another pod there put up a requirement on it while doing without, or because the topology left no value |
| `MissingLabel.MissingLabelExample` | pkg/controllers/provisioning/scheduling/existingnode.go:93-110 | A pod that wants no hard disk, then one that selects a solid-state disk: both are placed on a node without the label |
| `ExistingNodes.NodePortsAreFree` | pkg/controllers/provisioning/scheduling/existingnode.go:75-84 | Pods placed on a node overlap in host ports neither with each other nor with the pods that were there |
| `ExistingNodes.NodeRunKeepsInv` | pkg/controllers/provisioning/scheduling/existingnode.go:64-124 | After any additions with one success: bound, daemon and placed requests are within allocatable, volumes within limits and covering every pod, ports still pairwise free |
| `ExistingNodes.DaemonsToCome` | pkg/controllers/provisioning/scheduling/existingnode.go:43-52 | Expected daemons minus those bound, lifted to zero where negative |
| `NodePoolLimits.FilterByRemainingResources` | pkg/controllers/provisioning/scheduling/scheduler.go:378-394 | Keeps exactly the types within every remaining resource |
| `NodePoolLimits.AffordableIff` | pkg/controllers/provisioning/scheduling/scheduler.go:378-394 | A type is offered iff launching it overdraws none of the limited resources |
| `NodePoolLimits.OverLimitBlocks` | pkg/controllers/provisioning/scheduling/scheduler.go:378-394 | A pool over one of its limits is offered no instance type |
| `Plans.OverLimitPoolStaysEmpty` | pkg/controllers/provisioning/scheduling/scheduler.go:248-394 | In every plan a pool that starts over one of its limits has no claim |
| `NodePoolLimits.ReserveLargest` | pkg/controllers/provisioning/scheduling/scheduler.go:358-375 | What remains after the largest amount of each resource |
| `NodePoolLimits.SubtractMaxIsLargest` | pkg/controllers/provisioning/scheduling/scheduler.go:358-375 | For non-negative capacities that is the remaining amount minus the largest option |
| `NodePoolLimits.OpenKeepsLimits` | pkg/controllers/provisioning/scheduling/scheduler.go:268-293 | Opening a claim keeps: the books never overstate what is left, and what claims may become fits the pool |
| `NodePoolLimits.ShrinkKeepsLimits` | pkg/controllers/provisioning/scheduling/scheduler.go:261-265 | Placing more pods on a claim keeps it |
| `NodePoolLimits.ReorderKeepsLimits` | pkg/controllers/provisioning/scheduling/scheduler.go:257-258 | So does sorting the claims |
| `NodePoolLimits.LaunchesStayWithinLimits` | pkg/controllers/provisioning/scheduling/scheduler.go:248-394 | For every choice of one option per claim, a pool with a claim stays within what it had at the start |
| `SchedulerSetup.StartBudgetsAre` | pkg/controllers/provisioning/scheduling/scheduler.go:298-333 | What a pool has at the start is its limit minus the capacity of its nodes |
| `SchedulerSetup.DaemonsAre` | pkg/controllers/provisioning/scheduling/scheduler.go:298-318 | Each daemon whose tolerations and node terms fit the node is charged to it once, and no other is |
| `SchedulerSetup.PoolStaysWithinLimits` | pkg/controllers/provisioning/scheduling/scheduler.go:248-394 | Existing capacity plus any choice of launches stays within every limited resource of a pool that got a claim |
| `SchedulerSetup.CalculateExisting` | pkg/controllers/provisioning/scheduling/scheduler.go:298-333 | Every node is wrapped once with its daemons, its host name registered, and its capacity charged to its pool |
| `SchedulerSetup.NewScheduler` | pkg/controllers/provisioning/scheduling/scheduler.go:47-78 | The scheduler starts valid, with the cluster's nodes, initialized ones first, and nothing placed |
| `Plans.PutOnNodeKeepsPlan` | pkg/controllers/provisioning/scheduling/scheduler.go:248-255 | Placing on a node keeps all node, claim and limit invariants |
| `Plans.PutOnClaimKeepsPlan` | pkg/controllers/provisioning/scheduling/scheduler.go:260-265 | Placing on an open claim keeps them |
| `Plans.PutOnNewKeepsPlan` | pkg/controllers/provisioning/scheduling/scheduler.go:267-293 | Placing on a new claim keeps them |
| `Plans.PutOnNodeSeparates` | pkg/controllers/provisioning/scheduling/scheduler.go:248-255 | Placing on a node keeps repelling pods apart |
| `Plans.PutOnClaimSeparates` | pkg/controllers/provisioning/scheduling/scheduler.go:260-265 | Placing on an open claim keeps repelling pods apart |
| `Plans.PutOnNewSeparates` | pkg/controllers/provisioning/scheduling/scheduler.go:267-293 | Placing on a new claim keeps repelling pods apart |
| `Scheduling.TryNodes` | pkg/controllers/provisioning/scheduling/scheduler.go:249-254 | The first node that takes the pod gets it; otherwise all refused and nothing changed |
| `Scheduling.TryClaims` | pkg/controllers/provisioning/scheduling/scheduler.go:260-265 | The first claim that takes the pod gets it; otherwise all refused and nothing changed |
| `Scheduling.Scheduler.Sort` | pkg/controllers/provisioning/scheduling/scheduler.go:257-258 | Claims are permuted, fewest pods first |
| `Scheduling.Scheduler.TryTemplate` | pkg/controllers/provisioning/scheduling/scheduler.go:269-292 | A template yields a claim from affordable types only; it declines only if its limits leave no type or a claim opened from it refuses the pod, and then at most one more host name is known |
| `Scheduling.Scheduler.Add` | pkg/controllers/provisioning/scheduling/scheduler.go:248-296 | The pod is placed on the first node that takes it, else, with every node refusing, on the first open claim that takes it, fewest pods first, else, with every claim refusing too, on a claim from the first template that does not decline; on failure nodes and claims refuse, every template declines and nothing is placed; with no template failure is reported as success |
| `Scheduling.PlacedOnNewProgress` | pkg/controllers/provisioning/scheduling/scheduler.go:248-296 | A placement on a new claim adds exactly this pod once and keeps every invariant of the plan |
| `Scheduling.PlaceholdersDiffer` | pkg/controllers/provisioning/scheduling/nodeclaim.go:44-48 | Placeholder host names of different numbers differ, zero-padded as they are |
| `Scheduling.Scheduler.UpdateTopology` | pkg/controllers/provisioning/scheduling/scheduler.go:219-224 | Updating the topology leaves nodes, claims and limits alone |
| `SchedulerQueue.Queue.Pop` | pkg/controllers/provisioning/scheduling/queue.go:46-60 | Nothing is popped iff the queue is empty or its head failed at this queue length |
| `SchedulerQueue.Queue.Push` | pkg/controllers/provisioning/scheduling/queue.go:63-70 | The pod goes last; a relaxation forgets all recorded lengths |
| `SchedulerQueue.StaleIffAllTried` | pkg/controllers/provisioning/scheduling/queue.go:46-70 | The queue gives up exactly when every pod in it has failed since anything changed |
| `SchedulerQueue.FailedIsTried` | pkg/controllers/provisioning/scheduling/queue.go:63-70 | A failing pod joins those tried |
| `SchedulerQueue.PlacedResets` | pkg/controllers/provisioning/scheduling/queue.go:46-70 | A success makes every remaining pod worth another try although lengths are kept |
| `Solving.AttemptKeeps` | pkg/controllers/provisioning/scheduling/scheduler.go:195-296 | An attempt keeps all invariants and places the pod once or not at all; a success that places nothing happens only without templates and with no room anywhere |
| `Solving.NoTemplateDropsPod` | pkg/controllers/provisioning/scheduling/scheduler.go:248-296 | Without templates a pod that goes nowhere is reported as scheduled |
| `Solving.AttemptCounts` | pkg/controllers/provisioning/scheduling/scheduler.go:206-226 | Every attempt lowers the bound on attempts to come |
| `Solving.GivingUpMeans` | pkg/controllers/provisioning/scheduling/scheduler.go:195-226 | When the queue gives up, each pod left failed after the last success and the last relaxation, and exactly those have errors |
| `Solving.EveryPodOnce` | pkg/controllers/provisioning/scheduling/scheduler.go:195-246 | Each pod is on exactly one node exactly once or waiting exactly once |
| `Solving.Try` | pkg/controllers/provisioning/scheduling/scheduler.go:213-225 | One attempt with its relaxation: outcome, spec and placement agree, it is one step of the trace, and repelling pods stay apart if a batch pod can be followed; a failing update of any other pod does not matter |
| `Solving.UpdatedPlanKeeps` | pkg/controllers/provisioning/scheduling/topology.go:105-136 | Updating the topology for a relaxed pod keeps the plan, and keeps repelling pods apart iff the pod is outside the batch or no lookup fails before its required terms are dealt with |
| `Solving.Solve` | pkg/controllers/provisioning/scheduling/scheduler.go:195-246 | Fewer than (n+R+1)(n+1) attempts; every pod placed once or in error and not tried again once placed; leftovers tried last; all plan invariants; the plans form a trace of attempts and updates; every pod is tried as it is at that point, so a preference is given up only after an attempt with it failed; repelling pods stay apart if the batch can be followed |
| `Solving.CurrentIsReached` | pkg/controllers/provisioning/scheduling/scheduler.go:206-226 | Whatever the steps, a pod stays the given one but for its spec, which is reached from the given spec by relaxations |
| `GivenPods.SafeKeepsApart` | pkg/controllers/provisioning/scheduling/scheduler.go:195-246 | If one of two given pods of the batch has a required term that selects the other, as given, no label value is left to the hosts the two end up on |
| `GivenPods.PlanServes` | pkg/controllers/provisioning/scheduling/scheduler.go:195-246 | Wherever a given pod ends up, labels within the requirements satisfy the node selector and one of the required terms it was given with, and it tolerates the taints, a preference to avoid aside |
| `RunningPodSafety.MarkedByRunning` | pkg/controllers/provisioning/scheduling/topology.go:208-253 | A domain of an inverse group holds a pod at the start only if a running pod that is not about to be scheduled again has such a term and its node that label |
| `RunningPodSafety.StartCounts` | pkg/controllers/provisioning/scheduling/topology.go:62-86 | A run starts with exactly the listed pods counted in every group, and with every term of a tracked running pod counted at its node |
| `RunningPodSafety.RunAvoids` | pkg/controllers/provisioning/scheduling/scheduler.go:195-226 | A domain that an anti-affinity group holds a pod in at the start is avoided over the whole run by every pod the group concerns |
| `RunningPodSafety.RunIsClearOfRunning` | pkg/controllers/provisioning/scheduling/topology.go:208-254 | No given pod ends up on a host that allows the domain of a running pod with a required term that selects it, whatever fails during the run |
| `RunningPodSafety.RunIsClearOfListed` | pkg/controllers/provisioning/scheduling/topology.go:256-309 | No pod of the batch with a required term ends up on a host that allows the domain of an existing pod the term selects, if the batch can be followed |
| `SpreadSafety.RecordedStaysEven` | pkg/controllers/provisioning/scheduling/topology.go:139-190 | A placement through the topology keeps the skew of every spread group that counts the pod, if the pod owns the group |
| `SpreadSafety.AttemptStaysEven` | pkg/controllers/provisioning/scheduling/scheduler.go:248-296 | So does a whole attempt, on a node, an open claim or a new one, for host names too |
| `SpreadSafety.RunStaysEven` | pkg/controllers/provisioning/scheduling/scheduler.go:195-226 | So does a whole run with its relaxations, if the selected pods that are tried own the group from the start, allow the same domains and still ask for it when relaxed |
| `SpreadSafety.GivenPodsStayEven` | pkg/controllers/provisioning/scheduling/scheduler.go:195-246 | That holds of a run from a topology just built if each given pod the constraint selects is of the batch and, however relaxed, allows the same domains and asks for the group: a condition on the pods as given |
| `SpreadSafety.HardConstraintDevotes` | pkg/controllers/provisioning/scheduling/preferences.go:75-101 | A pod meets it for each hard constraint of its own if it has at most one required node term and all its groups can be counted |
| `SpreadSafety.RecordedEvenIff` | pkg/controllers/provisioning/scheduling/topologygroup.go:167-195 | Whoever is placed, counting a selected pod in a domain keeps the skew iff the domain is not ahead of another by the whole skew already |
| `SpreadSafety.PassengerExample` | pkg/controllers/provisioning/scheduling/topology.go:139-190 | A selected pod that does not carry the constraint is free to go to the fuller of two domains, and the skew is exceeded |
| `RunCounts.MovesCount` | pkg/controllers/provisioning/scheduling/topology.go:139-160 | An attempt adds one to the count of a domain iff its pod lands where the group counts it in that domain, and changes no other count |
| `RunCounts.RunTally` | pkg/controllers/provisioning/scheduling/scheduler.go:195-246 | After any number of steps of a run the count of a domain is what it was at the start plus the number of pods that have landed there |
| `RunCounts.RunCountsReal` | pkg/controllers/provisioning/scheduling/scheduler.go:195-246 | In a run from a topology just built every count of its groups, at every step, is the number of pods listed in the domain plus those landed there |
| `RunCounts.Arrived` | pkg/controllers/provisioning/scheduling/scheduler.go:195-246 | Every pod on a host at the end was put there by a step of the run, and the host has only filled up and narrowed since |
| `AffinitySafety.RunOwnsAsked` | pkg/controllers/provisioning/scheduling/topology.go:105-136 | Before every attempt each pod of the batch owns the groups that it asks for at that point, if its spread groups can be counted however it is relaxed |
| `AffinitySafety.LandedStays` | pkg/controllers/provisioning/scheduling/topology.go:139-160 | A pod that landed in a domain where an affinity group counts it is still there when the run ends, on a host that can go nowhere else |
| `AffinitySafety.GrantedOnLanding` | pkg/controllers/provisioning/scheduling/topology.go:168-190 | What a placement grants lasts: every domain the host still allows at the end holds another pod that the affinity term selects, listed or placed by the run, or the pod was the first of its group with none listed or landed in any domain open to it; no domain left to it held a pod its anti-affinity terms repel |
| `AffinitySafety.RunGrantsAll` | pkg/controllers/provisioning/scheduling/scheduler.go:195-246 | That holds at the end of every run for every pod of the batch, every affinity and anti-affinity term it insists on and every preferred one it has not given up |
| `RunOutcomes.RunOutcome` | pkg/controllers/provisioning/scheduling/scheduler.go:195-296 | Every plan of a run has the nodes it began with, each filled up and none freed, and every claim stems from a template: its pool, taints and daemons, its requirements narrowed, instance types of its pool, and no undefined label but a well-known one or one a pod does without; no host name is left to two claims |
| `RunOutcomes.LeftOverHasNoPlace` | pkg/controllers/provisioning/scheduling/scheduler.go:195-246 | A pod left over has nothing to give up, and was refused by every node, every open claim and every template when nodes, claims, limits and counts were those the run ends with |
| `SchedulingResults.TruncateInstanceTypes` | pkg/controllers/provisioning/scheduling/scheduler.go:175-193 | Each claim is trimmed; it is kept iff still diverse enough, and the pods of the others become errors |
| `SchedulingResults.SiftingKeepsPods` | pkg/controllers/provisioning/scheduling/scheduler.go:175-193 | Truncation loses no pod: each stays on a kept claim or is reported |
| `SchedulingResults.SiftingKeepsLimits` | pkg/controllers/provisioning/scheduling/scheduler.go:175-193 | Truncation keeps pools within their limits |
| `SchedulingResults.TrimmedKeeps` | pkg/controllers/provisioning/scheduling/scheduler.go:175-193 | A trimmed claim keeps its pods and requirements, a subset of its options and at least one |
| `SchedulingResults.Conclude` | pkg/controllers/provisioning/scheduling/scheduler.go:175-246 | Finalizing and truncating leaves the nodes alone, and the errors gain exactly the pods of the claims that are dropped |
| `SchedulingResults.ConcludedKeeps` | pkg/controllers/provisioning/scheduling/scheduler.go:175-246 | Every returned claim is a claim of the plan with its pods, at most sixty of its options and minValues satisfied; no pod is lost; pools stay within limits |
| `Provisioning.StartsSeparated` | pkg/controllers/provisioning/provisioner.go:270-286 | A pass starts with nothing placed and everything apart |
| `Provisioning.Schedule` | pkg/controllers/provisioning/provisioner.go:293-340 | A whole pass: it fails iff some group the batch asks for cannot be counted; otherwise it is a run of the scheduler from all existing nodes, the limits and the topology just built. At its end all node and claim invariants hold, each pod is on one returned node or claim once or in error, leftovers were tried last and have no place in the plan it ends with, and returned claims are within limits. Nodes are those of the cluster and claims stem from templates; every domain count that decided about a pod stood for listed and landed pods. To the pods as they were given: each placed pod is one of them with all it insists on, its host serves it, it is clear of what running pods guard against it, and spread constraints that the selected pods are devoted to stay within their skew; every affinity and anti-affinity term that a pod of the batch insists on or has not given up is granted, if its spread groups can be counted under every filter a relaxation leaves; required terms of the batch hold, against each other and against existing pods, if the spread groups of pods with such terms can be counted under every filter a relaxation leaves |
| `Provisioning.RunKeepsPromises` | pkg/controllers/provisioning/provisioner.go:293-340 | Every trace of the loop from a topology just built keeps those promises |
| `Provisioning.RunIsTrue` | pkg/controllers/provisioning/scheduling/scheduler.go:195-246 | All of that of every run from a topology just built |
| `Provisioning.CountableFollow` | pkg/controllers/provisioning/scheduling/scheduler.go:213-225 | If that can be counted for the pods of the batch, the run can follow every pod, whatever the others ask for |
| `Consolidation.GetCandidatePrices` | pkg/controllers/disruption/consolidation.go:286-296 | The sum of each candidate's cheapest compatible offering, or an error iff one has none |
| `Consolidation.WorstPriceCovers` | pkg/cloudprovider/types.go:280-295 | The worst launch price bounds every compatible spot offering, and every on-demand one when spot is not allowed |
| `Consolidation.CheaperSaves` | pkg/controllers/provisioning/scheduling/nodeclaim.go:130-139 | Options filtered by price under requirements that allow one capacity type save on every offering |
| `Consolidation.CheaperSavesAsSpot` | pkg/controllers/disruption/consolidation.go:148-197 | Options filtered under both capacity types save on every offering once restricted to spot |
| `Consolidation.WorthwhileIff` | pkg/controllers/disruption/consolidation.go:148-283 | If a candidate is not spot or the replacement cannot be: worth it iff some options cost less whatever is launched and they are diverse enough, whatever the gate; if all are spot and it can be: iff the gate is open, the same holds of launching spot, and a lone candidate has at least fifteen such options |
| `Consolidation.KeptAreCheapest` | pkg/controllers/disruption/consolidation.go:258-283 | The fifteen or more options a single spot node is replaced by are no dearer than those cut |
| `Consolidation.OfferedSpotOnly` | pkg/controllers/disruption/consolidation.go:190-197 | Only spot offerings remain compatible after the restriction, and they were compatible before |
| `Consolidation.RemoveByPriceAndMinValues` | pkg/controllers/provisioning/scheduling/nodeclaim.go:130-139 | Keeps exactly the options whose worst launch price is below the limit, and says whether they are diverse enough |
| `Consolidation.ComputeConsolidation` | pkg/controllers/disruption/consolidation.go:112-203 | Removal iff the simulation needs no claim; failure iff the simulation or the pricing fails; a replacement iff one claim is needed and it is worth it, and then its options are exactly those that save, cheapest first, diverse enough, each cheaper than all candidates together whatever is launched |
| `Consolidation.PriceReplacement` | pkg/controllers/disruption/consolidation.go:148-203 | A replacement iff it is worth it on the path that applies: spot to spot iff all candidates are spot and spot can be launched; its options are those of that path |
| `Consolidation.PriceSpotToSpot` | pkg/controllers/disruption/consolidation.go:210-283 | A replacement iff it is worth it, restricted to spot; for one candidate the options are cut to fifteen, or to as many as minValues needs, and otherwise kept whole |
| `Consolidation.FlexibleAsSpot` | pkg/controllers/disruption/consolidation.go:190-197 | Restricting the capacity type does not change minValues satisfaction |
| `Consolidation.FilterOutSameType` | pkg/controllers/disruption/multinodeconsolidation.go:181-215 | Options end up below the cap set by the candidates that share a type with them; the program survives iff those left are none, or diverse enough, or need not be; otherwise it dereferences a nil claim |
| `Consolidation.CapBounds` | pkg/controllers/disruption/multinodeconsolidation.go:181-215 | The cap is at most the price of every candidate of a type among the options, and there is none if no type is shared |
| `Consolidation.LowestAttained` | pkg/controllers/disruption/multinodeconsolidation.go:181-215 | The lowest price of a type is that of some candidate of the type, and there is none only if no candidate of it has one |
| `Consolidation.CapAttained` | pkg/controllers/disruption/multinodeconsolidation.go:181-215 | A cap is the lowest price of some type among both options and candidates |
| `Consolidation.SameTypeIsCheaper` | pkg/controllers/disruption/multinodeconsolidation.go:181-215 | Whatever option is left costs less than every candidate of a type among the options |
| `Consolidation.ProposeMany` | pkg/controllers/disruption/multinodeconsolidation.go:131-157 | An attempt for several nodes proposes removal iff no claim is needed and fails iff simulation or pricing does; if a replacement is worth it, the proposal or the crash is what the filter decides about exactly the options that save |
| `Consolidation.PanicExample` | pkg/controllers/disruption/multinodeconsolidation.go:131-215 | Two nodes of the dearer of two types and a replacement that needs two types: both options save and are diverse enough, one is left after the filter, and the program stops |
| `Consolidation.ProposeOne` | pkg/controllers/disruption/consolidation.go:112-203 | An attempt for one node proposes removal, fails, or proposes a replacement exactly when those conditions hold, with exactly those options, and never crashes |
| `Consolidation.FilteredStillSaves` | pkg/controllers/disruption/multinodeconsolidation.go:138-145 | Filtering a replacement again keeps it saving |
| `MultiNodeSearch.FirstN` | pkg/controllers/disruption/multinodeconsolidation.go:111-163 | Terminates in the rounds halving the range takes, each judging the middle prefix; returns the longest accepted prefix tried, whose one-longer prefix was rejected or is past the cap; the search is cut short only if time is up at the round it has come to, an error ends it at once, and with downward closed feasibility no feasible prefix is longer |
| `MultiNodeSearch.FindsLongest` | pkg/controllers/disruption/multinodeconsolidation.go:111-163 | With downward closed feasibility no feasible prefix is longer than the one found |
| `DisruptionBudgets.LeastIsMinimum` | pkg/apis/v1beta1/nodepool.go:264-310 | The allowance for a reason is the minimum over the active budgets that apply to it |
| `DisruptionBudgets.AllowedIs` | pkg/apis/v1beta1/nodepool.go:288-331 | A budget allows its number of nodes, or the least number not below its percentage; none if it cannot be read, and 2147483647 while it is not active |
| `DisruptionBudgets.FivePercentOfTen` | pkg/apis/v1beta1/nodepool.go:288-331 | Five percent of ten nodes is one node, so a percentage can be exceeded by less than a node |
| `DisruptionBudgets.GetAllowedDisruptionsByReason` | pkg/apis/v1beta1/nodepool.go:264-283 | Every well-known reason gets that minimum; an error iff some budget is misconfigured |
| `DisruptionBudgets.CountNodes` | pkg/controllers/disruption/helpers.go:203-224 | Per pool, the managed initialized nodes and those of them not ready or marked |
| `DisruptionBudgets.BuildDisruptionBudgets` | pkg/controllers/disruption/helpers.go:199-254 | For every pool and reason: the limit minus the nodes disrupting, never negative; zero throughout for a misconfigured pool |
| `DisruptionMethods.BudgetIsKept` | pkg/controllers/disruption/helpers.go:199-254 | Disrupting candidates that fit the allowance leaves at most max(already disrupting, minimum budget) nodes of the pool disrupting |
| `DisruptionMethods.NoBudgetExceeded` | pkg/controllers/disruption/helpers.go:199-254 | What a command newly disrupts exceeds no budget that applies to its reason: no count, no percentage by a whole node, and nothing at all under an unreadable one |
| `DisruptionMethods.MisconfiguredClosesPool` | pkg/controllers/disruption/helpers.go:227-232 | A misconfigured budget lets no node of the pool be chosen |
| `DisruptionMethods.ComputeDrift` | pkg/controllers/disruption/drift.go:58-114 | The empty drifted nodes, in order, until the allowance of their pool is spent, are the command if there are any; otherwise it is the first node that is not passed over, iff its pods can be rescheduled, and the method fails iff that simulation does |
| `DisruptionMethods.ComputeEmptiness` | pkg/controllers/disruption/emptiness.go:68-79 | The candidates in order, one left out only if the allowance of its pool is spent; the command fits the empty allowance of every pool |
| `DisruptionMethods.ComputeEmptyNode` | pkg/controllers/disruption/emptynodeconsolidation.go:44-109 | Empty nodes are picked until their pools are spent, and are the command iff they are all still there, empty, not nominated and within the allowance when validated; nothing is called consolidated while a budget holds an empty node back |
| `DisruptionMethods.ComputeMultiNode` | pkg/controllers/disruption/multinodeconsolidation.go:47-107 | Nodes are picked in order until their pools are spent; the command is the prefix the search ends at, iff it is valid when looked at again; nothing found counts as settled unless a budget stood in the way |
| `DisruptionMethods.SearchedLongest` | pkg/controllers/disruption/multinodeconsolidation.go:111-177 | If prefixes of a prefix that consolidates do so too and the search is never late, it ends at the longest one |
| `DisruptionMethods.ComputeSingleNode` | pkg/controllers/disruption/singlenodeconsolidation.go:44-100 | The command is the first candidate that its budget allows, is not empty and consolidates on its own, iff that is valid when looked at again; its proposal saves; candidates before it were each passed over, and the search stops early only when time is up |
| `DisruptionMethods.ValidateCandidates` | pkg/controllers/disruption/validation.go:120-147 | Succeeds iff all candidates are still present, none is nominated, and together they fit the current allowance |
| `DisruptionMethods.StillValidIff` | pkg/controllers/disruption/validation.go:155-215 | A command stands iff the repeated simulation places every pod, opens as many claims as the command launches, and its types are among those the simulation would launch |
| `DisruptionMethods.OtherTypesInvalidate` | pkg/controllers/disruption/validation.go:155-215 | A replacement whose types the pods no longer need is not launched |
| `DisruptionMethods.IsValid` | pkg/controllers/disruption/validation.go:83-112 | Valid iff the candidates pass, the repeated simulation matches the command, and the candidates pass again |
| `DisruptionMethods.MarkingKeepsBudget` | pkg/controllers/disruption/helpers.go:199-254 | Marking candidates within the allowance leaves at most max(already disrupting, minimum budget) nodes of the pool disrupting |
| `DisruptionMethods.ComputeCommand` | pkg/controllers/disruption/controller.go:146-185 | From the snapshot through the budgets to the command of any of the five methods: every pool keeps its budget once the nodes are marked |
| `Orchestration.AwaitedMeans` | pkg/controllers/disruption/orchestration/queue.go:231-262 | A replacement counts as initialized only if it was seen so, stays it, and a round without trouble leaves all initialized |
| `Orchestration.AwaitedIff` | pkg/controllers/disruption/orchestration/queue.go:231-262 | Looking at the replacements one by one: lost iff one is missing too long, pending iff one is not ready, initialized iff seen so before a lost one |
| `Orchestration.JudgedMeans` | pkg/controllers/disruption/orchestration/queue.go:226-290 | Candidates are deleted only in a round that ends with every replacement initialized; a command older than ten minutes is given up |
| `Orchestration.VerdictIff` | pkg/controllers/disruption/orchestration/queue.go:226-290 | The whole verdict from the answers: given up iff older than ten minutes or a replacement is missing after more than five seconds; else tried again iff a replacement is not ready or a deletion was refused; candidates are deleted iff it is in time and every replacement is ready; which replacements are noted as initialized |
| `Orchestration.Queue.WaitOrTerminate` | pkg/controllers/disruption/orchestration/queue.go:226-290 | The in-place round computes that judgement |
| `Orchestration.Queue.HasAny` | pkg/controllers/disruption/orchestration/queue.go:314-324 | True iff some candidate is indexed |
| `Orchestration.Queue.Add` | pkg/controllers/disruption/orchestration/queue.go:294-311 | Refused iff a candidate is indexed; otherwise all candidates are indexed and the index stays one-to-one |
| `Orchestration.Queue.Remove` | pkg/controllers/disruption/orchestration/queue.go:327-338 | No candidate of the command stays indexed or marked, and other commands keep theirs |
| `Orchestration.Queue.Reconcile` | pkg/controllers/disruption/orchestration/queue.go:165-219 | The command stays queued and indexed, or leaves with every candidate and mark it held; taints are lifted only when it failed |
| `Orchestration.Controller.ExecuteCommand` | pkg/controllers/disruption/controller.go:188-252 | Success iff tainting, launching and adding succeed; failure leaves nothing indexed, no new mark and no taint |
| `Orchestration.Controller.Sweep` | pkg/controllers/disruption/controller.go:121-128 | Exactly the nodes outside the queue lose the taint, those being deleted aside |
| `DisruptionProtocol.StepKeepsInv` | pkg/controllers/disruption/orchestration/queue.go:165-338 | Every step of either loop, of the clock and of the cluster keeps the protocol invariant, the sweep at the start of a pass included |
| `DisruptionProtocol.RunKeepsInv` | pkg/controllers/disruption/orchestration/queue.go:165-338 | The invariant holds in every state of every run |
| `DisruptionProtocol.CommandsAreDisjoint` | pkg/controllers/disruption/orchestration/queue.go:294-311 | Active commands never share a candidate |
| `DisruptionProtocol.DeletedAfterReplaced` | pkg/controllers/disruption/orchestration/queue.go:226-290 | In every history each deletion comes after every replacement of its command was seen initialized |
| `DisruptionProtocol.ReadyCommandIsCarriedOut` | pkg/controllers/disruption/orchestration/queue.go:264-290 | A command taken up in time whose replacements are all up is carried out on that step: each candidate is deleted or already gone, unless a deletion is refused |
| `DisruptionProtocol.WaitingCommandStays` | pkg/controllers/disruption/orchestration/queue.go:184-219 | A command in time that has lost nothing and is not carried out keeps everything it holds |
| `DisruptionProtocol.HopelessCommandIsGivenUp` | pkg/controllers/disruption/orchestration/queue.go:184-219 | A command that is overdue or has lost a replacement is given up on that step, deletes nothing and loses its taints |
| `DisruptionProtocol.LeavesForAReason` | pkg/controllers/disruption/orchestration/queue.go:165-219 | In every run a command leaves the queue only on a step that carries it out or on which it is hopeless |
| `DisruptionProtocol.LateCommandLeaves` | pkg/controllers/disruption/orchestration/queue.go:226-229 | A command taken up more than ten minutes after it was added leaves on that step and deletes nothing |
| `DisruptionProtocol.LateCommandIsOver` | pkg/controllers/disruption/orchestration/queue.go:226-229 | In every later state of the run it is not queued and nothing more is deleted for it |
| `DisruptionProtocol.NothingLeftBehind` | pkg/controllers/disruption/orchestration/queue.go:327-338 | The index holds exactly the candidates of active commands; another node is marked only while the loop is about to enqueue it, and tainted only while the loop has chosen it, after its command was carried out, or from an earlier process |
| `DisruptionProtocol.SweptClean` | pkg/controllers/disruption/controller.go:121-128 | After a sweep a node that is not being deleted is tainted iff it was and belongs to an active command, also right after a restart; the candidates of queued commands are |
| `DisruptionProtocol.AddNeverFails` | pkg/controllers/disruption/controller.go:219-229 | A command of the disruption loop is never refused |
| `QueueRefinement.ProcessCommand` | pkg/controllers/disruption/orchestration/queue.go:165-219 | A round of the queue object takes it from one state of the protocol to the state after the round, marks, taints and index included |
| `QueueRefinement.Execute` | pkg/controllers/disruption/controller.go:188-229 | Executing a command takes the objects through choosing, marking and enqueuing, or back; the queue never refuses |
| `QueueRefinement.SweepTaints` | pkg/controllers/disruption/controller.go:121-128 | Sweeping the objects is that step of the protocol |
| `ClusterState.CoherentMeans` | pkg/controllers/state/cluster.go:417-474 | A name with an id leads to an entry that holds the named object, so cleanup never dereferences a missing entry |
| `ClusterState.CountedOnce` | pkg/controllers/state/cluster.go:490-562 | In a coherent cache no pod counts against two entries with a node |
| `ClusterState.UpdateNodeKeepsCoherent` | pkg/controllers/state/cluster.go:252-278 | A node event, also one that fails half way or changes the id, keeps coherence if and only if it is ignored, fails, or stores the node under an id no other node has |
| `ClusterState.CleanupNodeKeepsCoherent` | pkg/controllers/state/cluster.go:464-474 | Removing a node keeps coherence and touches no other entry |
| `ClusterState.UpdateClaimKeepsCoherent` | pkg/controllers/state/cluster.go:227-242 | A claim event, launched or not, keeps coherence if and only if it takes no other claim's id and clears no known one |
| `ClusterState.CleanupClaimKeepsCoherent` | pkg/controllers/state/cluster.go:417-430 | Removing a claim keeps coherence and touches no other entry |
| `ClusterState.UpdatePodKeepsCoherent` | pkg/controllers/state/cluster.go:287-299 | A pod event keeps coherence |
| `ClusterState.CompletePodKeepsCoherent` | pkg/controllers/state/cluster.go:530-544 | A finished pod counts nowhere afterwards, and coherence is kept |
| `ClusterState.BindKeepsCoherent` | pkg/controllers/state/cluster.go:546-562 | Rebinding a pod takes it off every other live node |
| `ClusterState.PopulateSucceedsIff` | pkg/controllers/state/cluster.go:490-507 | Populating a node succeeds iff the volumes of every pod that still runs can be determined |
| `ClusterState.RunStaysCoherent` | pkg/controllers/state/cluster.go:227-562 | For any sequence of events in any order the cache is coherent throughout if and only if no event shares or clears a provider id |
| `ClusterState.NeverCountedTwice` | pkg/controllers/state/cluster.go:490-562 | Along such a run no pod is ever counted on two live nodes |
| `ClusterUsage.PodEventCounts` | pkg/controllers/state/cluster.go:287-299 | An event for a running pod is handled iff its node and volumes are known; then the node counts exactly what the pod asks for, no other node counts it, the pod is bound there and nothing else changes; otherwise nothing does |
| `ClusterUsage.NodeEventCounts` | pkg/controllers/state/cluster.go:252-278 | A node event that is handled leaves an entry with the node, the claim and mark there were, and as usage exactly the listed running pods, each with what it asks for |
| `ClusterUsage.HandledIff` | pkg/controllers/state/cluster.go:252-278 | A node event is handled iff it is to be ignored, or its pods are listed, their volumes known and the limits read |
| `ClusterUsage.ClaimEventKeeps` | pkg/controllers/state/cluster.go:227-242 | A claim event leaves an entry with the claim, and the node, usage and mark there were |
| `ClusterUsage.PodIsCounted` | pkg/controllers/state/cluster.go:287-299 | Along every run, after an event for a running pod on a known node the cache counts exactly what the pod asks for, until an event mentions the pod or the node |
| `ClusterUsage.ListedIsCounted` | pkg/controllers/state/cluster.go:490-507 | The same of every pod listed in a node event that is handled |
| `ClusterState.SharedIDExample` | pkg/controllers/state/cluster.go:252-285 | Handling two nodes under one id leaves the cache incoherent, and deleting the first leaves an index entry without a cache entry |
| `ClusterState.Cluster.UpdateNodeEvent` | pkg/controllers/state/cluster.go:252-278 | The in-place update equals the specified one, including failures |
| `ClusterState.Cluster.PopulateResourceRequests` | pkg/controllers/state/cluster.go:490-507 | Pods are counted one by one; those before a failure stay bound |
| `ClusterState.Cluster.UpdateClaimEvent` | pkg/controllers/state/cluster.go:227-242 | The in-place update equals the specified one |
| `ClusterState.Cluster.DeleteNodeEvent` | pkg/controllers/state/cluster.go:280-285 | The node side of its entry is gone, and the entry too if it has no claim |
| `ClusterState.Cluster.DeleteClaimEvent` | pkg/controllers/state/cluster.go:244-250 | The claim side of its entry is gone, and the entry too if it has no node |
| `ClusterState.Cluster.UpdatePodEvent` | pkg/controllers/state/cluster.go:287-299 | The in-place update equals the specified one, including failures |
| `ClusterState.Cluster.CompletePodEvent` | pkg/controllers/state/cluster.go:530-544 | Binding and usage of the pod are gone |

## Left out

- Kubernetes and cloud provider calls, informers, patches, webhooks, events, metrics, logging and error texts: answers are parameters, texts are not modelled.
- Cron schedules and percentage parsing in budgets: a budget is given as active, inactive or unreadable and its limit as a count, a percentage or malformed.
- 32-bit wrap-around of topology counts and float rounding of prices: counts are unbounded, prices are reals.
- Sorting of the pod queue by CPU and memory, of drifted nodes by time and of candidates by disruption cost: the methods take the candidates in any order.
- Stability of the sort of existing nodes, and ties between equally heavy preferences, which the source leaves to the order of the list.
- Namespace selectors of affinity terms and volume lookups: they are resolved before the model starts, and a failed volume lookup is an input.
- Schedule: anti-affinity and node selection are stated of the plan before FinalizeScheduling drops the host name requirement of new claims; later the host name is whatever the cloud provider assigns.
- The universe of topology domains, instance type discovery and the daemon overhead of templates: inputs of a pass.
- The simulations behind a consolidation and its validation: their results are inputs, and the five methods take what the attempts propose as a function that meets the contract of `ProposeOne` and `ProposeMany`.
- Candidate filters (ShouldDisrupt, PDBs, do-not-disrupt annotations, nomination windows) and disruption cost: inputs.
- The cluster cache's list of pods with required anti-affinity, its daemon set pods, and its consolidation timestamp, which are maps and a field of their own.
- The node filter's values in the hash of a spread group: the source's hash sees the keys only, the model's identity also the values.
- StateNode in the cluster cache and pods on nodes and claims are values, so aliasing between them is not captured; a placed pod is not edited again by the program either.
- Mutex-level interleavings: each locked operation is one step.
- Failure reasons of the instance type filter and the requirement hints: presentation only.
