# XStore operator: shared-channel bootstrap, voter election weight, feature gates

A Dafny model of two small pieces of the XStore operator, a Kubernetes
operator that drives a paxos-replicated storage cluster (an XStore):

- the shared steps of the XStore reconciler
  (`pkg/operator/v1/xstore/plugin/common/steps/common.go`):
  - turning the store's pods into the node list of the shared channel, addressed
    by pod IP or by each pod's headless service name;
  - `UnblockBootstrap`, which publishes that list once and unblocks the channel;
  - `SetVoterElectionWeightToOne`, which asks the current leader to set the
    election weight of every voter pod to 1.
- the process-wide feature-gate registry
  (`pkg/operator/v1/featuregate/featuregates.go`): declaring gates with unique
  keys, and switching on the non-static gates named in a list.

Files:

- `wrappers.dfy`: `Option` and `Result` (a Go `(value, error)` pair).
- `kube.dfy` (module `Kube`): pods, containers, nodes, the shared channel, step
  outcomes, consensus commands, and the reconcile context `Context`. The context
  holds the persisted data of the shared config map. It also records, in order,
  every call a step makes on a collaborator. Each collaborator's reply is an input.
- `featuregate.dfy` (module `FeatureGates`): the `Registry` class over
  `map<string, FeatureGate>`, the declared gates, and `EnabledBy`, the
  specification of `EnableFeatureGates`.
- `steps.dfy` (module `Steps`): the two node transforms as loop methods; each
  step as a pure specification function (outcome, calls made, persisted data);
  each step as a method over `Context` proved equal to its specification; the
  lemmas.

How it is stated:

- Each step method ensures that its outcome, the calls it appends to
  `Context.calls`, and the new persisted data equal those of its specification
  function.
- Each specification function's contract states the step's promises: which
  inputs give which outcome, "skip ⇒ no write", "the write is the last call",
  and what is published.
- `EnableFeatureGates` is proved against `EnabledBy`. The contract of `EnabledBy`
  states what enabling does to every gate.

## Model

| member | source | states |
|---|---|---|
| `Kube.PaxosPort` | pkg/operator/v1/xstore/plugin/common/steps/common.go:60-63 | the port is the one named "paxos" on a container named after the engine container of the pod; a pod without one is excluded by `HasPaxosPort` (the operator panics) |
| `Kube.Context.GetXStoreConfigMap` | pkg/operator/v1/xstore/plugin/common/steps/common.go:82-85 | reading the shared config map records one call and yields the persisted data, or the API error |
| `Kube.Context.GetXStorePods` | pkg/operator/v1/xstore/plugin/common/steps/common.go:100-103 | listing the pods records one call and yields the API server's answer, the pods or the error |
| `Kube.Context.TryGetXStoreLeaderPod` | pkg/operator/v1/xstore/plugin/common/steps/common.go:148-154 | the leader lookup records one call and yields the answer: an error, no leader, or the leader pod |
| `Steps.ParseChannelFromConfigMap` | pkg/operator/v1/xstore/plugin/common/steps/common.go:38-45 | the channel is parsed from the text under the shared-channel key, and from "" when the key is missing |
| `Kube.Context.Update` | pkg/operator/v1/xstore/plugin/common/steps/common.go:112-116 | a write records one call and replaces the persisted data unless the API server rejects it, in which case nothing changes |
| `Kube.Context.ExecuteCommandOn` | pkg/operator/v1/xstore/plugin/common/steps/common.go:127-130 | running a command records exactly one call naming the pod, the container and the command, and returns the exec error if any |
| `Steps.TransformPodsIntoNodes` | pkg/operator/v1/xstore/plugin/common/steps/common.go:57-78 | one node per pod, in pod order; node i carries pod i's name, IP as host, node name, paxos port and role label, and the domain "name.subdomain" exactly when the pod has a subdomain, "" otherwise |
| `Steps.TransformPodsIntoNodesWithHeadlessServices` | pkg/operator/v1/xstore/plugin/common/steps/common.go:47-55 | same length and order as the plain transform, and equal to it except that every host is the headless service name of the node's pod |
| `Steps.HeadlessHostsIgnorePodIPs` | pkg/operator/v1/xstore/plugin/common/steps/common.go:50-53 | in headless mode, two pod lists with the same names in the same order get the same hosts, whatever their IPs |
| `Steps.UnblockBootstrapSpec` | pkg/operator/v1/xstore/plugin/common/steps/common.go:80-119 | never Wait; Pass exactly when the channel is read and already unblocked, and then no write; Continue exactly when the channel is blocked and the pod listing and the write succeed; any other case is Error with the persisted data unchanged, and its cause is the error of the first failing call (config-map read, parse, pod listing, update); the update is always the last call, and a Continue run makes exactly the calls read, list, write; on Continue the persisted channel is unblocked and carries the plain or headless node list of the listed pods, as the headless gate selects |
| `Steps.UnblockBootstrap` | pkg/operator/v1/xstore/plugin/common/steps/common.go:80-119 | the step's outcome, the calls it makes, and the persisted data afterwards are those of `UnblockBootstrapSpec`, with the addressing mode read from the headless-service gate |
| `Steps.RerunAfterUnblockPasses` | pkg/operator/v1/xstore/plugin/common/steps/common.go:92-95 | after a run that published, a second run whose config-map read succeeds yields Pass and leaves the persisted data as it is (given only that the channel printer keeps the blocked flag) |
| `Steps.Voters` | pkg/operator/v1/xstore/plugin/common/steps/common.go:140-142 | a pod is kept exactly when it is listed and its role label is the voter role |
| `Steps.SetVoterElectionWeightToOneSpec` | pkg/operator/v1/xstore/plugin/common/steps/common.go:133-165 | no voters: Pass and no command; Wait exactly when there are voters and no leader, and then no command; Error exactly when the pod listing, the leader lookup or the command fails, with that call's error as cause; never Continue; with voters and a leader exactly one command is sent, to the leader's engine container, setting weight 1 for exactly the voters' names; a failed command is reported with the leader's name and the voters' names |
| `Steps.SetElectionWeightToOne` | pkg/operator/v1/xstore/plugin/common/steps/common.go:121-131 | sends the leader's engine container one command: election weight 1 for the names of the target pods |
| `Steps.SetVoterElectionWeightToOne` | pkg/operator/v1/xstore/plugin/common/steps/common.go:133-165 | the step's outcome and the calls it makes are those of `SetVoterElectionWeightToOneSpec` |
| `Steps.ExamplePodsAreWellFormed` | pkg/operator/v1/xstore/plugin/common/steps/common.go:57-78 | for pods p0 (candidate), p1 and p2 (voters), the plain transform gives the three expected nodes in order |
| `Steps.ExampleBootstrap` | pkg/operator/v1/xstore/plugin/common/steps/common.go:97-117 | with a blocked, empty channel and plain addressing, the step publishes those three nodes, unblocked, and returns Continue |
| `Steps.ExampleElectionWeight` | pkg/operator/v1/xstore/plugin/common/steps/common.go:156-163 | with p0 as leader, the step sends p0 one command giving p1 and p2 weight 1, and returns Pass |
| `FeatureGates.FeatureGate.Key` | pkg/operator/v1/featuregate/featuregates.go:30-32 | returns the stored key unchanged |
| `FeatureGates.FeatureGate.Enabled` | pkg/operator/v1/featuregate/featuregates.go:34-36 | returns the stored enabled bit unchanged |
| `FeatureGates.FeatureGate.Description` | pkg/operator/v1/featuregate/featuregates.go:38-40 | returns the stored description unchanged |
| `FeatureGates.Registry.IsEnabled` | pkg/operator/v1/xstore/plugin/common/steps/common.go:105 | the gate filed under a declared key reads as on exactly when its enabled bit is set |
| `FeatureGates.Registry.DeclareFeatureGate` | pkg/operator/v1/featuregate/featuregates.go:42-57 | on an absent key it adds exactly that key with the given enabled bit, static bit and description, which `Key()`, `Enabled()` and `Description()` return, and every other entry stays as it was; a taken key is excluded by the precondition (the operator panics) |
| `FeatureGates.Registry.constructor` | pkg/operator/v1/featuregate/featuregates.go:60-69 | start-up declares every gate of the declared set, each under its own key with its declared defaults, and nothing else |
| `FeatureGates.DeclarationsHaveDistinctKeys` | pkg/operator/v1/featuregate/featuregates.go:60-69 | the declared gates have pairwise distinct keys, so start-up never hits the duplicate panic |
| `FeatureGates.HeadlessServiceGateDefault` | pkg/operator/v1/featuregate/featuregates.go:68 | the headless-service gate is declared enabled and not static |
| `FeatureGates.EnabledBy` | pkg/operator/v1/featuregate/featuregates.go:71-78 | the key set is unchanged; only the enabled bit may change, and never from on to off; static gates and gates not in the list are unchanged; every listed gate that is not static is enabled |
| `FeatureGates.Registry.EnableFeatureGates` | pkg/operator/v1/featuregate/featuregates.go:71-78 | the registry after the call is `EnabledBy` of the registry before it, and stays well keyed |
| `FeatureGates.EnableTwiceIsOnce` | pkg/operator/v1/featuregate/featuregates.go:71-78 | enabling the same list twice gives the same registry as enabling it once |

## Left out

- Kubernetes client calls: reading and writing the config map, listing pods,
  the leader lookup and remote exec. They are modelled as replies given as
  inputs, and `Context` records each call. Optimistic-concurrency conflicts are
  one more failing reply of `Update`.
- Logging, the `reconcile.Result` values, and the 2-second exec timeout
  (common.go:129). These are wall-clock, logging and scheduler concerns.
  Outcomes are the `Kube.Outcome` datatype.
- `SharedChannel.Load` and `SharedChannel.String` are not part of this model.
  They are the two uninterpreted functions of `ChannelCodec`, and no round trip
  is asserted. `RerunAfterUnblockPasses` assumes only that what the printer
  prints parses back with the same blocked flag.
- A shared config map with no data at all (a nil `Data` map in Go) is modelled
  as an empty map. Reading it gives "" (common.go:40) in both. If `Load("")`
  yields a blocked channel, the Go step then panics when it stores the new
  channel (common.go:112), while the model writes the channel and returns
  Continue. The panic is not modelled.
- The shared channel carries only the blocked flag and the node list. Any other
  fields of the Go type are not modelled.
- `convention.NewHeadlessServiceName` is not part of this model. It is a
  function parameter `serviceName`.
- The command builder (`command.NewCanonicalCommandBuilder`) is not part of
  this model. A command is the value `ConfigureElectionWeight(weight, names)`.
- `k8shelper.MustGetContainerFromPod`, `MustGetPortFromContainer`,
  `FilterPodsBy`, `ToObjectNames` and `xstoremeta.IsPodRoleVoter` are not part of
  this model. They are modelled as "first match by name", an order-keeping
  filter, the names in order, and "role label equals the voter role".
- Their panics are the precondition `HasPaxosPort` on every pod.
- The values of `ContainerEngine`, `LabelNodeRole`, `NodeRoleVoter` and
  `SharedChannelKey` come from packages that are not part of this model; the
  strings in `kube.dfy` are placeholders and no property depends on them.
- The `Retry` outcome of the step engine is not produced by either step and is
  not modelled.
- Gate pointers: the Go registry stores `*FeatureGate` and the package variables
  alias those objects. The model stores gate values and reads a gate by its
  key, which is equivalent because keys are unique and the store never drops a key.
- The package's `var` block of eight `declareFeatureGate` calls is modelled as
  the table `Declarations`, declared entry by entry, in order, by the `Registry`
  constructor. The calls and their order are the same.
- FeatureGates.Registry.DeclareFeatureGate: the duplicate-key panic is a
  precondition, not an outcome.
