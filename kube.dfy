/** The data the XStore steps exchange with their collaborators: pods as the
    API server lists them, the node records of the shared channel, the
    outcomes a step returns to the driving loop, and the reconcile context
    that stands for the API server and the remote-execution channel. */
module Kube {
  import opened Wrappers

  /** Go's `int32`, the type of a container port number. */
  newtype int32 = x: int | -0x8000_0000 <= x < 0x8000_0000

  datatype ContainerPort = ContainerPort(name: string, containerPort: int32)

  datatype Container = Container(name: string, ports: seq<ContainerPort>)

  /** The fields of a pod the steps read. */
  datatype Pod = Pod(
    name: string,
    labels: map<string, string>,
    nodeName: string,   // pod.Spec.NodeName
    subdomain: string,  // pod.Spec.Subdomain
    containers: seq<Container>,
    podIP: string       // pod.Status.PodIP
  )

  // Constants of the operator's conventions; their defining files are not
  // part of this model and the values below are placeholders.
  const ContainerEngine: string := "engine"
  const PaxosPortName: string := "paxos"
  const LabelNodeRole: string := "xstore/node-role"
  const NodeRoleVoter: string := "voter"
  const SharedChannelKey: string := "shared-channel"

  /** The first container of the given name. */
  function FindContainer(containers: seq<Container>, name: string): (r: Option<Container>)
    ensures r.Some? ==> r.value in containers && r.value.name == name
    ensures r.None? ==> forall c :: c in containers ==> c.name != name
  {
    if containers == [] then None
    else if containers[0].name == name then Some(containers[0])
    else FindContainer(containers[1..], name)
  }

  /** The first port of the given name. */
  function FindPort(ports: seq<ContainerPort>, name: string): (r: Option<ContainerPort>)
    ensures r.Some? ==> r.value in ports && r.value.name == name
    ensures r.None? ==> forall p :: p in ports ==> p.name != name
  {
    if ports == [] then None
    else if ports[0].name == name then Some(ports[0])
    else FindPort(ports[1..], name)
  }

  /** The pod has an engine container that declares a port named "paxos";
      without one the operator panics. */
  predicate HasPaxosPort(pod: Pod)
  {
    var engine := FindContainer(pod.containers, ContainerEngine);
    engine.Some? && FindPort(engine.value.ports, PaxosPortName).Some?
  }

  function PaxosPort(pod: Pod): (port: int32)
    requires HasPaxosPort(pod)
    ensures exists c, p :: c in pod.containers && c.name == ContainerEngine &&
                           p in c.ports && p.name == PaxosPortName && p.containerPort == port
  {
    var engine := FindContainer(pod.containers, ContainerEngine).value;
    FindPort(engine.ports, PaxosPortName).value.containerPort
  }

  /** The node-role label, or "" when the pod has none (Go's map lookup). */
  function Role(pod: Pod): string
  {
    if LabelNodeRole in pod.labels then pod.labels[LabelNodeRole] else ""
  }

  predicate IsVoter(pod: Pod)
  {
    Role(pod) == NodeRoleVoter
  }

  /** One replica's network identity as published in the shared channel. */
  datatype Node = Node(pod: string, host: string, hostName: string, port: int, role: string, domain: string)

  /** The coordination record persisted in the shared config map. */
  datatype SharedChannel = SharedChannel(blocked: bool, nodes: seq<Node>)
  {
    predicate IsBlocked() { blocked }
    function Unblock(): SharedChannel { this.(blocked := false) }
  }

  /** `SharedChannel.Load` and `SharedChannel.String`, whose code is not part
      of this model: any parser and any printer. */
  datatype ChannelCodec = ChannelCodec(load: string -> Result<SharedChannel>, render: SharedChannel -> string)

  /** Structured context attached to a failure. */
  datatype Field = StringField(key: string, value: string) | NamesField(key: string, names: seq<string>)

  /** What a step tells the driving loop. */
  datatype Outcome =
    | Continue(message: string)
    | Pass
    | Wait(message: string)
    | Error(cause: string, message: string, fields: seq<Field>)

  /** The consensus command the operator builds. */
  datatype Command = ConfigureElectionWeight(weight: int, nodes: seq<string>)

  /** A call a step makes on a collaborator. */
  datatype Call =
    | GetConfigMap
    | GetPods
    | UpdateConfigMap(data: map<string, string>)
    | TryGetLeader
    | ExecuteCommand(pod: string, container: string, command: Command)

  /** The reconcile context: the persisted data of the shared config map and
      the calls made so far. Every collaborator's reply is an input. */
  class Context {
    const namespace: string
    var sharedData: map<string, string>
    var calls: seq<Call>

    constructor (namespace: string, data: map<string, string>)
      ensures this.namespace == namespace && sharedData == data && calls == []
    {
      this.namespace := namespace;
      sharedData := data;
      calls := [];
    }

    /** Reads the shared config map; `failure` is the API server's error, if any. */
    method GetXStoreConfigMap(failure: Option<string>) returns (cm: Result<map<string, string>>)
      modifies this`calls
      ensures calls == old(calls) + [GetConfigMap]
      ensures cm == if failure.Some? then Err(failure.value) else Ok(sharedData)
    {
      calls := calls + [GetConfigMap];
      cm := if failure.Some? then Err(failure.value) else Ok(sharedData);
    }

    /** Lists the pods of the store; `reply` is what the API server answers. */
    method GetXStorePods(reply: Result<seq<Pod>>) returns (pods: Result<seq<Pod>>)
      modifies this`calls
      ensures calls == old(calls) + [GetPods] && pods == reply
    {
      calls := calls + [GetPods];
      pods := reply;
    }

    /** Writes the shared config map; the write takes effect unless the API
        server rejects it with `failure`. */
    method Update(data: map<string, string>, failure: Option<string>) returns (err: Option<string>)
      modifies this
      ensures calls == old(calls) + [UpdateConfigMap(data)] && err == failure
      ensures sharedData == if failure.None? then data else old(sharedData)
    {
      calls := calls + [UpdateConfigMap(data)];
      if failure.None? {
        sharedData := data;
      }
      err := failure;
    }

    /** Asks the consensus layer for the current leader pod. */
    method TryGetXStoreLeaderPod(reply: Result<Option<Pod>>) returns (leader: Result<Option<Pod>>)
      modifies this`calls
      ensures calls == old(calls) + [TryGetLeader] && leader == reply
    {
      calls := calls + [TryGetLeader];
      leader := reply;
    }

    /** Runs a command in a container of a pod; `failure` is the exec error, if any. */
    method ExecuteCommandOn(pod: Pod, container: string, command: Command, failure: Option<string>) returns (err: Option<string>)
      modifies this`calls
      ensures calls == old(calls) + [ExecuteCommand(pod.name, container, command)] && err == failure
    {
      calls := calls + [ExecuteCommand(pod.name, container, command)];
      err := failure;
    }
  }
}
