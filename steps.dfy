/** The shared steps of the XStore reconciler: turning pods into the node
    list of the shared channel, unblocking the bootstrap by publishing that
    list, and asking the leader to give every voter election weight 1. */
module Steps {
  import opened Wrappers
  import opened Kube
  import FeatureGates

  // ---------------------------------------------------------------------
  // Pods to nodes
  // ---------------------------------------------------------------------

  predicate AllHavePaxosPort(pods: seq<Pod>)
  {
    forall i :: 0 <= i < |pods| ==> HasPaxosPort(pods[i])
  }

  /** The node a pod is published as, addressed by its IP. */
  function NodeOf(pod: Pod): Node
    requires HasPaxosPort(pod)
  {
    Node(pod.name, pod.podIP, pod.nodeName, PaxosPort(pod) as int, Role(pod),
         if |pod.subdomain| > 0 then pod.name + "." + pod.subdomain else "")
  }

  /** The node list of the plain mode: one node per pod, in pod order. */
  function PodsToNodes(pods: seq<Pod>): seq<Node>
    requires AllHavePaxosPort(pods)
  {
    seq(|pods|, i requires 0 <= i < |pods| => NodeOf(pods[i]))
  }

  /** The same nodes, each addressed by the service name of its pod. */
  function WithServiceHosts(nodes: seq<Node>, serviceName: string -> string): seq<Node>
  {
    seq(|nodes|, i requires 0 <= i < |nodes| => nodes[i].(host := serviceName(nodes[i].pod)))
  }

  /** The node list of the headless mode. */
  function HeadlessNodes(pods: seq<Pod>, serviceName: string -> string): seq<Node>
    requires AllHavePaxosPort(pods)
  {
    WithServiceHosts(PodsToNodes(pods), serviceName)
  }

  /** The node list the bootstrap step publishes, by addressing mode. */
  function PublishedNodes(pods: seq<Pod>, headless: bool, serviceName: string -> string): seq<Node>
    requires AllHavePaxosPort(pods)
  {
    if headless then HeadlessNodes(pods, serviceName) else PodsToNodes(pods)
  }

  /** What the published node of a pod says about it, apart from its host:
      its name, the node it runs on, its paxos port, its role, and a domain
      "<name>.<subdomain>" exactly when the pod has a subdomain. */
  predicate Describes(node: Node, pod: Pod)
    requires HasPaxosPort(pod)
  {
    && node.pod == pod.name
    && node.hostName == pod.nodeName
    && node.port == PaxosPort(pod) as int
    && node.role == Role(pod)
    && (node.domain != "" <==> pod.subdomain != "")
    && (pod.subdomain != "" ==> node.domain == pod.name + "." + pod.subdomain)
  }

  /** Builds one node per pod, in pod order, addressed by pod IP. The
      namespace is accepted and not used, as in the operator. */
  method TransformPodsIntoNodes(namespace: string, pods: seq<Pod>) returns (nodes: seq<Node>)
    requires AllHavePaxosPort(pods)
    ensures |nodes| == |pods|
    ensures forall i :: 0 <= i < |pods| ==> Describes(nodes[i], pods[i]) && nodes[i].host == pods[i].podIP
    ensures nodes == PodsToNodes(pods)
  {
    nodes := [];
    for i := 0 to |pods|
      invariant |nodes| == i
      invariant forall j :: 0 <= j < i ==> nodes[j] == NodeOf(pods[j])
    {
      var pod := pods[i];
      var paxosPort := PaxosPort(pod);
      var node := Node(pod.name, pod.podIP, pod.nodeName, paxosPort as int, Role(pod), "");
      if |pod.subdomain| > 0 {
        node := node.(domain := pod.name + "." + pod.subdomain);
      }
      nodes := nodes + [node];
    }
  }

  /** Builds the plain node list, then readdresses every node by the
      headless service name of its pod: the list differs from the plain one
      in the hosts only. */
  method TransformPodsIntoNodesWithHeadlessServices(namespace: string, pods: seq<Pod>, serviceName: string -> string)
    returns (nodes: seq<Node>)
    requires AllHavePaxosPort(pods)
    ensures |nodes| == |pods|
    ensures forall i :: 0 <= i < |pods| ==> Describes(nodes[i], pods[i]) && nodes[i].host == serviceName(pods[i].name)
    ensures forall i :: 0 <= i < |pods| ==> nodes[i] == PodsToNodes(pods)[i].(host := serviceName(pods[i].name))
    ensures nodes == HeadlessNodes(pods, serviceName)
  {
    nodes := TransformPodsIntoNodes(namespace, pods);
    ghost var plain := nodes;
    for i := 0 to |nodes|
      invariant |nodes| == |plain|
      invariant forall j :: 0 <= j < i ==> nodes[j] == plain[j].(host := serviceName(plain[j].pod))
      invariant forall j :: i <= j < |nodes| ==> nodes[j] == plain[j]
    {
      nodes := nodes[i := nodes[i].(host := serviceName(nodes[i].pod))];
    }
  }

  /** In the headless mode the hosts depend only on the pod names: two pod
      lists with the same names in the same order get the same hosts,
      whatever their IPs. */
  lemma HeadlessHostsIgnorePodIPs(a: seq<Pod>, b: seq<Pod>, serviceName: string -> string)
    requires AllHavePaxosPort(a) && AllHavePaxosPort(b)
    requires |a| == |b| && forall i :: 0 <= i < |a| ==> a[i].name == b[i].name
    ensures |HeadlessNodes(a, serviceName)| == |HeadlessNodes(b, serviceName)| == |a|
    ensures forall i :: 0 <= i < |a| ==> HeadlessNodes(a, serviceName)[i].host == HeadlessNodes(b, serviceName)[i].host
  {
  }

  // ---------------------------------------------------------------------
  // UnblockBootstrap
  // ---------------------------------------------------------------------

  /** The replies of the collaborators the bootstrap step consults. */
  datatype BootstrapReplies = BootstrapReplies(
    configMapError: Option<string>,   // error from reading the shared config map
    pods: Result<seq<Pod>>,            // the pod listing
    updateError: Option<string>        // error from writing the shared config map
  )

  /** Every pod listed has the port the transform needs. */
  predicate PodsWellFormed(pods: Result<seq<Pod>>)
  {
    pods.Ok? ==> AllHavePaxosPort(pods.value)
  }

  /** What one run of the bootstrap step does: its outcome, the calls it
      makes in order, and the shared config-map data persisted afterwards. */
  datatype BootstrapRun = BootstrapRun(outcome: Outcome, calls: seq<Call>, persisted: map<string, string>)

  /** The serialised channel in the config-map data ("" when the key is missing). */
  function ChannelText(data: map<string, string>): string
  {
    if SharedChannelKey in data then data[SharedChannelKey] else ""
  }

  /** Parses the channel stored under the shared-channel key; a missing key
      is parsed as the empty text, as Go's map lookup yields "". */
  function ParseChannelFromConfigMap(data: map<string, string>, codec: ChannelCodec): (r: Result<SharedChannel>)
    ensures SharedChannelKey in data ==> r == codec.load(data[SharedChannelKey])
    ensures SharedChannelKey !in data ==> r == codec.load("")
  {
    codec.load(ChannelText(data))
  }

  /** The bootstrap step as a function of the persisted data and the replies. */
  function UnblockBootstrapSpec(data: map<string, string>, replies: BootstrapReplies, codec: ChannelCodec,
                                headless: bool, serviceName: string -> string): (r: BootstrapRun)
    requires PodsWellFormed(replies.pods)
    // the step never waits: it publishes, skips or fails
    ensures r.outcome.Continue? || r.outcome.Pass? || r.outcome.Error?
    // it skips exactly when the channel is read and already unblocked
    ensures r.outcome.Pass? <==>
              replies.configMapError.None? && ParseChannelFromConfigMap(data, codec).Ok? &&
              !ParseChannelFromConfigMap(data, codec).value.blocked
    // it publishes exactly when the channel is blocked and every call succeeds
    ensures r.outcome.Continue? <==>
              replies.configMapError.None? && ParseChannelFromConfigMap(data, codec).Ok? &&
              ParseChannelFromConfigMap(data, codec).value.blocked &&
              replies.pods.Ok? && replies.updateError.None?
    // nothing is persisted unless it publishes
    ensures !r.outcome.Continue? ==> r.persisted == data
    // a skip writes nothing; a write is always the last call
    ensures r.outcome.Pass? ==> forall c :: c in r.calls ==> !c.UpdateConfigMap?
    ensures forall i :: 0 <= i < |r.calls| && r.calls[i].UpdateConfigMap? ==> i == |r.calls| - 1
    // publishing reads the map, lists the pods and makes the one write, in that order
    ensures r.outcome.Continue? ==> r.calls == [GetConfigMap, GetPods, UpdateConfigMap(r.persisted)]
    // a failure reports the error of the first call that failed
    ensures r.outcome.Error? ==>
              r.outcome.cause ==
                if replies.configMapError.Some? then replies.configMapError.value
                else if ParseChannelFromConfigMap(data, codec).Err? then ParseChannelFromConfigMap(data, codec).error
                else if replies.pods.Err? then replies.pods.error
                else replies.updateError.value
    // publishing stores an unblocked channel carrying the node list of the selected mode
    ensures r.outcome.Continue? ==>
              r.persisted == data[SharedChannelKey :=
                codec.render(SharedChannel(false, PublishedNodes(replies.pods.value, headless, serviceName)))]
  {
    if replies.configMapError.Some? then
      BootstrapRun(Error(replies.configMapError.value, "Unable to get shared config map.", []), [GetConfigMap], data)
    else
      match ParseChannelFromConfigMap(data, codec)
      case Err(e) =>
        BootstrapRun(Error(e, "Unable to parse shared channel from config map.", []), [GetConfigMap], data)
      case Ok(channel) =>
        if !channel.IsBlocked() then
          BootstrapRun(Pass, [GetConfigMap], data)
        else
          var unblocked := channel.Unblock();
          match replies.pods
          case Err(e) =>
            BootstrapRun(Error(e, "Unable to get pods.", []), [GetConfigMap, GetPods], data)
          case Ok(pods) =>
            var written := data[SharedChannelKey :=
              codec.render(unblocked.(nodes := PublishedNodes(pods, headless, serviceName)))];
            if replies.updateError.Some? then
              BootstrapRun(Error(replies.updateError.value, "Unable to update shared config map.", []),
                           [GetConfigMap, GetPods, UpdateConfigMap(written)], data)
            else
              BootstrapRun(Continue("Unblock via shared channel."),
                           [GetConfigMap, GetPods, UpdateConfigMap(written)], written)
  }

  /** The step `UnblockBootstrap`: reads the shared channel, and if it is
      still blocked, unblocks it, fills in the nodes and writes it back. */
  method UnblockBootstrap(rc: Context, gates: FeatureGates.Registry, replies: BootstrapReplies,
                          codec: ChannelCodec, serviceName: string -> string) returns (r: Outcome)
    requires gates.Valid() && FeatureGates.EnableXStoreWithHeadlessService in gates.store
    requires PodsWellFormed(replies.pods)
    modifies rc
    ensures var run := UnblockBootstrapSpec(old(rc.sharedData), replies, codec,
                                            gates.IsEnabled(FeatureGates.EnableXStoreWithHeadlessService), serviceName);
            r == run.outcome && rc.calls == old(rc.calls) + run.calls && rc.sharedData == run.persisted
  {
    var sharedCm := rc.GetXStoreConfigMap(replies.configMapError);
    if sharedCm.Err? {
      return Error(sharedCm.error, "Unable to get shared config map.", []);
    }
    var data := sharedCm.value;

    var parsed := ParseChannelFromConfigMap(data, codec);
    if parsed.Err? {
      return Error(parsed.error, "Unable to parse shared channel from config map.", []);
    }
    var sharedChannel := parsed.value;

    // Already unblocked: nothing to do.
    if !sharedChannel.IsBlocked() {
      return Pass;
    }

    sharedChannel := sharedChannel.Unblock();

    var pods := rc.GetXStorePods(replies.pods);
    if pods.Err? {
      return Error(pods.error, "Unable to get pods.", []);
    }

    var nodes;
    if gates.IsEnabled(FeatureGates.EnableXStoreWithHeadlessService) {
      nodes := TransformPodsIntoNodesWithHeadlessServices(rc.namespace, pods.value, serviceName);
    } else {
      nodes := TransformPodsIntoNodes(rc.namespace, pods.value);
    }
    sharedChannel := sharedChannel.(nodes := nodes);

    data := data[SharedChannelKey := codec.render(sharedChannel)];
    var err := rc.Update(data, replies.updateError);
    if err.Some? {
      return Error(err.value, "Unable to update shared config map.", []);
    }
    return Continue("Unblock via shared channel.");
  }

  /** The serialiser keeps the blocked flag: what it prints parses back to a
      channel with the same flag. Nothing more is assumed of it. */
  ghost predicate KeepsBlockedFlag(codec: ChannelCodec)
  {
    forall c :: codec.load(codec.render(c)).Ok? && codec.load(codec.render(c)).value.blocked == c.blocked
  }

  /** After a run that published, running the step again (with any pods and
      either addressing mode) skips and writes nothing. */
  lemma RerunAfterUnblockPasses(data: map<string, string>, replies: BootstrapReplies, codec: ChannelCodec,
                                headless: bool, serviceName: string -> string,
                                again: BootstrapReplies, headlessAgain: bool, serviceNameAgain: string -> string)
    requires PodsWellFormed(replies.pods) && PodsWellFormed(again.pods)
    requires KeepsBlockedFlag(codec)
    requires UnblockBootstrapSpec(data, replies, codec, headless, serviceName).outcome.Continue?
    requires again.configMapError.None?
    ensures var first := UnblockBootstrapSpec(data, replies, codec, headless, serviceName);
            var second := UnblockBootstrapSpec(first.persisted, again, codec, headlessAgain, serviceNameAgain);
            second.outcome == Pass && second.persisted == first.persisted
  {
  }

  // ---------------------------------------------------------------------
  // SetVoterElectionWeightToOne
  // ---------------------------------------------------------------------

  /** The pods whose role label says "voter", in pod order. */
  function Voters(pods: seq<Pod>): (voters: seq<Pod>)
    ensures |voters| <= |pods|
    ensures forall p :: p in voters <==> p in pods && IsVoter(p)
  {
    if pods == [] then []
    else (if IsVoter(pods[0]) then [pods[0]] else []) + Voters(pods[1..])
  }

  /** The names of the pods, in order. */
  function ObjectNames(pods: seq<Pod>): seq<string>
  {
    seq(|pods|, i requires 0 <= i < |pods| => pods[i].name)
  }

  /** The commands among the calls, in order. */
  function Commands(calls: seq<Call>): seq<Command>
  {
    if calls == [] then []
    else (if calls[0].ExecuteCommand? then [calls[0].command] else []) + Commands(calls[1..])
  }

  /** The replies of the collaborators the weight step consults. */
  datatype VoterReplies = VoterReplies(
    pods: Result<seq<Pod>>,         // the pod listing
    leader: Result<Option<Pod>>,    // the leader lookup: an error, no leader, or a pod
    execError: Option<string>       // error from running the command on the leader
  )

  datatype VoterRun = VoterRun(outcome: Outcome, calls: seq<Call>)

  /** The weight step as a function of the replies. */
  function SetVoterElectionWeightToOneSpec(replies: VoterReplies): (r: VoterRun)
    // the step never reports progress with Continue
    ensures !r.outcome.Continue?
    // no voters: pass without any command
    ensures replies.pods.Ok? && Voters(replies.pods.value) == [] ==> r.outcome == Pass && Commands(r.calls) == []
    // it waits exactly when there are voters and no leader, and then sends nothing
    ensures r.outcome.Wait? <==>
              replies.pods.Ok? && Voters(replies.pods.value) != [] && replies.leader == Ok(None)
    ensures r.outcome.Wait? ==> Commands(r.calls) == []
    // it fails exactly when a call fails
    ensures r.outcome.Error? <==>
              replies.pods.Err? ||
              (Voters(replies.pods.value) != [] &&
               (replies.leader.Err? || (replies.leader.value.Some? && replies.execError.Some?)))
    // with voters and a leader it sends one command: weight 1 for exactly the voters, to the leader's engine
    ensures Commands(r.calls) ==
              if replies.pods.Ok? && Voters(replies.pods.value) != [] && replies.leader.Ok? && replies.leader.value.Some?
              then [ConfigureElectionWeight(1, ObjectNames(Voters(replies.pods.value)))]
              else []
    ensures forall c :: c in r.calls && c.ExecuteCommand? ==>
              replies.leader.Ok? && replies.leader.value.Some? &&
              c.pod == replies.leader.value.value.name && c.container == ContainerEngine
    // a failure reports the error of the call that failed
    ensures r.outcome.Error? ==>
              r.outcome.cause ==
                if replies.pods.Err? then replies.pods.error
                else if replies.leader.Err? then replies.leader.error
                else replies.execError.value
    // a failed command is reported with the leader and the voters
    ensures r.outcome.Error? && replies.pods.Ok? && replies.leader.Ok? ==>
              r.outcome.fields == [StringField("leader-pod", replies.leader.value.value.name),
                                   NamesField("voter-pods", ObjectNames(Voters(replies.pods.value)))]
  {
    match replies.pods
    case Err(e) => VoterRun(Error(e, "Unable to get pods.", []), [GetPods])
    case Ok(pods) =>
      var voterPods := Voters(pods);
      if |voterPods| == 0 then VoterRun(Pass, [GetPods])
      else
        match replies.leader
        case Err(e) => VoterRun(Error(e, "Unable to get leader pod.", []), [GetPods, TryGetLeader])
        case Ok(None) => VoterRun(Wait("No leader pod found."), [GetPods, TryGetLeader])
        case Ok(Some(leaderPod)) =>
          var send := ExecuteCommand(leaderPod.name, ContainerEngine, ConfigureElectionWeight(1, ObjectNames(voterPods)));
          var calls := [GetPods, TryGetLeader, send];
          assert Commands(calls) == [send.command] by {
            assert [send][1..] == [];
            assert Commands([send]) == [send.command];
            assert [TryGetLeader, send][1..] == [send];
            assert Commands([TryGetLeader, send]) == [send.command];
            assert calls[1..] == [TryGetLeader, send];
          }
          if replies.execError.Some? then
            VoterRun(Error(replies.execError.value, "Unable to set election weight to 1.",
                           [StringField("leader-pod", leaderPod.name), NamesField("voter-pods", ObjectNames(voterPods))]),
                     calls)
          else
            VoterRun(Pass, calls)
  }

  /** Sends the leader the command that sets the election weight of the
      target pods to 1. */
  method SetElectionWeightToOne(rc: Context, leaderPod: Pod, targetPods: seq<Pod>, failure: Option<string>)
    returns (err: Option<string>)
    modifies rc`calls
    ensures rc.calls == old(rc.calls) +
              [ExecuteCommand(leaderPod.name, ContainerEngine, ConfigureElectionWeight(1, ObjectNames(targetPods)))]
    ensures err == failure
  {
    var cmd := ConfigureElectionWeight(1, ObjectNames(targetPods));
    err := rc.ExecuteCommandOn(leaderPod, ContainerEngine, cmd, failure);
  }

  /** The step `SetVoterElectionWeightToOne`. */
  method SetVoterElectionWeightToOne(rc: Context, replies: VoterReplies) returns (r: Outcome)
    modifies rc`calls
    ensures var run := SetVoterElectionWeightToOneSpec(replies);
            r == run.outcome && rc.calls == old(rc.calls) + run.calls
  {
    var pods := rc.GetXStorePods(replies.pods);
    if pods.Err? {
      return Error(pods.error, "Unable to get pods.", []);
    }

    var voterPods := Voters(pods.value);
    if |voterPods| == 0 {
      return Pass;
    }

    var leaderPod := rc.TryGetXStoreLeaderPod(replies.leader);
    if leaderPod.Err? {
      return Error(leaderPod.error, "Unable to get leader pod.", []);
    }
    if leaderPod.value.None? {
      return Wait("No leader pod found.");
    }
    var leader := leaderPod.value.value;

    var err := SetElectionWeightToOne(rc, leader, voterPods, replies.execError);
    ghost var sent := [GetPods, TryGetLeader,
                       ExecuteCommand(leader.name, ContainerEngine, ConfigureElectionWeight(1, ObjectNames(voterPods)))];
    assert rc.calls == old(rc.calls) + sent;
    if err.Some? {
      r := Error(err.value, "Unable to set election weight to 1.",
                 [StringField("leader-pod", leader.name), NamesField("voter-pods", ObjectNames(voterPods))]);
      assert SetVoterElectionWeightToOneSpec(replies) == VoterRun(r, sent);
      return;
    }
    assert SetVoterElectionWeightToOneSpec(replies) == VoterRun(Pass, sent);
    return Pass;
  }

  // ---------------------------------------------------------------------
  // The two steps together
  // ---------------------------------------------------------------------

  /** A pod whose engine container listens for paxos on port 11306. */
  function ExamplePod(name: string, role: string, ip: string): Pod
  {
    Pod(name, map[LabelNodeRole := role], "host-" + name, "",
        [Container(ContainerEngine, [ContainerPort(PaxosPortName, 11306)])], ip)
  }

  /** Three pods: p0 eligible to lead, p1 and p2 voters. */
  function ExamplePods(): seq<Pod>
  {
    [ExamplePod("p0", "candidate", "ip0"), ExamplePod("p1", NodeRoleVoter, "ip1"), ExamplePod("p2", NodeRoleVoter, "ip2")]
  }

  lemma ExamplePodsAreWellFormed()
    ensures AllHavePaxosPort(ExamplePods())
    ensures PodsToNodes(ExamplePods()) == [
              Node("p0", "ip0", "host-p0", 11306, "candidate", ""),
              Node("p1", "ip1", "host-p1", 11306, NodeRoleVoter, ""),
              Node("p2", "ip2", "host-p2", 11306, NodeRoleVoter, "")]
  {
    var pods := ExamplePods();
    forall i | 0 <= i < 3
      ensures HasPaxosPort(pods[i]) && PaxosPort(pods[i]) == 11306
    {
    }
    assert NodeOf(pods[0]) == Node("p0", "ip0", "host-p0", 11306, "candidate", "");
    assert NodeOf(pods[1]) == Node("p1", "ip1", "host-p1", 11306, NodeRoleVoter, "");
    assert NodeOf(pods[2]) == Node("p2", "ip2", "host-p2", 11306, NodeRoleVoter, "");
  }

  /** Plain addressing and a blocked, empty channel: the bootstrap step
      publishes the three nodes in pod order and unblocks the channel. */
  lemma ExampleBootstrap(data: map<string, string>, codec: ChannelCodec, serviceName: string -> string)
    requires ParseChannelFromConfigMap(data, codec) == Ok(SharedChannel(true, []))
    ensures PodsWellFormed(Ok(ExamplePods()))
    ensures var boot := UnblockBootstrapSpec(data, BootstrapReplies(None, Ok(ExamplePods()), None), codec, false, serviceName);
            boot.outcome == Continue("Unblock via shared channel.") &&
            boot.persisted == data[SharedChannelKey := codec.render(SharedChannel(false, [
              Node("p0", "ip0", "host-p0", 11306, "candidate", ""),
              Node("p1", "ip1", "host-p1", 11306, NodeRoleVoter, ""),
              Node("p2", "ip2", "host-p2", 11306, NodeRoleVoter, "")]))]
  {
    ExamplePodsAreWellFormed();
  }

  /** With p0 as leader the weight step sends p0 one command giving p1 and
      p2 weight 1, and passes. */
  lemma ExampleElectionWeight()
    ensures var weight := SetVoterElectionWeightToOneSpec(VoterReplies(Ok(ExamplePods()), Ok(Some(ExamplePods()[0])), None));
            weight.outcome == Pass &&
            weight.calls == [GetPods, TryGetLeader,
                             ExecuteCommand("p0", ContainerEngine, ConfigureElectionWeight(1, ["p1", "p2"]))]
  {
    var pods := ExamplePods();
    assert !IsVoter(pods[0]) && IsVoter(pods[1]) && IsVoter(pods[2]);
    assert pods[1..] == [pods[1], pods[2]] && pods[1..][1..] == [pods[2]] && pods[1..][1..][1..] == [];
    assert Voters(pods) == [pods[1], pods[2]];
    assert ObjectNames([pods[1], pods[2]]) == ["p1", "p2"];
  }
}
