/**
 * The dashboard API server's decisions over what its probes return: the architecture and
 * power tables, the Kubernetes label classification, the Docker container tally and the
 * container-action dispatch. The probes themselves (environment, `kubectl`, sysfs, the
 * Docker daemon, the request body) arrive as parameters.
 */
module Server {
  import opened Wrappers
  import opened Text
  import opened Telemetry

  // ---------------------------------------------------------------------------------------
  // Architecture and power

  /** `getArchitecture`: a switch over `runtime.GOARCH` whose every branch returns it. */
  function GetArchitecture(goarch: string): (arch: string)
    ensures arch == goarch
  {
    if goarch == "amd64" then "amd64"
    else if goarch == "arm64" then "arm64"
    else if goarch == "arm" then "arm"
    else goarch
  }

  datatype PowerInfo = PowerInfo(estimatedWatts: real, powerEfficiency: string, architectureType: string)

  predicate KnownArch(arch: string)
  {
    arch == "amd64" || arch == "arm64" || arch == "arm"
  }

  /**
   * `getPowerInfo`: the power table for the running architecture. `battery` is what reading
   * `/sys/class/power_supply/BAT0/power_now` gives (None when the read fails).
   */
  function GetPowerInfo(goarch: string, battery: Option<string>): (p: PowerInfo)
    ensures goarch == "amd64" ==> p == PowerInfo(45.0, "medium", "Intel/AMD x86_64")
    ensures goarch == "arm64" ==> p == PowerInfo(7.0, "high", "ARM Cortex-A")
    ensures goarch == "arm" ==> p == PowerInfo(2.5, "ultra-high", "ARM Cortex-A (32-bit)")
    ensures !KnownArch(goarch) ==> p == PowerInfo(25.0, "unknown", "Unknown")
  {
    var arch := GetArchitecture(goarch);
    var table :=
      if arch == "amd64" then PowerInfo(45.0, "medium", "Intel/AMD x86_64")
      else if arch == "arm64" then PowerInfo(7.0, "high", "ARM Cortex-A")
      else if arch == "arm" then PowerInfo(2.5, "ultra-high", "ARM Cortex-A (32-bit)")
      else PowerInfo(25.0, "unknown", "Unknown");
    // A non-empty battery reading is inspected and then ignored.
    if battery.Some? && TrimSpace(battery.value) != "" then table else table
  }

  /** The battery file never changes the answer. */
  lemma BatteryIrrelevant(goarch: string, b1: Option<string>, b2: Option<string>)
    ensures GetPowerInfo(goarch, b1) == GetPowerInfo(goarch, b2)
  {
  }

  /** How efficient the table calls an architecture: "unknown" below everything it knows. */
  function EfficiencyRank(efficiency: string): nat
  {
    if efficiency == "ultra-high" then 3
    else if efficiency == "high" then 2
    else if efficiency == "medium" then 1
    else 0
  }

  /**
   * The efficiency is "unknown" exactly for architectures outside the table, and among the
   * known ones a higher efficiency always comes with a lower estimated wattage.
   */
  lemma PowerTableConsistent(a1: string, a2: string, battery: Option<string>)
    ensures GetPowerInfo(a1, battery).powerEfficiency != "unknown" <==> KnownArch(a1)
    ensures KnownArch(a1) && KnownArch(a2) ==>
      (EfficiencyRank(GetPowerInfo(a1, battery).powerEfficiency) < EfficiencyRank(GetPowerInfo(a2, battery).powerEfficiency)
       <==> GetPowerInfo(a1, battery).estimatedWatts > GetPowerInfo(a2, battery).estimatedWatts)
  {
  }

  // ---------------------------------------------------------------------------------------
  // Kubernetes node classification

  const RoleMaster := "master"
  const RoleEdge := "edge"
  const RoleStorage := "storage"
  const RoleWorker := "worker"

  /** The role precedence of `getKubernetesInfo`, applied to the trimmed label text. */
  function NodeRole(labels: string): (role: string)
    ensures role == RoleMaster <==> Contains(labels, "master") || Contains(labels, "control-plane")
    ensures role == RoleEdge <==>
      !Contains(labels, "master") && !Contains(labels, "control-plane") && Contains(labels, "edge")
    ensures role == RoleStorage <==>
      !Contains(labels, "master") && !Contains(labels, "control-plane") && !Contains(labels, "edge")
      && Contains(labels, "storage")
    ensures role == RoleWorker <==>
      !Contains(labels, "master") && !Contains(labels, "control-plane") && !Contains(labels, "edge")
      && !Contains(labels, "storage")
  {
    if Contains(labels, "master") || Contains(labels, "control-plane") then RoleMaster
    else if Contains(labels, "edge") then RoleEdge
    else if Contains(labels, "storage") then RoleStorage
    else RoleWorker
  }

  datatype KubernetesInfo = KubernetesInfo(
    nodeName: string,
    nodeLabels: map<string, string>,
    isARM: bool,
    isAMD64: bool,
    nodeRole: string)

  /**
   * The node name: `NODE_NAME` when set, else the first line of `kubectl get node -o name`
   * (None when the command fails) without its `node/` prefix.
   */
  function ResolveNodeName(envNodeName: string, kubectlNodes: Option<string>): (name: string)
    ensures envNodeName != "" ==> name == envNodeName
    ensures envNodeName == "" && kubectlNodes.None? ==> name == ""
    ensures envNodeName == "" && kubectlNodes.Some? ==>
      var line := FirstField(TrimSpace(kubectlNodes.value), '\n');
      '\n' !in name && (if IsPrefix("node/", line) then "node/" + name == line else name == line)
  {
    if envNodeName != "" then envNodeName
    else match kubectlNodes
      case None => ""
      case Some(output) => TrimPrefix(FirstField(TrimSpace(output), '\n'), "node/")
  }

  /** The label text as classified: the trimmed output of the labels query, empty when it fails. */
  function LabelText(labelsOutput: Option<string>): string
  {
    match labelsOutput
    case None => ""
    case Some(output) => TrimSpace(output)
  }

  /**
   * `getKubernetesInfo`: nothing without a node name; otherwise a record whose arch flags
   * and label come from `goarch` when the label text mentions "arch", and whose role is
   * classified only when the label text is non-empty.
   */
  function GetKubernetesInfo(envNodeName: string, kubectlNodes: Option<string>,
                             labelsOutput: Option<string>, goarch: string): (k: Option<KubernetesInfo>)
    ensures k.None? <==> ResolveNodeName(envNodeName, kubectlNodes) == ""
    ensures k.Some? ==> var info, labels := k.value, LabelText(labelsOutput);
      && info.nodeName == ResolveNodeName(envNodeName, kubectlNodes)
      && (labels == "" ==> info.nodeRole == "" && info.nodeLabels == map[] && !info.isARM && !info.isAMD64)
      && (labels != "" ==> info.nodeRole == NodeRole(labels))
      && ("arch" in info.nodeLabels <==> labels != "" && Contains(labels, "arch"))
      && info.nodeLabels == (if labels != "" && Contains(labels, "arch") then map["arch" := goarch] else map[])
      && (info.isARM <==> "arch" in info.nodeLabels && (goarch == "arm64" || goarch == "arm"))
      && (info.isAMD64 <==> "arch" in info.nodeLabels && goarch == "amd64")
  {
    var nodeName := ResolveNodeName(envNodeName, kubectlNodes);
    if nodeName == "" then None
    else
      var labels := LabelText(labelsOutput);
      var empty := KubernetesInfo(nodeName, map[], false, false, "");
      if labels == "" then Some(empty)
      else
        var arch := GetArchitecture(goarch);
        var withArch :=
          if Contains(labels, "arch")
          then empty.(nodeLabels := map["arch" := arch], isARM := arch == "arm64" || arch == "arm",
                      isAMD64 := arch == "amd64")
          else empty;
        Some(withArch.(nodeRole := NodeRole(labels)))
  }

  /** A node is never reported as both ARM and AMD64. */
  lemma ArchFlagsExclusive(envNodeName: string, kubectlNodes: Option<string>,
                           labelsOutput: Option<string>, goarch: string)
    requires GetKubernetesInfo(envNodeName, kubectlNodes, labelsOutput, goarch).Some?
    ensures var info := GetKubernetesInfo(envNodeName, kubectlNodes, labelsOutput, goarch).value;
      !(info.isARM && info.isAMD64)
  {
  }

  /** `k8sInfo != nil && (k8sInfo.IsARM || k8sInfo.IsAMD64)`. */
  function IsMultiArch(k: Option<KubernetesInfo>): bool
  {
    k.Some? && (k.value.isARM || k.value.isAMD64)
  }

  /** The host counts as multi-arch exactly on a named node whose labels mention "arch" and whose architecture is tabled. */
  lemma MultiArchIff(envNodeName: string, kubectlNodes: Option<string>, labelsOutput: Option<string>, goarch: string)
    ensures IsMultiArch(GetKubernetesInfo(envNodeName, kubectlNodes, labelsOutput, goarch)) <==>
      && ResolveNodeName(envNodeName, kubectlNodes) != ""
      && LabelText(labelsOutput) != "" && Contains(LabelText(labelsOutput), "arch")
      && KnownArch(goarch)
  {
  }

  /** `kubectl get node -o name` prints one `node/<name>` line; trimming drops its newline. */
  lemma KubectlLineTrimmed()
    ensures TrimSpace("node/pi5\n") == "node/pi5"
  {
    var out, line := "node/pi5\n", "node/pi5";
    assert !IsSpace(out[0]) && !IsSpace(line[7]);
    assert TrimLeft(out) == out;
    assert out[..8] == line && IsSpace(out[8]);
    assert TrimRight(line) == line;
  }

  /** The node name read off that line. */
  lemma KubectlLineName()
    ensures TrimPrefix(FirstField("node/pi5", '\n'), "node/") == "pi5"
  {
    var line := "node/pi5";
    assert '\n' !in line;
    assert FirstField(line, '\n') == line;
    assert IsPrefix("node/", line) && line[5..] == "pi5";
  }

  lemma NodeNameFromKubectl()
    ensures ResolveNodeName("", Some("node/pi5\n")) == "pi5"
    ensures ResolveNodeName("nuc", Some("node/pi5\n")) == "nuc"
    ensures ResolveNodeName("", None) == ""
  {
    var out := "node/pi5\n";
    KubectlLineTrimmed();
    KubectlLineName();
    assert ResolveNodeName("", Some(out)) == TrimPrefix(FirstField(TrimSpace(out), '\n'), "node/");
  }

  // ---------------------------------------------------------------------------------------
  // Docker tally

  /** One entry of the Docker daemon's container list. */
  datatype DockerContainer = DockerContainer(id: string, names: seq<string>, image: string, state: string, status: string)

  datatype DockerMetrics = DockerMetrics(containerCount: nat, runningCount: nat, containers: seq<ContainerInfo>)

  /** What the daemon guarantees of each entry: a full id (there are 64 hex digits) and a name. */
  predicate Listable(c: DockerContainer)
  {
    |c.id| >= 12 && |c.names| > 0
  }

  /** The reported form of one container: the short id (`ID[:12]`) and the first name. */
  function Report(c: DockerContainer): (info: ContainerInfo)
    requires Listable(c)
    ensures |info.id| == 12 && IsPrefix(info.id, c.id)
    ensures info.name == c.names[0] && info.state == c.state && info.status == c.status && info.image == c.image
  {
    ContainerInfo(c.id[..12], c.names[0], c.state, c.status, c.image)
  }

  /** The number of entries whose state is exactly "running". */
  function CountRunning(cs: seq<DockerContainer>): nat
  {
    if cs == [] then 0
    else CountRunning(cs[..|cs| - 1]) + (if cs[|cs| - 1].state == "running" then 1 else 0)
  }

  /** The running count is at most the list length, equal to it exactly when all run, zero exactly when none does. */
  lemma {:induction false} CountRunningBounds(cs: seq<DockerContainer>)
    ensures CountRunning(cs) <= |cs|
    ensures CountRunning(cs) == |cs| <==> forall k :: 0 <= k < |cs| ==> cs[k].state == "running"
    ensures CountRunning(cs) == 0 <==> forall k :: 0 <= k < |cs| ==> cs[k].state != "running"
    decreases |cs|
  {
    if cs != [] {
      var init := cs[..|cs| - 1];
      CountRunningBounds(init);
      assert forall k :: 0 <= k < |init| ==> init[k] == cs[k];
    }
  }

  /**
   * The Docker part of `collectMetrics`. `list` is the daemon's answer to `ContainerList`;
   * None when there is no client or the call fails, in which case everything stays zero.
   */
  method CollectDocker(list: Option<seq<DockerContainer>>) returns (d: DockerMetrics)
    requires list.Some? ==> forall k :: 0 <= k < |list.value| ==> Listable(list.value[k])
    ensures list.None? ==> d == DockerMetrics(0, 0, [])
    ensures list.Some? ==>
      && d.containerCount == |list.value|
      && d.runningCount == CountRunning(list.value)
      && |d.containers| == |list.value|
      && forall k :: 0 <= k < |list.value| ==> d.containers[k] == Report(list.value[k])
    ensures d.runningCount <= d.containerCount
  {
    d := DockerMetrics(0, 0, []);
    if list.Some? {
      var containers := list.value;
      d := d.(containerCount := |containers|);
      var i := 0;
      while i < |containers|
        invariant 0 <= i <= |containers|
        invariant d.containerCount == |containers|
        invariant d.runningCount == CountRunning(containers[..i])
        invariant |d.containers| == i
        invariant forall k :: 0 <= k < i ==> d.containers[k] == Report(containers[k])
      {
        var container := containers[i];
        var info := ContainerInfo(container.id[..12], container.names[0], container.state, container.status,
                                  container.image);
        assert containers[..i + 1][..i] == containers[..i];
        d := d.(containers := d.containers + [info]);
        if container.state == "running" {
          d := d.(runningCount := d.runningCount + 1);
        }
        i := i + 1;
      }
      assert containers[..i] == containers;
      CountRunningBounds(containers);
    }
  }

  // ---------------------------------------------------------------------------------------
  // Container actions

  const StatusOK := 200
  const StatusBadRequest := 400
  const StatusInternalServerError := 500

  /** The stop and restart grace period, in seconds. */
  const ActionTimeout := 10

  /** The JSON body of a `/container/action` request. */
  datatype ActionRequest = ActionRequest(containerId: string, action: string)

  datatype ContainerOp = Start | Stop(timeout: int) | Restart(timeout: int)

  /** A call made to the Docker daemon. */
  datatype Invocation = Invocation(op: ContainerOp, containerId: string)

  datatype Body = ErrorBody(error: string) | StatusBody(status: string)

  datatype Reply = Reply(code: int, body: Body)

  datatype Outcome = Outcome(invoked: Option<Invocation>, reply: Reply)

  /** The action switch: each known action names its own daemon operation. */
  function OperationFor(action: string): (op: Option<ContainerOp>)
    ensures op == Some(Start) <==> action == "start"
    ensures op == Some(Stop(ActionTimeout)) <==> action == "stop"
    ensures op == Some(Restart(ActionTimeout)) <==> action == "restart"
    ensures op.None? <==> action != "start" && action != "stop" && action != "restart"
  {
    if action == "start" then Some(Start)
    else if action == "stop" then Some(Stop(ActionTimeout))
    else if action == "restart" then Some(Restart(ActionTimeout))
    else None
  }

  /**
   * `handleContainerAction`. `request` is the result of binding the JSON body (Failure with
   * the binder's message); `daemonError` is what the daemon returns if an operation is
   * invoked (None for success).
   */
  function HandleContainerAction(request: Result<ActionRequest, string>, daemonError: Option<string>): (o: Outcome)
    ensures request.Failure? ==> o == Outcome(None, Reply(StatusBadRequest, ErrorBody(request.error)))
    ensures request.Success? && OperationFor(request.value.action).None? ==>
      o == Outcome(None, Reply(StatusBadRequest, ErrorBody("invalid action")))
    ensures o.invoked.Some? <==> request.Success? && OperationFor(request.value.action).Some?
    ensures o.invoked.Some? ==>
      o.invoked.value == Invocation(OperationFor(request.value.action).value, request.value.containerId)
    ensures o.reply.code == StatusOK <==> o.invoked.Some? && daemonError.None?
    ensures o.reply.code == StatusOK ==> o.reply.body == StatusBody("success")
    ensures o.invoked.Some? && daemonError.Some? ==>
      o.reply == Reply(StatusInternalServerError, ErrorBody(daemonError.value))
  {
    match request
    case Failure(message) => Outcome(None, Reply(StatusBadRequest, ErrorBody(message)))
    case Success(req) =>
      match OperationFor(req.action)
      case None => Outcome(None, Reply(StatusBadRequest, ErrorBody("invalid action")))
      case Some(op) =>
        var call := Some(Invocation(op, req.containerId));
        match daemonError
        case Some(err) => Outcome(call, Reply(StatusInternalServerError, ErrorBody(err)))
        case None => Outcome(call, Reply(StatusOK, StatusBody("success")))
  }

  /** "start", "stop" and "restart" reach the daemon with their own operation; "kill" does not reach it at all. */
  lemma ActionExamples(id: string, daemonError: Option<string>)
    ensures HandleContainerAction(Success(ActionRequest(id, "start")), daemonError).invoked == Some(Invocation(Start, id))
    ensures HandleContainerAction(Success(ActionRequest(id, "stop")), daemonError).invoked == Some(Invocation(Stop(10), id))
    ensures HandleContainerAction(Success(ActionRequest(id, "restart")), daemonError).invoked
              == Some(Invocation(Restart(10), id))
    ensures HandleContainerAction(Success(ActionRequest(id, "kill")), daemonError)
              == Outcome(None, Reply(400, ErrorBody("invalid action")))
  {
  }
}
