/**
 * The pod-security rule engine of pkg/pss.go. Each of the fourteen rules walks the pod list
 * and appends a `Finding` for every violation it sees; per-container rules walk the three
 * container groups of a pod in the order primary, init, ephemeral, through one shared
 * `Container` type. Each rule is a method with loops, proved equal to a specification
 * function, and the lemmas below say, rule by rule, exactly which findings that function holds.
 * The pod list is a parameter: the cluster lookup the Go rules perform first is not modelled.
 */
module Pss {
  import opened Wrappers
  import opened Sequences
  import opened Strings

  // ---------------------------------------------------------------------------------------
  // The pod specification: the part of the Kubernetes core/v1 Pod that the rules read.
  // Optional Go pointers are `Option`s; slices that are only ranged over are plain sequences,
  // because ranging over a nil slice and over an empty one do the same thing.
  // ---------------------------------------------------------------------------------------

  /** Added and dropped capabilities; a nil list and an empty one differ for the capability rules. */
  datatype Capabilities = Capabilities(add: Option<seq<string>>, drop: Option<seq<string>>)

  datatype SeccompProfile = SeccompProfile(profileType: string)

  datatype WindowsOptions = WindowsOptions(hostProcess: Option<bool>)

  /** A container's security context. */
  datatype SecurityContext = SecurityContext(
    privileged: Option<bool>,
    allowPrivilegeEscalation: Option<bool>,
    capabilities: Option<Capabilities>,
    seccompProfile: Option<SeccompProfile>,
    procMount: Option<string>,
    windowsOptions: Option<WindowsOptions>)

  datatype ContainerPort = ContainerPort(containerPort: int, hostPort: int)

  /** One container; primary, init and ephemeral containers share this shape. */
  datatype Container = Container(name: string, ports: seq<ContainerPort>, securityContext: Option<SecurityContext>)

  datatype PodSysctl = PodSysctl(name: string, value: string)

  /** The pod-level security context. */
  datatype PodSecurityContext = PodSecurityContext(
    seccompProfile: Option<SeccompProfile>,
    sysctls: seq<PodSysctl>,
    windowsOptions: Option<WindowsOptions>)

  datatype HostPathVolumeSource = HostPathVolumeSource(path: string)

  datatype Volume = Volume(name: string, hostPath: Option<HostPathVolumeSource>)

  datatype PodSpec = PodSpec(
    hostPID: bool,
    hostNetwork: bool,
    hostIPC: bool,
    containers: seq<Container>,
    initContainers: seq<Container>,
    ephemeralContainers: seq<Container>,
    volumes: seq<Volume>,
    securityContext: Option<PodSecurityContext>)

  /** A pod; its annotation map is a sequence of (key, value) pairs, since Go leaves map order unspecified. */
  datatype Pod = Pod(namespace: string, name: string, annotations: seq<(string, string)>, spec: PodSpec)

  /** Every container of a pod, in the order the rules visit them. */
  function AllContainers(p: Pod): seq<Container> {
    p.spec.containers + p.spec.initContainers + p.spec.ephemeralContainers
  }

  // ---------------------------------------------------------------------------------------
  // Findings
  // ---------------------------------------------------------------------------------------

  /** One rule violation; fields a rule does not set keep Go's zero values. */
  datatype Finding = Finding(
    check: string,
    namespace: string,
    pod: string,
    container: string,
    capabilities: seq<string>,
    hostport: int,
    volume: string,
    path: string,
    sysctl: string)

  /** A pod-scoped finding: the container field is empty. */
  function PodFinding(check: string, p: Pod): Finding {
    Finding(check, p.namespace, p.name, "", [], 0, "", "", "")
  }

  /** A container-scoped finding. */
  function AtContainer(check: string, p: Pod, c: Container): Finding {
    PodFinding(check, p).(container := c.name)
  }

  // ---------------------------------------------------------------------------------------
  // Host PID, host network, host IPC (pkg/pss.go:21-57)
  // ---------------------------------------------------------------------------------------

  datatype PodFlag = HostPidFlag | HostNetworkFlag | HostIpcFlag

  function FlagCheck(flag: PodFlag): string {
    match flag
    case HostPidFlag => "hostpid"
    case HostNetworkFlag => "hostnet"
    case HostIpcFlag => "hostipc"
  }

  predicate FlagSet(flag: PodFlag, p: Pod) {
    match flag
    case HostPidFlag => p.spec.hostPID
    case HostNetworkFlag => p.spec.hostNetwork
    case HostIpcFlag => p.spec.hostIPC
  }

  function PodFlagFindings(flag: PodFlag, p: Pod): seq<Finding> {
    if FlagSet(flag, p) then [PodFinding(FlagCheck(flag), p)] else []
  }

  function PodFlagFn(flag: PodFlag): Pod -> seq<Finding> {
    (p: Pod) => PodFlagFindings(flag, p)
  }

  /** The findings of a pod-flag rule. */
  function PodFlagRule(flag: PodFlag, pods: seq<Pod>): seq<Finding> {
    FlatMap(PodFlagFn(flag), pods)
  }

  /** The loop shared by `Hostpid`, `Hostnet` and `Hostipc`. */
  method ScanPodFlag(flag: PodFlag, pods: seq<Pod>) returns (fs: seq<Finding>)
    ensures fs == PodFlagRule(flag, pods)
  {
    fs := [];
    for i := 0 to |pods|
      invariant fs == PodFlagRule(flag, pods[..i])
    {
      var pod := pods[i];
      if FlagSet(flag, pod) {
        fs := fs + [PodFinding(FlagCheck(flag), pod)];
      }
      FlatMapStep(PodFlagFn(flag), pods, i);
    }
    assert pods[..|pods|] == pods;
  }

  method Hostpid(pods: seq<Pod>) returns (fs: seq<Finding>)
    ensures fs == PodFlagRule(HostPidFlag, pods)
  {
    fs := ScanPodFlag(HostPidFlag, pods);
  }

  method Hostnet(pods: seq<Pod>) returns (fs: seq<Finding>)
    ensures fs == PodFlagRule(HostNetworkFlag, pods)
  {
    fs := ScanPodFlag(HostNetworkFlag, pods);
  }

  method Hostipc(pods: seq<Pod>) returns (fs: seq<Finding>)
    ensures fs == PodFlagRule(HostIpcFlag, pods)
  {
    fs := ScanPodFlag(HostIpcFlag, pods);
  }

  /** A pod-flag finding exists exactly for the pods whose flag is set; it names no container. */
  lemma PodFlagMember(flag: PodFlag, pods: seq<Pod>, f: Finding)
    ensures f in PodFlagRule(flag, pods) <==>
      exists p :: p in pods && FlagSet(flag, p) && f == PodFinding(FlagCheck(flag), p)
  {
    FlatMapMember(PodFlagFn(flag), pods, f);
  }

  /** The indices of the pods whose flag is set. */
  ghost function FlaggedIndices(flag: PodFlag, pods: seq<Pod>): set<int> {
    set i | 0 <= i < |pods| && FlagSet(flag, pods[i])
  }

  lemma FlaggedIndicesStep(flag: PodFlag, pods: seq<Pod>, n: int)
    requires 0 <= n < |pods|
    ensures FlaggedIndices(flag, pods[..n + 1])
      == FlaggedIndices(flag, pods[..n]) + (if FlagSet(flag, pods[n]) then {n} else {})
  {
    var longer, shorter := pods[..n + 1], pods[..n];
    assert forall i :: 0 <= i < n ==> longer[i] == shorter[i];
  }

  /** A pod-flag rule emits exactly one finding per flagged pod. */
  lemma {:induction false} PodFlagCount(flag: PodFlag, pods: seq<Pod>)
    ensures |PodFlagRule(flag, pods)| == |FlaggedIndices(flag, pods)|
  {
    if |pods| > 0 {
      var n := |pods| - 1;
      PodFlagCount(flag, pods[..n]);
      FlatMapStep(PodFlagFn(flag), pods, n);
      FlaggedIndicesStep(flag, pods, n);
      assert n !in FlaggedIndices(flag, pods[..n]);
      assert pods[..n + 1] == pods;
    }
  }

  // ---------------------------------------------------------------------------------------
  // Host ports (pkg/pss.go:59-100)
  // ---------------------------------------------------------------------------------------

  function PortFinding(p: Pod, c: Container, port: ContainerPort): Finding {
    AtContainer("Host Ports", p, c).(hostport := port.hostPort)
  }

  function PortFn(p: Pod, c: Container): ContainerPort -> seq<Finding> {
    (port: ContainerPort) => if port.hostPort != 0 then [PortFinding(p, c, port)] else []
  }

  /** The host-port findings of one container, in declaration order. */
  function PortFindings(p: Pod, c: Container): seq<Finding> {
    FlatMap(PortFn(p, c), c.ports)
  }

  function ContainerPortFn(p: Pod): Container -> seq<Finding> {
    (c: Container) => PortFindings(p, c)
  }

  function GroupPortFindings(p: Pod, cs: seq<Container>): seq<Finding> {
    FlatMap(ContainerPortFn(p), cs)
  }

  /** A pod's host-port findings: primary, then init, then ephemeral containers. */
  function PodPortFindings(p: Pod): seq<Finding> {
    GroupPortFindings(p, p.spec.containers)
    + GroupPortFindings(p, p.spec.initContainers)
    + GroupPortFindings(p, p.spec.ephemeralContainers)
  }

  function HostPortsRule(pods: seq<Pod>): seq<Finding> {
    FlatMap(PodPortFindings, pods)
  }

  /** The inner loop over one container's declared ports. */
  method ScanPorts(p: Pod, c: Container, acc: seq<Finding>) returns (fs: seq<Finding>)
    ensures fs == acc + PortFindings(p, c)
  {
    fs := acc;
    for k := 0 to |c.ports|
      invariant fs == acc + FlatMap(PortFn(p, c), c.ports[..k])
    {
      var port := c.ports[k];
      if port.hostPort != 0 {
        fs := fs + [PortFinding(p, c, port)];
      }
      FlatMapStep(PortFn(p, c), c.ports, k);
    }
    assert c.ports[..|c.ports|] == c.ports;
  }

  /** The loop over one container group. */
  method ScanPortGroup(p: Pod, group: seq<Container>, acc: seq<Finding>) returns (fs: seq<Finding>)
    ensures fs == acc + GroupPortFindings(p, group)
  {
    fs := acc;
    for j := 0 to |group|
      invariant fs == acc + GroupPortFindings(p, group[..j])
    {
      var c := group[j];
      fs := ScanPorts(p, c, fs);
      FlatMapStep(ContainerPortFn(p), group, j);
    }
    assert group[..|group|] == group;
  }

  /** One pod's host ports: primary, then init, then ephemeral containers. */
  method ScanPodPorts(pod: Pod) returns (podFs: seq<Finding>)
    ensures podFs == PodPortFindings(pod)
  {
    podFs := ScanPortGroup(pod, pod.spec.containers, []);
    podFs := ScanPortGroup(pod, pod.spec.initContainers, podFs);
    podFs := ScanPortGroup(pod, pod.spec.ephemeralContainers, podFs);
  }

  method HostPorts(pods: seq<Pod>) returns (fs: seq<Finding>)
    ensures fs == HostPortsRule(pods)
  {
    fs := [];
    for i := 0 to |pods|
      invariant fs == HostPortsRule(pods[..i])
    {
      var podFs := ScanPodPorts(pods[i]);
      fs := fs + podFs;
      FlatMapStep(PodPortFindings, pods, i);
    }
    assert pods[..|pods|] == pods;
  }

  lemma GroupPortMember(p: Pod, cs: seq<Container>, f: Finding)
    ensures f in GroupPortFindings(p, cs) <==>
      exists c, port :: c in cs && port in c.ports && port.hostPort != 0 && f == PortFinding(p, c, port)
  {
    FlatMapMember(ContainerPortFn(p), cs, f);
    forall c | c in cs
      ensures f in PortFindings(p, c) <==> exists port :: port in c.ports && port.hostPort != 0 && f == PortFinding(p, c, port)
    {
      FlatMapMember(PortFn(p, c), c.ports, f);
    }
  }

  /**
   * A host-port finding exists exactly for each declared port with a non-zero host port; it
   * carries that port and the name of the container that declares it.
   */
  lemma HostPortsMember(pods: seq<Pod>, f: Finding)
    ensures f in HostPortsRule(pods) <==>
      exists p, c, port :: p in pods && c in AllContainers(p) && port in c.ports && port.hostPort != 0
        && f == PortFinding(p, c, port)
  {
    FlatMapMember(PodPortFindings, pods, f);
    forall p | p in pods
      ensures f in PodPortFindings(p) <==>
        exists c, port :: c in AllContainers(p) && port in c.ports && port.hostPort != 0 && f == PortFinding(p, c, port)
    {
      GroupPortMember(p, p.spec.containers, f);
      GroupPortMember(p, p.spec.initContainers, f);
      GroupPortMember(p, p.spec.ephemeralContainers, f);
    }
  }

  /** A pod none of whose declared host ports is non-zero contributes no host-port finding. */
  lemma HostPortsNoneWithoutHostPorts(pods: seq<Pod>)
    requires forall p, c, port :: p in pods && c in AllContainers(p) && port in c.ports ==> port.hostPort == 0
    ensures HostPortsRule(pods) == []
  {
    if HostPortsRule(pods) != [] {
      HostPortsMember(pods, HostPortsRule(pods)[0]);
      assert false;
    }
  }

  // ---------------------------------------------------------------------------------------
  // Host path volumes (pkg/pss.go:102-117)
  // ---------------------------------------------------------------------------------------

  function VolumeFinding(p: Pod, v: Volume): Finding
    requires v.hostPath.Some?
  {
    PodFinding("Host Path", p).(volume := v.name, path := v.hostPath.value.path)
  }

  function VolumeFn(p: Pod): Volume -> seq<Finding> {
    (v: Volume) => if v.hostPath.Some? then [VolumeFinding(p, v)] else []
  }

  function VolumeFindings(p: Pod): seq<Finding> {
    FlatMap(VolumeFn(p), p.spec.volumes)
  }

  function HostPathRule(pods: seq<Pod>): seq<Finding> {
    FlatMap(VolumeFindings, pods)
  }

  method HostPath(pods: seq<Pod>) returns (fs: seq<Finding>)
    ensures fs == HostPathRule(pods)
  {
    fs := [];
    for i := 0 to |pods|
      invariant fs == HostPathRule(pods[..i])
    {
      var pod := pods[i];
      var vols := pod.spec.volumes;
      ghost var before := fs;
      for k := 0 to |vols|
        invariant fs == before + FlatMap(VolumeFn(pod), vols[..k])
      {
        var vol := vols[k];
        if vol.hostPath.Some? {
          fs := fs + [VolumeFinding(pod, vol)];
        }
        FlatMapStep(VolumeFn(pod), vols, k);
      }
      assert vols[..|vols|] == vols;
      FlatMapStep(VolumeFindings, pods, i);
    }
    assert pods[..|pods|] == pods;
  }

  /** A host-path finding exists exactly for each pod volume whose host path is set, with its name and path. */
  lemma HostPathMember(pods: seq<Pod>, f: Finding)
    ensures f in HostPathRule(pods) <==>
      exists p, v :: p in pods && v in p.spec.volumes && v.hostPath.Some? && f == VolumeFinding(p, v)
  {
    FlatMapMember(VolumeFindings, pods, f);
    forall p | p in pods
      ensures f in VolumeFindings(p) <==> exists v :: v in p.spec.volumes && v.hostPath.Some? && f == VolumeFinding(p, v)
    {
      FlatMapMember(VolumeFn(p), p.spec.volumes, f);
    }
  }

  // ---------------------------------------------------------------------------------------
  // The per-container rules: HostProcess, privileged, allowprivesc, added and dropped
  // capabilities, seccomp and unmasked procmount (pkg/pss.go:119-331, 350-377)
  // ---------------------------------------------------------------------------------------

  datatype ContainerCheck =
    | HostProcessCheck
    | PrivilegedCheck
    | AllowPrivEscCheck
    | AddedCapabilitiesCheck
    | DroppedCapabilitiesCheck
    | SeccompCheck
    | ProcmountCheck

  /** The `Check` key each rule writes. */
  function CheckKey(check: ContainerCheck): string {
    match check
    case HostProcessCheck => "HostProcess"
    case PrivilegedCheck => "privileged"
    case AllowPrivEscCheck => "allowprivesc"
    case AddedCapabilitiesCheck => "Added Capabilities"
    case DroppedCapabilitiesCheck => "Dropped Capabilities"
    case SeccompCheck => "Seccomp Disabled"
    case ProcmountCheck => "Unmasked procmount"
  }

  /** Absent, unset or of type "Unconfined": the seccomp test used at both levels. */
  predicate ProfileUnconfined(profile: Option<SeccompProfile>) {
    profile.None? || profile.value.profileType == "Unconfined"
  }

  predicate PodUnconfined(p: Pod) {
    p.spec.securityContext.None? || ProfileUnconfined(p.spec.securityContext.value.seccompProfile)
  }

  predicate PodHostProcess(p: Pod) {
    && p.spec.securityContext.Some?
    && p.spec.securityContext.value.windowsOptions.Some?
    && p.spec.securityContext.value.windowsOptions.value.hostProcess == Some(true)
  }

  /** The container-level test of each rule: "present AND set AND violating value". */
  predicate Fires(check: ContainerCheck, c: Container) {
    var sc := c.securityContext;
    match check
    case HostProcessCheck =>
      sc.Some? && sc.value.windowsOptions.Some? && sc.value.windowsOptions.value.hostProcess == Some(true)
    case PrivilegedCheck =>
      sc.Some? && sc.value.privileged == Some(true)
    case AllowPrivEscCheck =>
      sc.None? || sc.value.allowPrivilegeEscalation.None?
    case AddedCapabilitiesCheck =>
      sc.Some? && sc.value.capabilities.Some? && sc.value.capabilities.value.add.Some?
    case DroppedCapabilitiesCheck =>
      sc.Some? && sc.value.capabilities.Some? && sc.value.capabilities.value.drop.Some?
    case SeccompCheck =>
      sc.None? || ProfileUnconfined(sc.value.seccompProfile)
    case ProcmountCheck =>
      sc.Some? && sc.value.procMount == Some("Unmasked")
  }

  /** The finding a firing container yields; the capability rules copy the listed names. */
  function Payload(check: ContainerCheck, p: Pod, c: Container): Finding
    requires Fires(check, c)
  {
    var base := AtContainer(CheckKey(check), p, c);
    match check
    case AddedCapabilitiesCheck => base.(capabilities := c.securityContext.value.capabilities.value.add.value)
    case DroppedCapabilitiesCheck => base.(capabilities := c.securityContext.value.capabilities.value.drop.value)
    case _ => base
  }

  function ContainerFn(check: ContainerCheck, p: Pod): Container -> seq<Finding> {
    (c: Container) => if Fires(check, c) then [Payload(check, p, c)] else []
  }

  function GroupFindings(check: ContainerCheck, p: Pod, cs: seq<Container>): seq<Finding> {
    FlatMap(ContainerFn(check, p), cs)
  }

  /** The pod-level HostProcess finding, which precedes that pod's container findings. */
  function PodLevelFindings(check: ContainerCheck, p: Pod): seq<Finding> {
    if check == HostProcessCheck && PodHostProcess(p) then [PodFinding("HostProcess", p)] else []
  }

  /** Seccomp looks at a pod's containers only when the pod itself is unconfined. */
  predicate GroupsScanned(check: ContainerCheck, p: Pod) {
    check != SeccompCheck || PodUnconfined(p)
  }

  function PodContainerFindings(check: ContainerCheck, p: Pod): seq<Finding> {
    PodLevelFindings(check, p)
    + if GroupsScanned(check, p) then
        GroupFindings(check, p, p.spec.containers)
        + GroupFindings(check, p, p.spec.initContainers)
        + GroupFindings(check, p, p.spec.ephemeralContainers)
      else []
  }

  function PodContainerFn(check: ContainerCheck): Pod -> seq<Finding> {
    (p: Pod) => PodContainerFindings(check, p)
  }

  /** The findings of a per-container rule. */
  function ContainerRule(check: ContainerCheck, pods: seq<Pod>): seq<Finding> {
    FlatMap(PodContainerFn(check), pods)
  }

  /**
   * The Go HostProcess rule dereferences the pod security context and both HostProcess
   * pointers without checking them: it panics unless they are present.
   */
  predicate HostProcessReadable(c: Container) {
    c.securityContext.Some? && c.securityContext.value.windowsOptions.Some?
    ==> c.securityContext.value.windowsOptions.value.hostProcess.Some?
  }

  predicate HostProcessDefined(p: Pod) {
    && p.spec.securityContext.Some?
    && (p.spec.securityContext.value.windowsOptions.Some?
        ==> p.spec.securityContext.value.windowsOptions.value.hostProcess.Some?)
    && forall c :: c in AllContainers(p) ==> HostProcessReadable(c)
  }

  /** The capability-list copy loop: the names come out in their original order. */
  method CopyNames(caps: seq<string>) returns (names: seq<string>)
    ensures names == caps
  {
    names := [];
    for k := 0 to |caps|
      invariant names == caps[..k]
    {
      names := names + [caps[k]];
    }
  }

  /** The loop over one container group, appending to `acc`. */
  method ScanGroup(check: ContainerCheck, p: Pod, group: seq<Container>, acc: seq<Finding>) returns (fs: seq<Finding>)
    requires check == HostProcessCheck ==> forall c :: c in group ==> HostProcessReadable(c)
    ensures fs == acc + GroupFindings(check, p, group)
  {
    fs := acc;
    for j := 0 to |group|
      invariant fs == acc + GroupFindings(check, p, group[..j])
    {
      var c := group[j];
      var hit: bool;
      if check == HostProcessCheck {
        assert c in group && HostProcessReadable(c);
        hit := c.securityContext.Some? && c.securityContext.value.windowsOptions.Some?
               && c.securityContext.value.windowsOptions.value.hostProcess.value;
      } else {
        hit := Fires(check, c);
      }
      if hit {
        var finding := AtContainer(CheckKey(check), p, c);
        if check == AddedCapabilitiesCheck {
          var names := CopyNames(c.securityContext.value.capabilities.value.add.value);
          finding := finding.(capabilities := names);
        } else if check == DroppedCapabilitiesCheck {
          var names := CopyNames(c.securityContext.value.capabilities.value.drop.value);
          finding := finding.(capabilities := names);
        }
        fs := fs + [finding];
      }
      FlatMapStep(ContainerFn(check, p), group, j);
    }
    assert group[..|group|] == group;
  }

  /** The three container groups of one pod, in the order the rules visit them. */
  method ScanPodGroups(check: ContainerCheck, pod: Pod) returns (groupFs: seq<Finding>)
    requires check == HostProcessCheck ==> forall c :: c in AllContainers(pod) ==> HostProcessReadable(c)
    ensures groupFs == GroupFindings(check, pod, pod.spec.containers)
                       + GroupFindings(check, pod, pod.spec.initContainers)
                       + GroupFindings(check, pod, pod.spec.ephemeralContainers)
  {
    groupFs := ScanGroup(check, pod, pod.spec.containers, []);
    groupFs := ScanGroup(check, pod, pod.spec.initContainers, groupFs);
    groupFs := ScanGroup(check, pod, pod.spec.ephemeralContainers, groupFs);
  }

  /** The body of the pod loop: the pod-level HostProcess test, then the three groups unless seccomp-gated. */
  method ScanPod(check: ContainerCheck, pod: Pod) returns (podFs: seq<Finding>)
    requires check == HostProcessCheck ==> HostProcessDefined(pod)
    ensures podFs == PodContainerFindings(check, pod)
  {
    var level := [];
    if check == HostProcessCheck {
      var podSc := pod.spec.securityContext.value;
      if podSc.windowsOptions.Some? && podSc.windowsOptions.value.hostProcess.value {
        level := [PodFinding("HostProcess", pod)];
      }
    }
    assert level == PodLevelFindings(check, pod);
    if check != SeccompCheck || PodUnconfined(pod) {
      var groupFs := ScanPodGroups(check, pod);
      podFs := level + groupFs;
    } else {
      podFs := level;
    }
  }

  /** The pod loop shared by the per-container rules. */
  method ScanContainers(check: ContainerCheck, pods: seq<Pod>) returns (fs: seq<Finding>)
    requires check == HostProcessCheck ==> forall p :: p in pods ==> HostProcessDefined(p)
    ensures fs == ContainerRule(check, pods)
  {
    fs := [];
    for i := 0 to |pods|
      invariant fs == ContainerRule(check, pods[..i])
    {
      var podFs := ScanPod(check, pods[i]);
      fs := fs + podFs;
      FlatMapStep(PodContainerFn(check), pods, i);
    }
    assert pods[..|pods|] == pods;
  }

  method HostProcess(pods: seq<Pod>) returns (fs: seq<Finding>)
    requires forall p :: p in pods ==> HostProcessDefined(p)
    ensures fs == ContainerRule(HostProcessCheck, pods)
  {
    fs := ScanContainers(HostProcessCheck, pods);
  }

  method Privileged(pods: seq<Pod>) returns (fs: seq<Finding>)
    ensures fs == ContainerRule(PrivilegedCheck, pods)
  {
    fs := ScanContainers(PrivilegedCheck, pods);
  }

  method AllowPrivEsc(pods: seq<Pod>) returns (fs: seq<Finding>)
    ensures fs == ContainerRule(AllowPrivEscCheck, pods)
  {
    fs := ScanContainers(AllowPrivEscCheck, pods);
  }

  method AddedCapabilities(pods: seq<Pod>) returns (fs: seq<Finding>)
    ensures fs == ContainerRule(AddedCapabilitiesCheck, pods)
  {
    fs := ScanContainers(AddedCapabilitiesCheck, pods);
  }

  method DroppedCapabilities(pods: seq<Pod>) returns (fs: seq<Finding>)
    ensures fs == ContainerRule(DroppedCapabilitiesCheck, pods)
  {
    fs := ScanContainers(DroppedCapabilitiesCheck, pods);
  }

  method Seccomp(pods: seq<Pod>) returns (fs: seq<Finding>)
    ensures fs == ContainerRule(SeccompCheck, pods)
  {
    fs := ScanContainers(SeccompCheck, pods);
  }

  method Procmount(pods: seq<Pod>) returns (fs: seq<Finding>)
    ensures fs == ContainerRule(ProcmountCheck, pods)
  {
    fs := ScanContainers(ProcmountCheck, pods);
  }

  lemma GroupMember(check: ContainerCheck, p: Pod, cs: seq<Container>, f: Finding)
    ensures f in GroupFindings(check, p, cs) <==> exists c :: c in cs && Fires(check, c) && f == Payload(check, p, c)
  {
    FlatMapMember(ContainerFn(check, p), cs, f);
  }

  lemma PodContainerMember(check: ContainerCheck, p: Pod, f: Finding)
    ensures f in PodContainerFindings(check, p) <==>
      (f in PodLevelFindings(check, p)
       || (GroupsScanned(check, p) && exists c :: c in AllContainers(p) && Fires(check, c) && f == Payload(check, p, c)))
  {
    GroupMember(check, p, p.spec.containers, f);
    GroupMember(check, p, p.spec.initContainers, f);
    GroupMember(check, p, p.spec.ephemeralContainers, f);
  }

  /** Membership in a per-container rule's output, rule-independently. */
  lemma ContainerRuleMember(check: ContainerCheck, pods: seq<Pod>, f: Finding)
    ensures f in ContainerRule(check, pods) <==>
      exists p :: p in pods &&
        (f in PodLevelFindings(check, p)
         || (GroupsScanned(check, p) && exists c :: c in AllContainers(p) && Fires(check, c) && f == Payload(check, p, c)))
  {
    FlatMapMember(PodContainerFn(check), pods, f);
    forall p | p in pods
      ensures f in PodContainerFindings(check, p) <==>
        (f in PodLevelFindings(check, p)
         || (GroupsScanned(check, p) && exists c :: c in AllContainers(p) && Fires(check, c) && f == Payload(check, p, c)))
    {
      PodContainerMember(check, p, f);
    }
  }

  /** A HostProcess finding exists for each pod, and each container, whose HostProcess flag is true. */
  lemma HostProcessMember(pods: seq<Pod>, f: Finding)
    ensures f in ContainerRule(HostProcessCheck, pods) <==>
      exists p :: p in pods &&
        ((PodHostProcess(p) && f == PodFinding("HostProcess", p))
         || exists c :: c in AllContainers(p) && c.securityContext.Some? && c.securityContext.value.windowsOptions.Some?
              && c.securityContext.value.windowsOptions.value.hostProcess == Some(true)
              && f == AtContainer("HostProcess", p, c))
  {
    ContainerRuleMember(HostProcessCheck, pods, f);
  }

  /** A "privileged" finding exists exactly for containers whose context sets privileged to true. */
  lemma PrivilegedMember(pods: seq<Pod>, f: Finding)
    ensures f in ContainerRule(PrivilegedCheck, pods) <==>
      exists p, c :: p in pods && c in AllContainers(p)
        && c.securityContext.Some? && c.securityContext.value.privileged == Some(true)
        && f == AtContainer("privileged", p, c)
  {
    ContainerRuleMember(PrivilegedCheck, pods, f);
  }

  /** An "allowprivesc" finding exists exactly for containers with no context or no escalation flag. */
  lemma AllowPrivEscMember(pods: seq<Pod>, f: Finding)
    ensures f in ContainerRule(AllowPrivEscCheck, pods) <==>
      exists p, c :: p in pods && c in AllContainers(p)
        && (c.securityContext.None? || c.securityContext.value.allowPrivilegeEscalation.None?)
        && f == AtContainer("allowprivesc", p, c)
  {
    ContainerRuleMember(AllowPrivEscCheck, pods, f);
  }

  /** An explicitly set escalation flag, true or false, silences "allowprivesc". */
  lemma AllowPrivEscExplicitFlagSilent(pods: seq<Pod>)
    requires forall p, c :: p in pods && c in AllContainers(p) ==>
      c.securityContext.Some? && c.securityContext.value.allowPrivilegeEscalation.Some?
    ensures ContainerRule(AllowPrivEscCheck, pods) == []
  {
    if ContainerRule(AllowPrivEscCheck, pods) != [] {
      AllowPrivEscMember(pods, ContainerRule(AllowPrivEscCheck, pods)[0]);
      assert false;
    }
  }

  /** A capability finding exists for each context with an add list; it copies that list in order. */
  lemma AddedCapabilitiesMember(pods: seq<Pod>, f: Finding)
    ensures f in ContainerRule(AddedCapabilitiesCheck, pods) <==>
      exists p, c :: p in pods && c in AllContainers(p)
        && c.securityContext.Some? && c.securityContext.value.capabilities.Some?
        && c.securityContext.value.capabilities.value.add.Some?
        && f == AtContainer("Added Capabilities", p, c).(capabilities := c.securityContext.value.capabilities.value.add.value)
  {
    ContainerRuleMember(AddedCapabilitiesCheck, pods, f);
  }

  /** A capability finding exists for each context with a drop list; it copies that list in order. */
  lemma DroppedCapabilitiesMember(pods: seq<Pod>, f: Finding)
    ensures f in ContainerRule(DroppedCapabilitiesCheck, pods) <==>
      exists p, c :: p in pods && c in AllContainers(p)
        && c.securityContext.Some? && c.securityContext.value.capabilities.Some?
        && c.securityContext.value.capabilities.value.drop.Some?
        && f == AtContainer("Dropped Capabilities", p, c).(capabilities := c.securityContext.value.capabilities.value.drop.value)
  {
    ContainerRuleMember(DroppedCapabilitiesCheck, pods, f);
  }

  /**
   * A seccomp finding exists exactly for a container whose own profile is absent or unconfined,
   * in a pod whose pod-level profile is absent or unconfined.
   */
  lemma SeccompMember(pods: seq<Pod>, f: Finding)
    ensures f in ContainerRule(SeccompCheck, pods) <==>
      exists p, c :: p in pods && c in AllContainers(p)
        && (p.spec.securityContext.None? || p.spec.securityContext.value.seccompProfile.None?
            || p.spec.securityContext.value.seccompProfile.value.profileType == "Unconfined")
        && (c.securityContext.None? || c.securityContext.value.seccompProfile.None?
            || c.securityContext.value.seccompProfile.value.profileType == "Unconfined")
        && f == AtContainer("Seccomp Disabled", p, c)
  {
    ContainerRuleMember(SeccompCheck, pods, f);
  }

  /** Gating: pods whose own profile is set to a type other than "Unconfined" yield no seccomp finding. */
  lemma SeccompGated(pods: seq<Pod>)
    requires forall p :: p in pods ==>
      p.spec.securityContext.Some? && p.spec.securityContext.value.seccompProfile.Some?
      && p.spec.securityContext.value.seccompProfile.value.profileType != "Unconfined"
    ensures ContainerRule(SeccompCheck, pods) == []
  {
    if ContainerRule(SeccompCheck, pods) != [] {
      SeccompMember(pods, ContainerRule(SeccompCheck, pods)[0]);
      assert false;
    }
  }

  /** An unmasked-procmount finding exists exactly for contexts whose ProcMount is "Unmasked". */
  lemma ProcmountMember(pods: seq<Pod>, f: Finding)
    ensures f in ContainerRule(ProcmountCheck, pods) <==>
      exists p, c :: p in pods && c in AllContainers(p)
        && c.securityContext.Some? && c.securityContext.value.procMount == Some("Unmasked")
        && f == AtContainer("Unmasked procmount", p, c)
  {
    ContainerRuleMember(ProcmountCheck, pods, f);
  }

  // ---------------------------------------------------------------------------------------
  // AppArmor (pkg/pss.go:333-348)
  // ---------------------------------------------------------------------------------------

  const AppArmorKeyPrefix := "container.apparmor.security.beta.kubernetes.io"

  /** Value "unconfined" and a key whose part before the first "/" is the AppArmor prefix. */
  predicate AppArmorUnconfined(a: (string, string)) {
    a.1 == "unconfined" && Split(a.0, '/')[0] == AppArmorKeyPrefix
  }

  function AnnotationFn(p: Pod): ((string, string)) -> seq<Finding> {
    (a: (string, string)) => if AppArmorUnconfined(a) then [PodFinding("Apparmor Disabled", p)] else []
  }

  function AnnotationFindings(p: Pod): seq<Finding> {
    FlatMap(AnnotationFn(p), p.annotations)
  }

  function ApparmorRule(pods: seq<Pod>): seq<Finding> {
    FlatMap(AnnotationFindings, pods)
  }

  method Apparmor(pods: seq<Pod>) returns (fs: seq<Finding>)
    ensures fs == ApparmorRule(pods)
  {
    fs := [];
    for i := 0 to |pods|
      invariant fs == ApparmorRule(pods[..i])
    {
      var pod := pods[i];
      var anns := pod.annotations;
      ghost var before := fs;
      for k := 0 to |anns|
        invariant fs == before + FlatMap(AnnotationFn(pod), anns[..k])
      {
        var a := anns[k];
        if AppArmorUnconfined(a) {
          fs := fs + [PodFinding("Apparmor Disabled", pod)];
        }
        FlatMapStep(AnnotationFn(pod), anns, k);
      }
      assert anns[..|anns|] == anns;
      FlatMapStep(AnnotationFindings, pods, i);
    }
    assert pods[..|pods|] == pods;
  }

  lemma AppArmorKeyPrefixHasNoSlash()
    ensures '/' !in AppArmorKeyPrefix
  {
    assert AppArmorKeyPrefix == "container.apparmor" + ".security.beta" + ".kubernetes.io";
    assert '/' !in "container.apparmor";
    assert '/' !in ".security.beta";
    assert '/' !in ".kubernetes.io";
  }

  /** The key test: the key is the prefix itself or the prefix followed by "/". */
  lemma AppArmorKeyIff(key: string)
    ensures Split(key, '/')[0] == AppArmorKeyPrefix <==>
      key == AppArmorKeyPrefix || HasPrefix(key, AppArmorKeyPrefix + "/")
  {
    SplitFirst(key, '/');
    var first := Split(key, '/')[0];
    AppArmorKeyPrefixHasNoSlash();
    if HasPrefix(key, AppArmorKeyPrefix + "/") {
      assert key[|AppArmorKeyPrefix|] == '/';
      assert first == key[..|first|];
    }
    if first == AppArmorKeyPrefix && key != AppArmorKeyPrefix {
      assert key[|first|] == '/';
      assert key[..|first| + 1] == AppArmorKeyPrefix + "/";
    }
  }

  /** An AppArmor finding exists for each annotation of the form prefix/<name> with value "unconfined"; it names no container. */
  lemma ApparmorMember(pods: seq<Pod>, f: Finding)
    ensures f in ApparmorRule(pods) <==>
      exists p, a :: p in pods && a in p.annotations && a.1 == "unconfined"
        && (a.0 == AppArmorKeyPrefix || HasPrefix(a.0, AppArmorKeyPrefix + "/"))
        && f == PodFinding("Apparmor Disabled", p)
  {
    FlatMapMember(AnnotationFindings, pods, f);
    forall p | p in pods
      ensures f in AnnotationFindings(p) <==>
        exists a :: a in p.annotations && a.1 == "unconfined"
          && (a.0 == AppArmorKeyPrefix || HasPrefix(a.0, AppArmorKeyPrefix + "/"))
          && f == PodFinding("Apparmor Disabled", p)
    {
      FlatMapMember(AnnotationFn(p), p.annotations, f);
      forall a | a in p.annotations {
        AppArmorKeyIff(a.0);
      }
    }
  }

  // ---------------------------------------------------------------------------------------
  // Unsafe sysctls (pkg/pss.go:379-401)
  // ---------------------------------------------------------------------------------------

  const SafeSysctls: seq<string> := [
    "kernel.shm_rmid_forced",
    "net.ipv4.ip_local_port_range",
    "net.ipv4.ip_unprivileged_port_start",
    "net.ipv4.tcp_syncookies",
    "net.ipv4.ping_group_range"
  ]

  /** An unsafe-sysctl finding carries the namespace and the sysctl name, but not the pod name. */
  function SysctlFinding(p: Pod, s: PodSysctl): Finding {
    Finding("Unsafe Sysctl", p.namespace, "", "", [], 0, "", "", s.name)
  }

  function SysctlFn(p: Pod): PodSysctl -> seq<Finding> {
    (s: PodSysctl) => if s.name !in SafeSysctls then [SysctlFinding(p, s)] else []
  }

  function SysctlFindings(p: Pod): seq<Finding> {
    if p.spec.securityContext.Some? then FlatMap(SysctlFn(p), p.spec.securityContext.value.sysctls) else []
  }

  function SysctlRule(pods: seq<Pod>): seq<Finding> {
    FlatMap(SysctlFindings, pods)
  }

  /** The inner allow-list loop: it sets its flag on a match and does not stop early. */
  method IsSafeSysctl(name: string) returns (safe: bool)
    ensures safe <==> name in SafeSysctls
  {
    safe := false;
    for k := 0 to |SafeSysctls|
      invariant safe <==> name in SafeSysctls[..k]
    {
      if name == SafeSysctls[k] {
        safe := true;
      }
      assert SafeSysctls[..k + 1] == SafeSysctls[..k] + [SafeSysctls[k]];
    }
    assert SafeSysctls[..|SafeSysctls|] == SafeSysctls;
  }

  /** The loop over one pod's sysctls; a pod without a security context contributes nothing. */
  method ScanSysctls(pod: Pod) returns (podFs: seq<Finding>)
    ensures podFs == SysctlFindings(pod)
  {
    podFs := [];
    if pod.spec.securityContext.Some? {
      var sysctls := pod.spec.securityContext.value.sysctls;
      for k := 0 to |sysctls|
        invariant podFs == FlatMap(SysctlFn(pod), sysctls[..k])
      {
        var sys := sysctls[k];
        var safe := IsSafeSysctl(sys.name);
        if !safe {
          podFs := podFs + [SysctlFinding(pod, sys)];
        }
        FlatMapStep(SysctlFn(pod), sysctls, k);
      }
      assert sysctls[..|sysctls|] == sysctls;
    }
  }

  method Sysctl(pods: seq<Pod>) returns (fs: seq<Finding>)
    ensures fs == SysctlRule(pods)
  {
    fs := [];
    for i := 0 to |pods|
      invariant fs == SysctlRule(pods[..i])
    {
      var podFs := ScanSysctls(pods[i]);
      fs := fs + podFs;
      FlatMapStep(SysctlFindings, pods, i);
    }
    assert pods[..|pods|] == pods;
  }

  /** An unsafe-sysctl finding exists exactly for each pod-level sysctl outside the allow list. */
  lemma SysctlMember(pods: seq<Pod>, f: Finding)
    ensures f in SysctlRule(pods) <==>
      exists p, s :: p in pods && p.spec.securityContext.Some? && s in p.spec.securityContext.value.sysctls
        && s.name !in SafeSysctls && f == SysctlFinding(p, s)
  {
    FlatMapMember(SysctlFindings, pods, f);
    forall p | p in pods && p.spec.securityContext.Some?
      ensures f in SysctlFindings(p) <==>
        exists s :: s in p.spec.securityContext.value.sysctls && s.name !in SafeSysctls && f == SysctlFinding(p, s)
    {
      FlatMapMember(SysctlFn(p), p.spec.securityContext.value.sysctls, f);
    }
  }
}
