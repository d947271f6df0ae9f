/**
 * The machine-api operator's configuration helpers (pkg/operator/config.go):
 * which IP stacks the cluster's API server addresses use, which controller
 * images run on which platform, and the checks that refuse empty settings.
 */
module OperatorConfig {
  import opened Wrappers

  // ---------------------------------------------------------------------
  // Network stack
  // ---------------------------------------------------------------------

  /** net.IP: 4 bytes for an IPv4 address, 16 bytes otherwise (IPv4 may also come in 16-byte form). */
  type IP = seq<bv8>

  /** Go's NetworkStackType is an int used as a set of flag bits. */
  type NetworkStackType = bv64

  /**
   * The flags take their bit from their position in the shared const block
   * (config.go:17-25): iota is 3 for the IPv4 flag and 4 for the IPv6 flag.
   */
  const NetworkStackV4: NetworkStackType := 1 << 3
  const NetworkStackV6: NetworkStackType := 1 << 4
  const NetworkStackDual: NetworkStackType := NetworkStackV4 | NetworkStackV6

  /** The flag values the operator reports: 8, 16 and 24. */
  lemma NetworkStackFlagValues()
    ensures NetworkStackV4 == 8 && NetworkStackV6 == 16 && NetworkStackDual == 24
  {
  }

  /** The 12-byte prefix of an IPv4 address written in 16-byte form. */
  predicate IsV4InV6(ip: IP)
  {
    && |ip| == 16
    && (forall i :: 0 <= i < 10 ==> ip[i] == 0)
    && ip[10] == 0xff && ip[11] == 0xff
  }

  /** net.IP.To4: the 4-byte form of an IPv4 address, or nil. */
  function To4(ip: IP): (r: Option<IP>)
    ensures r.Some? <==> |ip| == 4 || IsV4InV6(ip)
    ensures r.Some? ==> |r.value| == 4 && r.value == ip[|ip| - 4..]
  {
    if |ip| == 4 then Some(ip)
    else if IsV4InV6(ip) then Some(ip[12..16])
    else None
  }

  /** net.IPv6loopback, ::1 */
  const IPv6Loopback: IP := [0, 0, 0, 0, 0, 0, 0, 0, 0, 0, 0, 0, 0, 0, 0, 1]

  /** net.IP.IsLoopback: 127.0.0.0/8, or ::1. */
  predicate IsLoopback(ip: IP)
  {
    match To4(ip)
    case Some(ip4) => ip4[0] == 127
    case None => ip == IPv6Loopback
  }

  /** The flag one address contributes: none for a loopback address, IPv4 or IPv6 otherwise. */
  function StackFlag(ip: IP): NetworkStackType
  {
    if IsLoopback(ip) then 0
    else if To4(ip).Some? then NetworkStackV4
    else NetworkStackV6
  }

  /** The accumulator of networkStack after the addresses `ips`, folded front to back. */
  function StackOf(ips: seq<IP>): NetworkStackType
    decreases |ips|
  {
    if ips == [] then 0 else StackOf(ips[..|ips| - 1]) | StackFlag(ips[|ips| - 1])
  }

  /** One more address adds its own flag to the fold. */
  lemma StackOfStep(ips: seq<IP>, i: nat)
    requires i < |ips|
    ensures StackOf(ips[..i + 1]) == StackOf(ips[..i]) | StackFlag(ips[i])
  {
    assert ips[..i + 1][..i] == ips[..i];
  }

  /** networkStack */
  method NetworkStack(ips: seq<IP>) returns (ns: NetworkStackType)
    ensures ns == StackOf(ips)
    ensures ns == 0 || ns == NetworkStackV4 || ns == NetworkStackV6 || ns == NetworkStackDual
  {
    ns := 0;
    for i := 0 to |ips|
      invariant ns == StackOf(ips[..i])
      invariant ns == 0 || ns == NetworkStackV4 || ns == NetworkStackV6 || ns == NetworkStackDual
    {
      StackOfStep(ips, i);
      if IsLoopback(ips[i]) {
        continue;
      }
      if To4(ips[i]).Some? {
        ns := ns | NetworkStackV4;
      } else {
        ns := ns | NetworkStackV6;
      }
    }
    assert ips[..|ips|] == ips;
  }

  /** Some address contributes `flag`. */
  predicate HasFlag(ips: seq<IP>, flag: NetworkStackType)
  {
    exists i :: 0 <= i < |ips| && StackFlag(ips[i]) == flag
  }

  /** Some address that is not a loopback address is an IPv4 address. */
  predicate HasV4(ips: seq<IP>)
  {
    HasFlag(ips, NetworkStackV4)
  }

  /** Some address that is not a loopback address is not an IPv4 address. */
  predicate HasV6(ips: seq<IP>)
  {
    HasFlag(ips, NetworkStackV6)
  }

  /** The flags for the two answers. */
  function Flags(v4: bool, v6: bool): NetworkStackType
  {
    (if v4 then NetworkStackV4 else 0) | (if v6 then NetworkStackV6 else 0)
  }

  /** An address list has a flag exactly when its front part or its last address has it. */
  lemma HasFlagSnoc(ips: seq<IP>, flag: NetworkStackType)
    requires ips != []
    ensures HasFlag(ips, flag) <==> HasFlag(ips[..|ips| - 1], flag) || StackFlag(ips[|ips| - 1]) == flag
  {
    var n := |ips| - 1;
    var prefix := ips[..n];
    if HasFlag(ips, flag) {
      var i :| 0 <= i < |ips| && StackFlag(ips[i]) == flag;
      if i < n { assert prefix[i] == ips[i]; }
    }
    if HasFlag(prefix, flag) {
      var i :| 0 <= i < |prefix| && StackFlag(prefix[i]) == flag;
      assert prefix[i] == ips[i];
    }
  }

  /** Adding one address's flag to the two-answer flags. */
  lemma FlagsOr(v4: bool, v6: bool, flag: NetworkStackType)
    requires flag == 0 || flag == NetworkStackV4 || flag == NetworkStackV6
    ensures Flags(v4, v6) | flag == Flags(v4 || flag == NetworkStackV4, v6 || flag == NetworkStackV6)
  {
  }

  /** The fold sets the IPv4 bit exactly when some non-loopback address is IPv4, and the IPv6 bit exactly when some other one is not. */
  lemma {:induction false} StackOfFlags(ips: seq<IP>)
    ensures StackOf(ips) == Flags(HasV4(ips), HasV6(ips))
    decreases |ips|
  {
    if ips != [] {
      var n := |ips| - 1;
      var prefix := ips[..n];
      StackOfFlags(prefix);
      HasFlagSnoc(ips, NetworkStackV4);
      HasFlagSnoc(ips, NetworkStackV6);
      FlagsOr(HasV4(prefix), HasV6(prefix), StackFlag(ips[n]));
    }
  }

  /** networkStack returns no flag, IPv4, IPv6 or both, and nothing else; 0 for no addresses. */
  lemma StackOfValues(ips: seq<IP>)
    ensures StackOf(ips) in {0, NetworkStackV4, NetworkStackV6, NetworkStackDual}
    ensures StackOf(ips) == 0 <==> forall i :: 0 <= i < |ips| ==> IsLoopback(ips[i])
    ensures StackOf(ips) == NetworkStackDual <==> HasV4(ips) && HasV6(ips)
  {
    StackOfFlags(ips);
    if exists i :: 0 <= i < |ips| && !IsLoopback(ips[i]) {
      var i :| 0 <= i < |ips| && !IsLoopback(ips[i]);
      assert StackFlag(ips[i]) == NetworkStackV4 || StackFlag(ips[i]) == NetworkStackV6;
      assert HasFlag(ips, StackFlag(ips[i]));
    }
  }

  /** The order of the addresses does not matter. */
  lemma StackOfPermutation(ips: seq<IP>, other: seq<IP>)
    requires multiset(ips) == multiset(other)
    ensures StackOf(ips) == StackOf(other)
  {
    StackOfFlags(ips);
    StackOfFlags(other);
    assert HasV4(ips) == HasFlag(ips, NetworkStackV4) && HasV6(ips) == HasFlag(ips, NetworkStackV6);
    FlagCarries(ips, other, NetworkStackV4);
    FlagCarries(other, ips, NetworkStackV4);
    FlagCarries(ips, other, NetworkStackV6);
    FlagCarries(other, ips, NetworkStackV6);
  }

  /** An address with a given flag in `xs` is also in any reordering `ys`. */
  lemma FlagCarries(xs: seq<IP>, ys: seq<IP>, flag: NetworkStackType)
    requires multiset(xs) == multiset(ys)
    ensures HasFlag(xs, flag) ==> HasFlag(ys, flag)
  {
    if HasFlag(xs, flag) {
      var i :| 0 <= i < |xs| && StackFlag(xs[i]) == flag;
      assert xs[i] in multiset(ys);
      var j :| 0 <= j < |ys| && ys[j] == xs[i];
    }
  }

  // ---------------------------------------------------------------------
  // Images and platforms
  // ---------------------------------------------------------------------

  /** configv1.PlatformType */
  type PlatformType = string

  const AWSPlatformType: PlatformType := "AWS"
  const AzurePlatformType: PlatformType := "Azure"
  const BareMetalPlatformType: PlatformType := "BareMetal"
  const GCPPlatformType: PlatformType := "GCP"
  const LibvirtPlatformType: PlatformType := "Libvirt"
  const OpenStackPlatformType: PlatformType := "OpenStack"
  const OvirtPlatformType: PlatformType := "oVirt"
  const VSpherePlatformType: PlatformType := "VSphere"
  const KubemarkPlatform: PlatformType := "kubemark"

  const ClusterAPIControllerKubemark: string := "docker.io/gofed/kubemark-machine-controllers:v1.0"
  const ClusterAPIControllerNoOp: string := "no-op"

  /** The images the build injects. */
  datatype Images = Images(
    machineAPIOperator: string,
    clusterAPIControllerAWS: string,
    clusterAPIControllerOpenStack: string,
    clusterAPIControllerLibvirt: string,
    clusterAPIControllerBareMetal: string,
    clusterAPIControllerAzure: string,
    clusterAPIControllerGCP: string,
    clusterAPIControllerOvirt: string,
    clusterAPIControllerVSphere: string,
    kubeRBACProxy: string,
    baremetalOperator: string,
    baremetalIronic: string,
    baremetalIronicInspector: string,
    baremetalIpaDownloader: string,
    baremetalMachineOsDownloader: string,
    baremetalStaticIpManager: string)

  /** The images of the metal3 pod. */
  datatype BaremetalControllers = BaremetalControllers(
    baremetalOperator: string,
    ironic: string,
    ironicInspector: string,
    ironicIpaDownloader: string,
    ironicMachineOsDownloader: string,
    ironicStaticIpManager: string)

  /** The fields of configv1.Infrastructure's status that the operator reads. */
  datatype Infrastructure = Infrastructure(platform: PlatformType, apiServerInternalURL: string)

  datatype ConfigError =
    | EmptyMachineAPIOperatorImage
    | EmptyKubeRBACProxyImage
    | NoPlatform
    | EmptyAPIServerInternalURL
    | InvalidAPIServerInternalURL

  /** getProviderControllerFromImages: the machine controller image for the platform. */
  function ProviderControllerFromImages(platform: PlatformType, images: Images): Result<string, ConfigError>
  {
    if platform == AWSPlatformType then Ok(images.clusterAPIControllerAWS)
    else if platform == LibvirtPlatformType then Ok(images.clusterAPIControllerLibvirt)
    else if platform == OpenStackPlatformType then Ok(images.clusterAPIControllerOpenStack)
    else if platform == AzurePlatformType then Ok(images.clusterAPIControllerAzure)
    else if platform == GCPPlatformType then Ok(images.clusterAPIControllerGCP)
    else if platform == BareMetalPlatformType then Ok(images.clusterAPIControllerBareMetal)
    else if platform == OvirtPlatformType then Ok(images.clusterAPIControllerOvirt)
    else if platform == VSpherePlatformType then Ok(images.clusterAPIControllerVSphere)
    else if platform == KubemarkPlatform then Ok(ClusterAPIControllerKubemark)
    else Ok(ClusterAPIControllerNoOp)
  }

  /** The controller image of each platform that has one, as a table. */
  function ControllerImages(images: Images): map<PlatformType, string>
  {
    map[
      AWSPlatformType := images.clusterAPIControllerAWS,
      AzurePlatformType := images.clusterAPIControllerAzure,
      BareMetalPlatformType := images.clusterAPIControllerBareMetal,
      GCPPlatformType := images.clusterAPIControllerGCP,
      LibvirtPlatformType := images.clusterAPIControllerLibvirt,
      OpenStackPlatformType := images.clusterAPIControllerOpenStack,
      OvirtPlatformType := images.clusterAPIControllerOvirt,
      VSpherePlatformType := images.clusterAPIControllerVSphere,
      KubemarkPlatform := ClusterAPIControllerKubemark]
  }

  /**
   * getProviderControllerFromImages never fails: it gives the table's image
   * for the nine platforms the table lists and "no-op" for any other.
   */
  lemma ProviderControllerIsTableLookup(platform: PlatformType, images: Images)
    ensures var table := ControllerImages(images);
      ProviderControllerFromImages(platform, images) == Ok(if platform in table then table[platform] else ClusterAPIControllerNoOp)
  {
  }

  /** getTerminationHandlerFromImages: the termination handler image for the platform. */
  function TerminationHandlerFromImages(platform: PlatformType, images: Images): Result<string, ConfigError>
  {
    if platform == AWSPlatformType then Ok(images.clusterAPIControllerAWS)
    else if platform == GCPPlatformType then Ok(images.clusterAPIControllerGCP)
    else if platform == AzurePlatformType then Ok(images.clusterAPIControllerAzure)
    else Ok(ClusterAPIControllerNoOp)
  }

  /**
   * getTerminationHandlerFromImages never fails: on AWS, GCP and Azure the
   * termination handler runs from the platform's controller image, and
   * everywhere else it is "no-op".
   */
  lemma TerminationHandlerFollowsController(platform: PlatformType, images: Images)
    ensures TerminationHandlerFromImages(platform, images).Ok?
    ensures platform in {AWSPlatformType, GCPPlatformType, AzurePlatformType} ==>
      TerminationHandlerFromImages(platform, images) == ProviderControllerFromImages(platform, images)
    ensures platform !in {AWSPlatformType, GCPPlatformType, AzurePlatformType} ==>
      TerminationHandlerFromImages(platform, images) == Ok(ClusterAPIControllerNoOp)
  {
  }

  /** newBaremetalControllers: the metal3 images, only when the platform is bare metal. */
  function NewBaremetalControllers(images: Images, usingBareMetal: bool): BaremetalControllers
  {
    if !usingBareMetal then BaremetalControllers("", "", "", "", "", "")
    else BaremetalControllers(
      images.baremetalOperator,
      images.baremetalIronic,
      images.baremetalIronicInspector,
      images.baremetalIpaDownloader,
      images.baremetalMachineOsDownloader,
      images.baremetalStaticIpManager)
  }

  /**
   * newBaremetalControllers copies each metal3 image into its own field on
   * bare metal, and leaves every field empty otherwise.
   */
  lemma BaremetalControllersCopy(images: Images, usingBareMetal: bool)
    ensures var r := NewBaremetalControllers(images, usingBareMetal);
      && (usingBareMetal ==>
            && r.baremetalOperator == images.baremetalOperator
            && r.ironic == images.baremetalIronic
            && r.ironicInspector == images.baremetalIronicInspector
            && r.ironicIpaDownloader == images.baremetalIpaDownloader
            && r.ironicMachineOsDownloader == images.baremetalMachineOsDownloader
            && r.ironicStaticIpManager == images.baremetalStaticIpManager)
      && (!usingBareMetal ==>
            && r.baremetalOperator == "" && r.ironic == "" && r.ironicInspector == ""
            && r.ironicIpaDownloader == "" && r.ironicMachineOsDownloader == "" && r.ironicStaticIpManager == "")
  {
  }

  /** The six metal3 images of `images`. */
  function BaremetalImages(images: Images): seq<string>
  {
    [images.baremetalOperator, images.baremetalIronic, images.baremetalIronicInspector,
     images.baremetalIpaDownloader, images.baremetalMachineOsDownloader, images.baremetalStaticIpManager]
  }

  /**
   * newBaremetalControllers gives the all-empty value exactly when bare metal
   * is not in use or every metal3 image is empty; on bare metal, images with
   * different metal3 images give different controllers.
   */
  lemma BaremetalControllersEmpty(images: Images, other: Images, usingBareMetal: bool)
    ensures NewBaremetalControllers(images, usingBareMetal) == BaremetalControllers("", "", "", "", "", "") <==>
      !usingBareMetal || forall i :: 0 <= i < 6 ==> BaremetalImages(images)[i] == ""
    ensures usingBareMetal && NewBaremetalControllers(images, true) == NewBaremetalControllers(other, true) ==>
      BaremetalImages(images) == BaremetalImages(other)
  {
    if usingBareMetal && forall i :: 0 <= i < 6 ==> BaremetalImages(images)[i] == "" {
      assert BaremetalImages(images)[0] == "" && BaremetalImages(images)[1] == "" && BaremetalImages(images)[2] == "";
      assert BaremetalImages(images)[3] == "" && BaremetalImages(images)[4] == "" && BaremetalImages(images)[5] == "";
    }
  }

  /** getMachineAPIOperatorFromImages: the operator's own image, which must be set. */
  function MachineAPIOperatorFromImages(images: Images): (r: Result<string, ConfigError>)
    ensures r.Err? <==> images.machineAPIOperator == ""
    ensures r.Err? ==> r.error == EmptyMachineAPIOperatorImage
    ensures r.Ok? ==> r.value == images.machineAPIOperator && r.value != ""
  {
    if images.machineAPIOperator == "" then Err(EmptyMachineAPIOperatorImage)
    else Ok(images.machineAPIOperator)
  }

  /** getKubeRBACProxyFromImages: the kube-rbac-proxy image, which must be set. */
  function KubeRBACProxyFromImages(images: Images): (r: Result<string, ConfigError>)
    ensures r.Err? <==> images.kubeRBACProxy == ""
    ensures r.Err? ==> r.error == EmptyKubeRBACProxyImage
    ensures r.Ok? ==> r.value == images.kubeRBACProxy && r.value != ""
  {
    if images.kubeRBACProxy == "" then Err(EmptyKubeRBACProxyImage)
    else Ok(images.kubeRBACProxy)
  }

  /** getProviderFromInfrastructure: the platform recorded in the infrastructure status, which must be set. */
  function ProviderFromInfrastructure(infra: Infrastructure): (r: Result<PlatformType, ConfigError>)
    ensures r.Err? <==> infra.platform == ""
    ensures r.Err? ==> r.error == NoPlatform
    ensures r.Ok? ==> r.value == infra.platform && r.value != ""
  {
    if infra.platform == "" then Err(NoPlatform)
    else Ok(infra.platform)
  }

  /**
   * apiServerInternalHost: refuses an empty internal URL before any parsing;
   * otherwise the host is what `hostOf` (URL parsing and host:port
   * splitting) makes of the URL.
   */
  function ApiServerInternalHost(infra: Infrastructure, hostOf: string -> Result<string, ConfigError>): (r: Result<string, ConfigError>)
    ensures infra.apiServerInternalURL == "" ==> r == Err(EmptyAPIServerInternalURL)
    ensures infra.apiServerInternalURL != "" ==> r == hostOf(infra.apiServerInternalURL)
  {
    if infra.apiServerInternalURL == "" then Err(EmptyAPIServerInternalURL)
    else hostOf(infra.apiServerInternalURL)
  }

  /** The empty URL is refused whatever the parser would have made of it. */
  lemma EmptyURLNeverParsed(infra: Infrastructure, hostOf: string -> Result<string, ConfigError>, other: string -> Result<string, ConfigError>)
    requires infra.apiServerInternalURL == ""
    ensures ApiServerInternalHost(infra, hostOf) == ApiServerInternalHost(infra, other) == Err(EmptyAPIServerInternalURL)
  {
  }
}
