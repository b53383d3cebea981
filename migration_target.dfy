/**
 * The input side: the selected graph of migration targets (ExportArtifacts)
 * that the selection layer hands to the generator, and the settings and
 * subscriptions it reads.
 *
 * Where the C# code switches on GetType() the model has a tagged variant:
 * a storage target is a storage account of this migration or an existing one,
 * a virtual network target likewise, a source virtual network comes from the
 * classic (ASM) or the resource-manager (ARM) model, and so does a source disk.
 * `ToString()` of a migration target is its `name`.
 */
module MigrationTarget {
  import opened Wrappers

  datatype ResourceGroup = ResourceGroup(name: string, targetLocation: Option<string>)

  datatype NetworkSecurityGroupRule = NetworkSecurityGroupRule(
    name: string, direction: string, priority: int, access: string,
    sourceAddressPrefix: string, destinationAddressPrefix: string,
    sourcePortRange: string, destinationPortRange: string, protocol: string,
    isSystemRule: bool)

  datatype NetworkSecurityGroup = NetworkSecurityGroup(name: string, rules: seq<NetworkSecurityGroupRule>)

  /** A route of a migration route table or of an ARM route table (the same fields). */
  datatype Route = Route(name: string, addressPrefix: string, nextHopType: string, nextHopIpAddress: string)

  datatype RouteTable = RouteTable(name: string, routes: seq<Route>)

  datatype Subnet = Subnet(
    targetName: string, addressPrefix: string, targetId: string,
    networkSecurityGroup: Option<NetworkSecurityGroup>, routeTable: Option<RouteTable>)

  /** A subnet as referenced from a NIC or a front-end: only its id is used. */
  datatype SubnetTarget = SubnetTarget(name: string, targetId: string)

  datatype ClientRootCertificate = ClientRootCertificate(targetSubject: string, publicCertData: string)

  datatype LocalNetworkSite = LocalNetworkSite(
    name: string, targetName: string, connectionType: string,
    addressPrefixes: seq<string>, vpnGatewayAddress: string, sharedKey: string)

  datatype AsmGateway = AsmGateway(isProvisioned: bool, gatewayType: string)

  datatype AsmVirtualNetwork = AsmVirtualNetwork(
    name: string, gateway: Option<AsmGateway>,
    vpnClientAddressPrefixes: seq<string>, clientRootCertificates: seq<ClientRootCertificate>,
    localNetworkSites: seq<LocalNetworkSite>, hasGatewaySubnet: bool)

  /** `SourceVirtualNetwork.GetType()`: classic (with its gateway data) or resource-manager. */
  datatype SourceVirtualNetwork = AsmSource(asm: AsmVirtualNetwork) | ArmSource

  datatype VirtualNetwork = VirtualNetwork(
    name: string, targetId: string, addressPrefixes: seq<string>, dnsServers: seq<string>,
    subnets: seq<Subnet>, source: SourceVirtualNetwork)

  /** `TargetVirtualNetwork.GetType()`: part of this migration, or an existing ARM network. */
  datatype VirtualNetworkTarget =
    | InMigrationVirtualNetwork(name: string, targetId: string)
    | ExistingVirtualNetwork(name: string)

  datatype PublicIp = PublicIp(name: string, domainNameLabel: string)

  datatype FrontEndIpConfiguration = FrontEndIpConfiguration(
    name: string, publicIp: Option<PublicIp>,
    privateIPAllocationMethod: string, privateIPAddress: string,
    targetVirtualNetwork: Option<VirtualNetworkTarget>, targetSubnet: Option<SubnetTarget>)

  datatype InboundNatRule = InboundNatRule(
    name: string, frontEndPort: int, backEndPort: int, protocol: string, hasFrontEndIpConfiguration: bool)

  datatype Probe = Probe(
    name: string, port: int, protocol: string, intervalInSeconds: int,
    numberOfProbes: int, requestPath: string)

  /** A load-balancing rule names its front end, back-end pool and probe. */
  datatype LoadBalancingRule = LoadBalancingRule(
    name: string, frontEndIpConfigurationName: string, backEndAddressPoolName: string,
    probeName: string, frontEndPort: int, backEndPort: int, protocol: string)

  datatype LoadBalancer = LoadBalancer(
    name: string, frontEndIpConfigurations: seq<FrontEndIpConfiguration>,
    backEndAddressPools: seq<string>, inboundNatRules: seq<InboundNatRule>,
    probes: seq<Probe>, loadBalancingRules: seq<LoadBalancingRule>)

  datatype StorageAccountType = Standard | Premium

  datatype StorageAccount = StorageAccount(name: string, accountType: string, storageAccountType: StorageAccountType)

  /** `TargetStorageAccount.GetType()`: a storage account of this migration, or an existing one. */
  datatype StorageTarget =
    | InMigrationStorage(account: StorageAccount)
    | ExistingStorage(existingName: string, existingType: StorageAccountType)
  {
    function Name(): string {
      match this
      case InMigrationStorage(account) => account.name
      case ExistingStorage(n, _) => n
    }
    function Type(): StorageAccountType {
      match this
      case InMigrationStorage(account) => account.storageAccountType
      case ExistingStorage(_, t) => t
    }
  }

  /**
   * `Disk.SourceDisk.GetType()`: a classic or a resource-manager disk. Both give
   * the blob coordinates; `key` is the primary key (classic) or the first key
   * (resource manager) when the source storage account and its keys are known.
   */
  datatype SourceDisk =
    | AsmDisk(asmAccount: string, asmContainer: string, asmBlob: string, asmKey: Option<string>)
    | ArmDisk(armAccount: string, armContainer: string, armBlob: string, armKey: Option<string>)

  datatype Disk = Disk(
    name: string, hostCaching: string, diskSizeInGB: Option<int>, lun: Option<int>,
    targetStorageAccount: Option<StorageTarget>, targetMediaLink: string,
    targetStorageAccountContainer: string, targetStorageAccountBlob: string,
    sourceDisk: Option<SourceDisk>)

  datatype NetworkInterfaceIpConfiguration = NetworkInterfaceIpConfiguration(
    name: string, targetSubnet: Option<SubnetTarget>,
    targetPrivateIPAllocationMethod: string, targetPrivateIpAddress: string,
    targetVirtualNetwork: Option<VirtualNetworkTarget>)

  datatype BackEndAddressPoolRef = BackEndAddressPoolRef(loadBalancerName: string, name: string)

  datatype InboundNatRuleRef = InboundNatRuleRef(loadBalancerName: string, name: string)

  datatype NetworkInterface = NetworkInterface(
    name: string, ipConfigurations: seq<NetworkInterfaceIpConfiguration>,
    backEndAddressPool: Option<BackEndAddressPoolRef>, inboundNatRules: seq<InboundNatRuleRef>,
    hasPublicIPs: bool, networkSecurityGroupName: Option<string>,
    isPrimary: bool, enableIPForwarding: bool)

  datatype VirtualMachine = VirtualMachine(
    name: string, targetSize: string, targetAvailabilitySet: Option<string>,
    osVirtualHardDisk: Disk, osVirtualHardDiskOS: string,
    dataDisks: seq<Disk>, networkInterfaces: seq<NetworkInterface>)

  /** The selection handed to UpdateArtifacts. */
  datatype ExportArtifacts = ExportArtifacts(
    resourceGroup: Option<ResourceGroup>,
    networkSecurityGroups: seq<NetworkSecurityGroup>,
    virtualNetworks: seq<VirtualNetwork>,
    loadBalancers: seq<LoadBalancer>,
    storageAccounts: seq<StorageAccount>,
    virtualMachines: seq<VirtualMachine>)
  {
    /** ExportArtifacts.SeekNetworkSecurityGroup: the first selected NSG with that name. */
    function SeekNetworkSecurityGroup(name: string): (r: Option<NetworkSecurityGroup>)
      ensures r.Some? <==> exists i :: 0 <= i < |networkSecurityGroups| && networkSecurityGroups[i].name == name
      ensures r.Some? ==> r.value in networkSecurityGroups && r.value.name == name
    {
      SeekIn(networkSecurityGroups, name)
    }
  }

  function SeekIn(nsgs: seq<NetworkSecurityGroup>, name: string): (r: Option<NetworkSecurityGroup>)
    ensures r.Some? <==> exists i :: 0 <= i < |nsgs| && nsgs[i].name == name
    ensures r.Some? ==> r.value in nsgs && r.value.name == name
  {
    if nsgs == [] then None
    else if nsgs[0].name == name then Some(nsgs[0])
    else SeekIn(nsgs[1..], name)
  }

  /** The generator's settings provider. */
  datatype Settings = Settings(
    buildEmpty: bool, virtualNetworkGatewaySuffix: string, publicIPSuffix: string)

  datatype AzureEnvironment = AzureCloud | AzureChinaCloud | AzureGermanCloud | AzureUSGovernment
  {
    function ToString(): string {
      match this
      case AzureCloud => "AzureCloud"
      case AzureChinaCloud => "AzureChinaCloud"
      case AzureGermanCloud => "AzureGermanCloud"
      case AzureUSGovernment => "AzureUSGovernment"
    }
  }

  /** Guid.Empty as text. */
  const EmptyGuid: string := "00000000-0000-0000-0000-000000000000"

  datatype Subscription = Subscription(
    subscriptionId: string, azureEnvironment: AzureEnvironment, azureAdTenantId: string)
}
