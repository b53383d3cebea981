/**
 * The output side of the generator: Azure Resource Manager resource
 * descriptors, template parameters, alerts and copy-blob manifest entries,
 * together with the ArmConst strings and the reference strings the builders
 * synthesise from them.
 *
 * Only the shape of each descriptor is modelled; its JSON serialisation is not.
 * A C# property left null (and so dropped by the serialiser) is `None`.
 */
module ArmTemplate {
  import opened Wrappers

  // ---------------------------------------------------------------------
  // ArmConst (the values the generator concatenates into references)
  // ---------------------------------------------------------------------

  const ResourceGroupId: string := "resourceGroup().id"
  const ResourceGroupLocation: string := "[resourceGroup().location]"
  const GatewaySubnetName: string := "GatewaySubnet"

  const ProviderVirtualNetwork: string := "/providers/Microsoft.Network/virtualNetworks/"
  const ProviderPublicIpAddress: string := "/providers/Microsoft.Network/publicIPAddresses/"
  const ProviderLoadBalancers: string := "/providers/Microsoft.Network/loadBalancers/"
  const ProviderNetworkSecurityGroups: string := "/providers/Microsoft.Network/networkSecurityGroups/"
  const ProviderRouteTables: string := "/providers/Microsoft.Network/routeTables/"
  const ProviderLocalNetworkGateways: string := "/providers/Microsoft.Network/localNetworkGateways/"
  const ProviderVirtualNetworkGateways: string := "/providers/Microsoft.Network/virtualNetworkGateways/"
  const ProviderExpressRouteCircuits: string := "/providers/Microsoft.Network/expressRouteCircuits/"
  const ProviderNetworkInterfaces: string := "/providers/Microsoft.Network/networkInterfaces/"
  const ProviderAvailabilitySets: string := "/providers/Microsoft.Compute/availabilitySets/"
  const ProviderStorageAccounts: string := "/providers/Microsoft.Storage/storageAccounts/"

  /** The text before the provider in every `[concat(...)]` reference. */
  const IdOpen: string := "[concat(" + ResourceGroupId + ", '"
  /** The probe reference omits the blank after the comma. */
  const ProbeIdOpen: string := "[concat(" + ResourceGroupId + ",'"
  const IdClose: string := "')]"

  // ---------------------------------------------------------------------
  // Reference strings
  // ---------------------------------------------------------------------

  /**
   * The deployment-time identifier of a resource of one provider type:
   * "[concat(" + ArmConst.ResourceGroupId + ", '" + provider + name + "')]".
   * The same string serves as a dependsOn entry and as a property reference.
   */
  function ResourceId(provider: string, name: string): (id: string)
    ensures |id| == |IdOpen| + |provider| + |name| + |IdClose|
    ensures id[..|IdOpen|] == IdOpen
    ensures id[|IdOpen| .. |IdOpen| + |provider|] == provider
    ensures id[|IdOpen| + |provider| .. |IdOpen| + |provider| + |name|] == name
  {
    IdOpen + provider + name + IdClose
  }

  /** A load balancer's nested sub-resource, `.../<lb>/<collection>/<name>`. */
  function LoadBalancerChildId(loadBalancerName: string, collection: string, name: string): string
  {
    ResourceId(ProviderLoadBalancers, loadBalancerName + "/" + collection + "/" + name)
  }

  /** The probe reference of a load-balancing rule (written without the blank). */
  function ProbeId(loadBalancerName: string, probeName: string): string
  {
    ProbeIdOpen + ProviderLoadBalancers + loadBalancerName + "/probes/" + probeName + IdClose
  }

  /** For a fixed provider, the identifier determines the name. */
  lemma {:induction false} ResourceIdInjective(provider: string, name1: string, name2: string)
    requires ResourceId(provider, name1) == ResourceId(provider, name2)
    ensures name1 == name2
  {
    var id := ResourceId(provider, name1);
    var start := |IdOpen| + |provider|;
    assert |name1| == |name2|;
    assert name1 == id[start .. start + |name1|];
    assert name2 == ResourceId(provider, name2)[start .. start + |name2|];
  }

  /**
   * Identifiers of two providers that differ at some position (neither is a
   * prefix of the other) never coincide, whatever the names.
   */
  lemma {:induction false} ResourceIdsOfDifferentProvidersDiffer(provider1: string, provider2: string, name1: string, name2: string, k: nat)
    requires k < |provider1| && k < |provider2| && provider1[k] != provider2[k]
    ensures ResourceId(provider1, name1) != ResourceId(provider2, name2)
  {
    var id1 := ResourceId(provider1, name1);
    var id2 := ResourceId(provider2, name2);
    assert id1[|IdOpen| + k] == provider1[k] by {
      assert id1[|IdOpen| .. |IdOpen| + |provider1|] == provider1;
    }
    assert id2[|IdOpen| + k] == provider2[k] by {
      assert id2[|IdOpen| .. |IdOpen| + |provider2|] == provider2;
    }
  }

  // ---------------------------------------------------------------------
  // Descriptors
  // ---------------------------------------------------------------------

  /** A `Reference`; `EmptyRef` is a Reference object whose id was never set. */
  datatype Reference = Ref(id: string) | EmptyRef

  datatype Parameter = Parameter(parameterType: string)

  datatype SecurityRule = SecurityRule(
    name: string, description: string, direction: string, priority: int, access: string,
    sourceAddressPrefix: string, destinationAddressPrefix: string,
    sourcePortRange: string, destinationPortRange: string, protocol: string)

  datatype Route = Route(
    name: string, addressPrefix: string,
    nextHopType: Option<string>, nextHopIpAddress: Option<string>)

  datatype Subnet = Subnet(
    name: string, addressPrefix: string,
    networkSecurityGroup: Option<Reference>, routeTable: Option<Reference>)

  datatype GatewayIpConfiguration = GatewayIpConfiguration(
    name: string, privateIPAllocationMethod: string, subnet: Reference, publicIPAddress: Reference)

  datatype VpnClientCertificate = VpnClientCertificate(name: string, publicCertData: string)

  datatype VpnClientConfiguration = VpnClientConfiguration(
    vpnClientAddressPool: seq<string>, vpnClientRootCertificates: seq<VpnClientCertificate>)

  datatype Sku = Sku(name: string, tier: string)

  datatype FrontendIPConfiguration = FrontendIPConfiguration(
    name: string,
    privateIPAllocationMethod: Option<string>, privateIPAddress: Option<string>,
    subnet: Option<Reference>, publicIPAddress: Option<Reference>)

  datatype InboundNatRule = InboundNatRule(
    name: string, frontendPort: int, backendPort: int, protocol: string,
    frontendIPConfiguration: Option<Reference>)

  datatype Probe = Probe(
    name: string, port: int, protocol: string, intervalInSeconds: int,
    numberOfProbes: int, requestPath: string)

  datatype LoadBalancingRule = LoadBalancingRule(
    name: string, frontendIPConfiguration: Reference, backendAddressPool: Reference,
    probe: Reference, frontendPort: int, backendPort: int, protocol: string)

  datatype NicIpConfiguration = NicIpConfiguration(
    name: string, subnet: Reference,
    privateIPAllocationMethod: string, privateIPAddress: string,
    loadBalancerBackendAddressPools: seq<Reference>,
    loadBalancerInboundNatRules: seq<Reference>,
    publicIPAddress: Option<Reference>)

  datatype ImageReference = ImageReference(publisher: string, offer: string, sku: string, version: string)

  datatype OsProfile = OsProfile(computerName: string, adminUsername: string, adminPassword: string)

  datatype OsDisk = OsDisk(
    name: string, vhdUri: string, caching: string, createOption: string, osType: Option<string>)

  datatype DataDisk = DataDisk(
    name: string, caching: string, diskSizeGB: Option<int>, lun: Option<int>,
    createOption: string, vhdUri: string)

  /** An entry of a virtual machine's networkProfile.networkInterfaces. */
  datatype NetworkProfileInterface = NetworkProfileInterface(id: string, primary: bool)

  datatype Properties =
    | NetworkSecurityGroupProperties(securityRules: seq<SecurityRule>)
    | RouteTableProperties(routes: seq<Route>)
    | VirtualNetworkProperties(addressPrefixes: seq<string>, subnets: seq<Subnet>, dnsServers: seq<string>)
    | PublicIPAddressProperties(publicIPAllocationMethod: Option<string>, domainNameLabel: Option<string>)
    | VirtualNetworkGatewayProperties(
        gatewayIpConfigurations: seq<GatewayIpConfiguration>, sku: Sku, gatewayType: string,
        vpnType: Option<string>, enableBgp: Option<bool>,
        vpnClientConfiguration: Option<VpnClientConfiguration>)
    | LocalNetworkGatewayProperties(localNetworkAddressSpace: seq<string>, gatewayIpAddress: string)
    | GatewayConnectionProperties(
        connectionType: Option<string>, virtualNetworkGateway1: Reference,
        localNetworkGateway2: Option<Reference>, peer: Option<Reference>, sharedKey: Option<string>)
    | LoadBalancerProperties(
        frontendIPConfigurations: seq<FrontendIPConfiguration>, backendAddressPools: seq<string>,
        inboundNatRules: seq<InboundNatRule>, probes: seq<Probe>,
        loadBalancingRules: seq<LoadBalancingRule>)
    | StorageAccountProperties(accountType: string)
    | AvailabilitySetProperties
    | NetworkInterfaceProperties(
        ipConfigurations: seq<NicIpConfiguration>, enableIPForwarding: bool,
        networkSecurityGroup: Option<Reference>)
    | VirtualMachineProperties(
        vmSize: string, osProfile: Option<OsProfile>,
        networkInterfaces: seq<NetworkProfileInterface>,
        imageReference: Option<ImageReference>, osDisk: OsDisk, dataDisks: seq<DataDisk>,
        availabilitySet: Option<Reference>)

  /** A top-level resource of the template; `dependsOn` is empty where the source leaves it unset. */
  datatype ArmResource = ArmResource(
    name: string, location: string, dependsOn: seq<string>, properties: Properties)

  datatype AlertType = Error | Warning

  /** The object an alert refers to; `NoSubject` is a null subject. */
  datatype AlertSubject =
    | NoSubject
    | ResourceGroupSubject(resourceGroupName: string)
    | NetworkSecurityGroupSubject(nsgName: string)
    | LoadBalancerSubject(loadBalancerName: string)
    | VirtualMachineSubject(virtualMachineName: string)
    | NetworkInterfaceSubject(networkInterfaceName: string)
    | DiskSubject(diskName: string)
    | AsmVirtualNetworkSubject(virtualNetworkName: string)

  /**
   * The text of an alert, kept as the case it reports with its arguments;
   * `Text()` renders the wording the generator uses.
   */
  datatype Message =
    | NoResourceGroup
    | NoResourceGroupLocation
    | NoNetworkSecurityGroupName
    | NoLoadBalancerName
    | NoFrontEnd
    | NoFrontEndBinding
    | NoVirtualMachineName(vm: string)
    | OsDiskSla(vm: string)
    | DataDiskSla(vm: string, disk: string)
    | NoVirtualNetwork(vm: string, nic: string)
    | VirtualNetworkNotIncluded(vnet: string, vm: string, nic: string)
    | NoSubnet(vm: string, nic: string)
    | NoOsDiskStorage(vm: string)
    | OsDiskStorageNotIncluded(account: string, vm: string)
    | NoDataDiskStorage(vm: string, disk: string)
    | DataDiskStorageNotIncluded(account: string, vm: string, disk: string)
    | NoGatewaySubnet(vnet: string, gateway: string)
    | NoSharedKey(gateway: string)
    | ExpressRouteCircuit(gateway: string)
    | NetworkSecurityGroupNotIncluded(nic: string, nsg: string)
  {
    function Text(): string {
      match this
      case NoResourceGroup => "Target Resource Group must be provided for template generation."
      case NoResourceGroupLocation => "Target Resource Group Location must be provided for template generation."
      case NoNetworkSecurityGroupName => "Target Name for Network Security Group must be specified."
      case NoLoadBalancerName => "Target Name for Load Balancer must be specified."
      case NoFrontEnd => "Load Balancer must have a FrontEndIpConfiguration."
      case NoFrontEndBinding => "Load Balancer must have either an internal Subnet association or Public IP association."
      case NoVirtualMachineName(vm) => "Target Name for Virtual Machine '" + vm + "' must be specified."
      case OsDiskSla(vm) =>
        "Virtual Machine '" + vm + "' is not part of an Availability Set.  OS Disk must be migrated to Azure Premium Storage to receive an Azure SLA for single server deployments."
      case DataDiskSla(vm, disk) =>
        "Virtual Machine '" + vm + "' is not part of an Availability Set.  Data Disk '" + disk + "' must be migrated to Azure Premium Storage to receive an Azure SLA for single server deployments."
      case NoVirtualNetwork(vm, nic) =>
        "Target Virtual Network for Virtual Machine '" + vm + "' Network Interface '" + nic + "' must be specified."
      case VirtualNetworkNotIncluded(vnet, vm, nic) =>
        "Target Virtual Network '" + vnet + "' for Virtual Machine '" + vm + "' Network Interface '" + nic + "' is invalid, as it is not included in the migration / template."
      case NoSubnet(vm, nic) =>
        "Target Subnet for Virtual Machine '" + vm + "' Network Interface '" + nic + "' must be specified."
      case NoOsDiskStorage(vm) =>
        "Target Storage Account for Virtual Machine '" + vm + "' OS Disk must be specified."
      case OsDiskStorageNotIncluded(account, vm) =>
        "Target Storage Account '" + account + "' for Virtual Machine '" + vm + "' OS Disk is invalid, as it is not included in the migration / template."
      case NoDataDiskStorage(vm, disk) =>
        "Target Storage Account for Virtual Machine '" + vm + "' Data Disk '" + disk + "' must be specified."
      case DataDiskStorageNotIncluded(account, vm, disk) =>
        "Target Storage Account '" + account + "' for Virtual Machine '" + vm + "' Data Disk '" + disk + "' is invalid, as it is not included in the migration / template."
      case NoGatewaySubnet(vnet, gateway) =>
        "The Virtual Network '" + vnet + "' does not contain the necessary '" + GatewaySubnetName + "' subnet for deployment of the '" + gateway + "' Gateway."
      case NoSharedKey(gateway) =>
        "Unable to retrieve shared key for VPN connection '" + gateway + "'. Please edit the template to provide this value."
      case ExpressRouteCircuit(gateway) =>
        "Gateway '" + gateway + "' connects to ExpressRoute. MigAz is unable to migrate ExpressRoute circuits. Please create or convert the circuit yourself and update the circuit resource ID in the generated template."
      case NetworkSecurityGroupNotIncluded(nic, nsg) =>
        "Network Interface Card (NIC) '" + nic + "' utilized ASM Network Security Group (NSG) '" + nsg + "', which has not been added to the NIC as the NSG was not included in the ARM Template (was not selected as an included resources for export)."
    }
  }

  datatype Alert = Alert(alertType: AlertType, message: Message, subject: AlertSubject)

  /** One entry of copyblobdetails.json. */
  datatype CopyBlobDetail = CopyBlobDetail(
    sourceEnvironment: Option<string>,
    sourceSA: string, sourceContainer: string, sourceBlob: string, sourceKey: Option<string>,
    destinationSA: string, destinationContainer: string, destinationBlob: string)
}
