/**
 * What UpdateArtifacts reports: the alert list as a function of the
 * selection. The class method in module Generator is proved to leave exactly
 * `ValidationAlerts(artifacts)` in its Alerts list; the lemmas here say what
 * that list contains.
 *
 * Every list function recurses on the last element, the shape of a loop that
 * appends as it goes.
 */
module Validation {
  import opened Wrappers
  import opened MigrationTarget
  import A = ArmTemplate

  // ---------------------------------------------------------------------
  // Membership checks (the flag loops of UpdateArtifacts)
  // ---------------------------------------------------------------------

  /** A virtual network of that target name is among the selected ones. */
  function VirtualNetworkListed(name: string, vnets: seq<VirtualNetwork>): (r: bool)
    ensures r <==> exists i :: 0 <= i < |vnets| && vnets[i].name == name
  {
    if vnets == [] then false
    else VirtualNetworkListed(name, vnets[..|vnets| - 1]) || vnets[|vnets| - 1].name == name
  }

  /**
   * The loop of UpdateArtifacts as written: it compares the target network's
   * name with itself, so it succeeds on the first selected network whatever
   * that network is.
   */
  function VirtualNetworkListedAsWritten(name: string, vnets: seq<VirtualNetwork>): (r: bool)
    ensures r <==> |vnets| > 0
  {
    if vnets == [] then false
    else VirtualNetworkListedAsWritten(name, vnets[..|vnets| - 1]) || name == name
  }

  /** The as-written check accepts a network that is not selected. */
  lemma SelfComparisonAcceptsUnselectedNetwork()
    ensures var vnets := [VirtualNetwork("vnet-a", "id-a", [], [], [], ArmSource)];
            VirtualNetworkListedAsWritten("vnet-b", vnets) && !VirtualNetworkListed("vnet-b", vnets)
  {
    var vnets := [VirtualNetwork("vnet-a", "id-a", [], [], [], ArmSource)];
    assert vnets[0].name != "vnet-b";
  }

  /** The two checks disagree exactly on a non-empty selection that lacks the name. */
  lemma SelfComparisonDiffersExactlyWhenUnselected(name: string, vnets: seq<VirtualNetwork>)
    ensures (VirtualNetworkListedAsWritten(name, vnets) != VirtualNetworkListed(name, vnets))
              <==> (|vnets| > 0 && !VirtualNetworkListed(name, vnets))
  {
  }

  /** A storage account of that name is among the selected ones. */
  function StorageAccountListed(name: string, accounts: seq<StorageAccount>): (r: bool)
    ensures r <==> exists i :: 0 <= i < |accounts| && accounts[i].name == name
  {
    if accounts == [] then false
    else StorageAccountListed(name, accounts[..|accounts| - 1]) || accounts[|accounts| - 1].name == name
  }

  // ---------------------------------------------------------------------
  // The alert list
  // ---------------------------------------------------------------------

  function ResourceGroupAlerts(rg: Option<ResourceGroup>): seq<A.Alert>
  {
    if rg.None? then [A.Alert(A.Error, A.NoResourceGroup, A.NoSubject)]
    else if rg.value.targetLocation.None? then [A.Alert(A.Error, A.NoResourceGroupLocation, A.ResourceGroupSubject(rg.value.name))]
    else []
  }

  function NsgAlerts(nsg: NetworkSecurityGroup): seq<A.Alert>
  {
    if nsg.name == "" then [A.Alert(A.Error, A.NoNetworkSecurityGroupName, A.NetworkSecurityGroupSubject(nsg.name))] else []
  }

  function NsgsAlerts(nsgs: seq<NetworkSecurityGroup>): seq<A.Alert>
  {
    if nsgs == [] then [] else NsgsAlerts(nsgs[..|nsgs| - 1]) + NsgAlerts(nsgs[|nsgs| - 1])
  }

  function FrontEndAlerts(lb: LoadBalancer): seq<A.Alert>
  {
    if |lb.frontEndIpConfigurations| == 0 then
      [A.Alert(A.Error, A.NoFrontEnd, A.LoadBalancerSubject(lb.name))]
    else if lb.frontEndIpConfigurations[0].publicIp.None? && lb.frontEndIpConfigurations[0].targetSubnet.None? then
      [A.Alert(A.Error, A.NoFrontEndBinding, A.LoadBalancerSubject(lb.name))]
    else []
  }

  function LoadBalancerAlerts(lb: LoadBalancer): seq<A.Alert>
  {
    (if lb.name == "" then [A.Alert(A.Error, A.NoLoadBalancerName, A.LoadBalancerSubject(lb.name))] else [])
    + FrontEndAlerts(lb)
  }

  function LoadBalancersAlerts(lbs: seq<LoadBalancer>): seq<A.Alert>
  {
    if lbs == [] then [] else LoadBalancersAlerts(lbs[..|lbs| - 1]) + LoadBalancerAlerts(lbs[|lbs| - 1])
  }

  /** A disk whose target storage is known and not premium. */
  predicate NotOnPremium(disk: Disk) {
    disk.targetStorageAccount.Some? && disk.targetStorageAccount.value.Type() != Premium
  }

  function DataDiskSlaWarnings(vm: string, disks: seq<Disk>): seq<A.Alert>
  {
    if disks == [] then []
    else
      DataDiskSlaWarnings(vm, disks[..|disks| - 1])
      + (if NotOnPremium(disks[|disks| - 1])
         then [A.Alert(A.Warning, A.DataDiskSla(vm, disks[|disks| - 1].name), A.VirtualMachineSubject(vm))]
         else [])
  }

  function SlaWarnings(vm: VirtualMachine): seq<A.Alert>
  {
    if vm.targetAvailabilitySet.Some? then []
    else
      (if NotOnPremium(vm.osVirtualHardDisk)
       then [A.Alert(A.Warning, A.OsDiskSla(vm.name), A.VirtualMachineSubject(vm.name))]
       else [])
      + DataDiskSlaWarnings(vm.name, vm.dataDisks)
  }

  function IpConfigurationAlerts(vm: string, nic: string, ipc: NetworkInterfaceIpConfiguration, vnets: seq<VirtualNetwork>): seq<A.Alert>
  {
    (match ipc.targetVirtualNetwork
     case None => [A.Alert(A.Error, A.NoVirtualNetwork(vm, nic), A.NetworkInterfaceSubject(nic))]
     case Some(InMigrationVirtualNetwork(vnet, _)) =>
       if VirtualNetworkListed(vnet, vnets) then []
       else [A.Alert(A.Error, A.VirtualNetworkNotIncluded(vnet, vm, nic), A.NetworkInterfaceSubject(nic))]
     case Some(ExistingVirtualNetwork(_)) => [])
    + (if ipc.targetSubnet.None? then [A.Alert(A.Error, A.NoSubnet(vm, nic), A.NetworkInterfaceSubject(nic))] else [])
  }

  function IpConfigurationsAlerts(vm: string, nic: string, ipcs: seq<NetworkInterfaceIpConfiguration>, vnets: seq<VirtualNetwork>): seq<A.Alert>
  {
    if ipcs == [] then []
    else IpConfigurationsAlerts(vm, nic, ipcs[..|ipcs| - 1], vnets) + IpConfigurationAlerts(vm, nic, ipcs[|ipcs| - 1], vnets)
  }

  function NetworkInterfacesAlerts(vm: string, nics: seq<NetworkInterface>, vnets: seq<VirtualNetwork>): seq<A.Alert>
  {
    if nics == [] then []
    else
      NetworkInterfacesAlerts(vm, nics[..|nics| - 1], vnets)
      + IpConfigurationsAlerts(vm, nics[|nics| - 1].name, nics[|nics| - 1].ipConfigurations, vnets)
  }

  function OsDiskStorageAlerts(vm: VirtualMachine, accounts: seq<StorageAccount>): seq<A.Alert>
  {
    match vm.osVirtualHardDisk.targetStorageAccount
    case None => [A.Alert(A.Error, A.NoOsDiskStorage(vm.name), A.VirtualMachineSubject(vm.name))]
    case Some(InMigrationStorage(sa)) =>
      if StorageAccountListed(sa.name, accounts) then []
      else [A.Alert(A.Error, A.OsDiskStorageNotIncluded(sa.name, vm.name), A.VirtualMachineSubject(vm.name))]
    case Some(ExistingStorage(_, _)) => []
  }

  function DataDiskStorageAlert(vm: string, disk: Disk, accounts: seq<StorageAccount>): seq<A.Alert>
  {
    match disk.targetStorageAccount
    case None => [A.Alert(A.Error, A.NoDataDiskStorage(vm, disk.name), A.DiskSubject(disk.name))]
    case Some(InMigrationStorage(sa)) =>
      if StorageAccountListed(sa.name, accounts) then []
      else [A.Alert(A.Error, A.DataDiskStorageNotIncluded(sa.name, vm, disk.name), A.DiskSubject(disk.name))]
    case Some(ExistingStorage(_, _)) => []
  }

  function DataDiskStorageAlerts(vm: string, disks: seq<Disk>, accounts: seq<StorageAccount>): seq<A.Alert>
  {
    if disks == [] then []
    else DataDiskStorageAlerts(vm, disks[..|disks| - 1], accounts) + DataDiskStorageAlert(vm, disks[|disks| - 1], accounts)
  }

  function VirtualMachineAlerts(vm: VirtualMachine, vnets: seq<VirtualNetwork>, accounts: seq<StorageAccount>): seq<A.Alert>
  {
    (if vm.name == "" then [A.Alert(A.Error, A.NoVirtualMachineName(vm.name), A.VirtualMachineSubject(vm.name))] else [])
    + SlaWarnings(vm)
    + NetworkInterfacesAlerts(vm.name, vm.networkInterfaces, vnets)
    + OsDiskStorageAlerts(vm, accounts)
    + DataDiskStorageAlerts(vm.name, vm.dataDisks, accounts)
  }

  function VirtualMachinesAlerts(vms: seq<VirtualMachine>, vnets: seq<VirtualNetwork>, accounts: seq<StorageAccount>): seq<A.Alert>
  {
    if vms == [] then []
    else VirtualMachinesAlerts(vms[..|vms| - 1], vnets, accounts) + VirtualMachineAlerts(vms[|vms| - 1], vnets, accounts)
  }

  /** Everything UpdateArtifacts reports for a selection, in order. */
  function ValidationAlerts(a: ExportArtifacts): seq<A.Alert>
  {
    ResourceGroupAlerts(a.resourceGroup)
    + NsgsAlerts(a.networkSecurityGroups)
    + LoadBalancersAlerts(a.loadBalancers)
    + VirtualMachinesAlerts(a.virtualMachines, a.virtualNetworks, a.storageAccounts)
  }
}
