/**
 * What the compute builders of AzureGenerator produce: storage accounts,
 * availability sets, network interfaces with their public IPs, virtual
 * machines, the copy-blob manifest entries, and the admin parameters of
 * virtual machines built empty.
 *
 * The class methods in module Generator are proved to append exactly these
 * values; module ComputeProperties proves what they mean.
 */
module ComputeSynthesis {
  import opened Wrappers
  import opened SeqUtil
  import opened Mappings
  import opened ArmTemplate
  import opened Emission
  import MT = MigrationTarget
  import N = NetworkSynthesis

  // ---------------------------------------------------------------------
  // Storage accounts and availability sets
  // ---------------------------------------------------------------------

  function StorageAccountResource(account: MT.StorageAccount): ArmResource {
    ArmResource(account.name, ResourceGroupLocation, [], StorageAccountProperties(account.accountType))
  }

  function StorageAccountId(name: string): string {
    ResourceId(ProviderStorageAccounts, name)
  }

  function AvailabilitySetResource(name: string): ArmResource {
    ArmResource(name, ResourceGroupLocation, [], AvailabilitySetProperties)
  }

  function AvailabilitySetId(name: string): string {
    ResourceId(ProviderAvailabilitySets, name)
  }

  // ---------------------------------------------------------------------
  // Network interfaces (BuildNetworkInterfaceObject)
  // ---------------------------------------------------------------------

  function NetworkInterfaceId(name: string): string {
    ResourceId(ProviderNetworkInterfaces, name)
  }

  /** The back-end pool reference every IP configuration of the NIC carries, if it has a pool. */
  function BackEndAddressPoolReferences(nic: MT.NetworkInterface): seq<Reference> {
    if nic.backEndAddressPool.Some?
    then [Ref(LoadBalancerChildId(nic.backEndAddressPool.value.loadBalancerName, "backendAddressPools", nic.backEndAddressPool.value.name))]
    else []
  }

  function InboundNatRuleReferences(rules: seq<MT.InboundNatRuleRef>): seq<Reference> {
    if rules == [] then []
    else
      InboundNatRuleReferences(rules[..|rules| - 1])
      + [Ref(LoadBalancerChildId(rules[|rules| - 1].loadBalancerName, "inboundNatRules", rules[|rules| - 1].name))]
  }

  /** The NIC's public IP: named like the NIC itself. */
  function NicPublicIpResource(nic: MT.NetworkInterface): ArmResource {
    ArmResource(nic.name, ResourceGroupLocation, [], PublicIPAddressProperties(None, None))
  }

  function NicIpConfigurationOf(nic: MT.NetworkInterface, ipc: MT.NetworkInterfaceIpConfiguration): NicIpConfiguration {
    NicIpConfiguration(
      ipc.name,
      if ipc.targetSubnet.Some? then Ref(ipc.targetSubnet.value.targetId) else EmptyRef,
      ipc.targetPrivateIPAllocationMethod, ipc.targetPrivateIpAddress,
      BackEndAddressPoolReferences(nic),
      InboundNatRuleReferences(nic.inboundNatRules),
      if nic.hasPublicIPs then Some(Ref(N.PublicIpId(nic.name))) else None)
  }

  function NicIpConfigurations(nic: MT.NetworkInterface, ipcs: seq<MT.NetworkInterfaceIpConfiguration>): seq<NicIpConfiguration> {
    if ipcs == [] then []
    else NicIpConfigurations(nic, ipcs[..|ipcs| - 1]) + [NicIpConfigurationOf(nic, ipcs[|ipcs| - 1])]
  }

  /**
   * The dependencies one IP configuration adds, without any check for
   * duplicates: the network as given when it is part of the migration, the
   * load balancer of the pool, the NIC's public IP.
   */
  function IpConfigurationDependsOn(nic: MT.NetworkInterface, ipc: MT.NetworkInterfaceIpConfiguration): seq<string> {
    (if ipc.targetVirtualNetwork.Some? && ipc.targetVirtualNetwork.value.InMigrationVirtualNetwork?
     then [ipc.targetVirtualNetwork.value.targetId] else [])
    + (if nic.backEndAddressPool.Some? then [ResourceId(ProviderLoadBalancers, nic.backEndAddressPool.value.loadBalancerName)] else [])
    + (if nic.hasPublicIPs then [N.PublicIpId(nic.name)] else [])
  }

  function IpConfigurationsDependsOn(nic: MT.NetworkInterface, ipcs: seq<MT.NetworkInterfaceIpConfiguration>): seq<string> {
    if ipcs == [] then []
    else IpConfigurationsDependsOn(nic, ipcs[..|ipcs| - 1]) + IpConfigurationDependsOn(nic, ipcs[|ipcs| - 1])
  }

  /** One public IP resource per IP configuration when the NIC has public IPs. */
  function NicPublicIps(nic: MT.NetworkInterface, ipcs: seq<MT.NetworkInterfaceIpConfiguration>): seq<ArmResource> {
    if ipcs == [] then []
    else NicPublicIps(nic, ipcs[..|ipcs| - 1]) + (if nic.hasPublicIPs then [NicPublicIpResource(nic)] else [])
  }

  /** The selected NSG the NIC names, if it names one and it is selected. */
  function NicNetworkSecurityGroup(nic: MT.NetworkInterface, a: MT.ExportArtifacts): Option<MT.NetworkSecurityGroup> {
    if nic.networkSecurityGroupName.Some? then a.SeekNetworkSecurityGroup(nic.networkSecurityGroupName.value) else None
  }

  function NetworkInterfaceResource(nic: MT.NetworkInterface, a: MT.ExportArtifacts): ArmResource {
    var deps := IpConfigurationsDependsOn(nic, nic.ipConfigurations);
    var nsg := NicNetworkSecurityGroup(nic, a);
    ArmResource(
      nic.name, ResourceGroupLocation,
      if nsg.Some? then AddIfAbsent(deps, N.NetworkSecurityGroupId(nsg.value.name)) else deps,
      NetworkInterfaceProperties(
        NicIpConfigurations(nic, nic.ipConfigurations), nic.enableIPForwarding,
        if nsg.Some? then Some(Ref(N.NetworkSecurityGroupId(nsg.value.name))) else None))
  }

  /** Everything BuildNetworkInterfaceObject appends: the public IPs, then the NIC; an alert for an unselected NSG. */
  function BuildNetworkInterface(nic: MT.NetworkInterface, a: MT.ExportArtifacts): Emitted {
    Emitted(
      NicPublicIps(nic, nic.ipConfigurations) + [NetworkInterfaceResource(nic, a)],
      if nic.networkSecurityGroupName.Some? && NicNetworkSecurityGroup(nic, a).None?
      then [Alert(Error, NetworkSecurityGroupNotIncluded(nic.name, nic.networkSecurityGroupName.value), NoSubject)]
      else [],
      [])
  }

  function BuildNetworkInterfaces(nics: seq<MT.NetworkInterface>, a: MT.ExportArtifacts): Emitted {
    if nics == [] then Nothing
    else BuildNetworkInterfaces(nics[..|nics| - 1], a).Then(BuildNetworkInterface(nics[|nics| - 1], a))
  }

  /** The entries of the machine's network profile. */
  function NetworkProfile(nics: seq<MT.NetworkInterface>): seq<NetworkProfileInterface> {
    if nics == [] then []
    else NetworkProfile(nics[..|nics| - 1]) + [NetworkProfileInterface(NetworkInterfaceId(nics[|nics| - 1].name), nics[|nics| - 1].isPrimary)]
  }

  function NetworkInterfaceIds(nics: seq<MT.NetworkInterface>): seq<string> {
    if nics == [] then [] else NetworkInterfaceIds(nics[..|nics| - 1]) + [NetworkInterfaceId(nics[|nics| - 1].name)]
  }

  // ---------------------------------------------------------------------
  // Virtual machines (BuildVirtualMachineObject)
  // ---------------------------------------------------------------------

  /** The storage targets of the data disks that have one, each added only if absent. */
  function DataDiskStorageDependencies(deps: seq<MT.StorageTarget>, disks: seq<MT.Disk>): seq<MT.StorageTarget> {
    if disks == [] then deps
    else
      var before := DataDiskStorageDependencies(deps, disks[..|disks| - 1]);
      var disk := disks[|disks| - 1];
      if disk.targetStorageAccount.Some? then AddIfAbsent(before, disk.targetStorageAccount.value) else before
  }

  /** The OS disk's storage target, unconditionally, then the data disks' distinct ones. */
  function StorageDependencies(vm: MT.VirtualMachine): seq<MT.StorageTarget> {
    var os := vm.osVirtualHardDisk.targetStorageAccount;
    DataDiskStorageDependencies(if os.Some? then [os.value] else [], vm.dataDisks)
  }

  /** Only storage accounts of this migration become dependencies. */
  function StorageDependsOn(targets: seq<MT.StorageTarget>): seq<string> {
    if targets == [] then []
    else
      StorageDependsOn(targets[..|targets| - 1])
      + (if targets[|targets| - 1].InMigrationStorage? then [StorageAccountId(targets[|targets| - 1].Name())] else [])
  }

  function VirtualMachineDependsOn(vm: MT.VirtualMachine): seq<string> {
    NetworkInterfaceIds(vm.networkInterfaces)
    + (if vm.targetAvailabilitySet.Some? then [AvailabilitySetId(vm.targetAvailabilitySet.value)] else [])
    + StorageDependsOn(StorageDependencies(vm))
  }

  function OsDiskOf(vm: MT.VirtualMachine, settings: MT.Settings): OsDisk {
    var disk := vm.osVirtualHardDisk;
    OsDisk(
      disk.name,
      if disk.targetStorageAccount.Some? then disk.targetMediaLink else "",
      disk.hostCaching,
      if settings.buildEmpty then "FromImage" else "Attach",
      if settings.buildEmpty then None else Some(vm.osVirtualHardDiskOS))
  }

  function DataDiskOf(disk: MT.Disk, settings: MT.Settings): DataDisk {
    DataDisk(disk.name, disk.hostCaching, disk.diskSizeInGB, disk.lun,
             if settings.buildEmpty then "Empty" else "Attach", disk.targetMediaLink)
  }

  /** The data disks of the template: those with a target storage account, in order. */
  function DataDisks(disks: seq<MT.Disk>, settings: MT.Settings): seq<DataDisk> {
    if disks == [] then []
    else
      DataDisks(disks[..|disks| - 1], settings)
      + (if disks[|disks| - 1].targetStorageAccount.Some? then [DataDiskOf(disks[|disks| - 1], settings)] else [])
  }

  /** The marketplace image of a machine built empty. */
  function ImageReferenceFor(os: string): ImageReference {
    if os == "Windows" then ImageReference("MicrosoftWindowsServer", "WindowsServer", "2016-Datacenter", "latest")
    else if os == "Linux" then ImageReference("Canonical", "UbuntuServer", "16.04.0-LTS", "latest")
    else ImageReference("<publisher>", "<offer>", "<sku>", "<version>")
  }

  const AdminUsernameParameter: string := "[parameters('adminUsername')]"
  const AdminPasswordParameter: string := "[parameters('adminPassword')]"

  function VirtualMachinePropertiesOf(vm: MT.VirtualMachine, settings: MT.Settings): Properties {
    VirtualMachineProperties(
      GetVMSize(vm.targetSize),
      if settings.buildEmpty then Some(OsProfile(vm.name, AdminUsernameParameter, AdminPasswordParameter)) else None,
      NetworkProfile(vm.networkInterfaces),
      if settings.buildEmpty then Some(ImageReferenceFor(vm.osVirtualHardDiskOS)) else None,
      OsDiskOf(vm, settings),
      DataDisks(vm.dataDisks, settings),
      if vm.targetAvailabilitySet.Some? then Some(Ref(AvailabilitySetId(vm.targetAvailabilitySet.value))) else None)
  }

  function VirtualMachineResource(vm: MT.VirtualMachine, settings: MT.Settings): ArmResource {
    ArmResource(vm.name, ResourceGroupLocation, VirtualMachineDependsOn(vm), VirtualMachinePropertiesOf(vm, settings))
  }

  // ---------------------------------------------------------------------
  // Copy-blob manifest (BuildCopyBlob)
  // ---------------------------------------------------------------------

  /** A disk whose copy-blob entry can be built: one with a source disk needs a target storage account. */
  predicate CanBuildCopyBlob(disk: MT.Disk) {
    disk.sourceDisk.Some? ==> disk.targetStorageAccount.Some?
  }

  /** A null entry for a disk without a source disk; the source side from the disk, the destination from its target. */
  function CopyBlobOf(disk: MT.Disk, sourceSubscription: Option<MT.Subscription>): Option<CopyBlobDetail>
    requires CanBuildCopyBlob(disk)
  {
    match disk.sourceDisk
    case None => None
    case Some(source) =>
      var environment := if sourceSubscription.Some? then Some(sourceSubscription.value.azureEnvironment.ToString()) else None;
      var destination := disk.targetStorageAccount.value.Name();
      match source
      case AsmDisk(account, container, blob, key) =>
        Some(CopyBlobDetail(environment, account, container, blob, key,
                            destination, disk.targetStorageAccountContainer, disk.targetStorageAccountBlob))
      case ArmDisk(account, container, blob, key) =>
        Some(CopyBlobDetail(environment, account, container, blob, key,
                            destination, disk.targetStorageAccountContainer, disk.targetStorageAccountBlob))
  }

  /** One entry for each data disk with a target storage account. */
  function DataDiskCopyBlobs(disks: seq<MT.Disk>, sourceSubscription: Option<MT.Subscription>): seq<Option<CopyBlobDetail>> {
    if disks == [] then []
    else
      DataDiskCopyBlobs(disks[..|disks| - 1], sourceSubscription)
      + (if disks[|disks| - 1].targetStorageAccount.Some? then [CopyBlobOf(disks[|disks| - 1], sourceSubscription)] else [])
  }

  /** A machine whose copy-blob entries can be built: only the OS disk is copied without a target check. */
  predicate CanBuildCopyBlobs(vm: MT.VirtualMachine, settings: MT.Settings) {
    settings.buildEmpty || CanBuildCopyBlob(vm.osVirtualHardDisk)
  }

  /** No entries for machines built empty; otherwise the OS disk's, then the data disks'. */
  function CopyBlobs(vm: MT.VirtualMachine, settings: MT.Settings, sourceSubscription: Option<MT.Subscription>): seq<Option<CopyBlobDetail>>
    requires CanBuildCopyBlobs(vm, settings)
  {
    if settings.buildEmpty then []
    else [CopyBlobOf(vm.osVirtualHardDisk, sourceSubscription)] + DataDiskCopyBlobs(vm.dataDisks, sourceSubscription)
  }

  /**
   * Everything BuildVirtualMachineObject appends: the NICs and their public
   * IPs, the availability set if any, the machine, and its copy-blob entries.
   */
  function BuildVirtualMachine(vm: MT.VirtualMachine, a: MT.ExportArtifacts, settings: MT.Settings, sourceSubscription: Option<MT.Subscription>): Emitted
    requires CanBuildCopyBlobs(vm, settings)
  {
    BuildNetworkInterfaces(vm.networkInterfaces, a).Then(
      Emitted(
        (if vm.targetAvailabilitySet.Some? then [AvailabilitySetResource(vm.targetAvailabilitySet.value)] else [])
        + [VirtualMachineResource(vm, settings)],
        [],
        CopyBlobs(vm, settings, sourceSubscription)))
  }

  // ---------------------------------------------------------------------
  // Template parameters
  // ---------------------------------------------------------------------

  /** The admin credentials a machine built empty needs, each added only when missing. */
  function AdminParameters(parameters: map<string, Parameter>): (r: map<string, Parameter>)
    ensures r.Keys == parameters.Keys + {"adminUsername", "adminPassword"}
    ensures forall k :: k in parameters ==> r[k] == parameters[k]
    ensures "adminUsername" !in parameters ==> r["adminUsername"] == Parameter("string")
    ensures "adminPassword" !in parameters ==> r["adminPassword"] == Parameter("securestring")
  {
    var withUser := if "adminUsername" in parameters then parameters else parameters["adminUsername" := Parameter("string")];
    if "adminPassword" in withUser then withUser else withUser["adminPassword" := Parameter("securestring")]
  }
}
