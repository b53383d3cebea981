/**
 * What the compute builders' output means: network interfaces and their
 * security groups, the storage accounts a machine depends on, the two build
 * modes, the copy-blob manifest, and the admin parameters.
 */
module ComputeProperties {
  import opened Wrappers
  import opened SeqUtil
  import opened ArmTemplate
  import opened Emission
  import MT = MigrationTarget
  import N = NetworkSynthesis
  import opened ComputeSynthesis
  import V = ValidationProperties

  // ---------------------------------------------------------------------
  // Network interfaces
  // ---------------------------------------------------------------------

  lemma {:induction false} NicIpConfigurationsArePositionwise(nic: MT.NetworkInterface, ipcs: seq<MT.NetworkInterfaceIpConfiguration>)
    ensures |NicIpConfigurations(nic, ipcs)| == |ipcs|
    ensures forall i :: 0 <= i < |ipcs| ==> NicIpConfigurations(nic, ipcs)[i] == NicIpConfigurationOf(nic, ipcs[i])
  {
    if ipcs != [] {
      NicIpConfigurationsArePositionwise(nic, ipcs[..|ipcs| - 1]);
    }
  }

  /**
   * Every IP configuration keeps its name and address settings, refers to its
   * subnet when it has one, to the NIC's pool and NAT rules, and to the NIC's
   * public IP exactly when the NIC has public IPs.
   */
  lemma NicIpConfigurationReferences(nic: MT.NetworkInterface, a: MT.ExportArtifacts, i: int)
    requires 0 <= i < |nic.ipConfigurations|
    ensures NetworkInterfaceResource(nic, a).properties.NetworkInterfaceProperties?
    ensures |NetworkInterfaceResource(nic, a).properties.ipConfigurations| == |nic.ipConfigurations|
    ensures var ipc := nic.ipConfigurations[i];
      var out := NetworkInterfaceResource(nic, a).properties.ipConfigurations[i];
      && out.name == ipc.name
      && out.privateIPAllocationMethod == ipc.targetPrivateIPAllocationMethod
      && out.privateIPAddress == ipc.targetPrivateIpAddress
      && (out.subnet.Ref? <==> ipc.targetSubnet.Some?)
      && (out.publicIPAddress.Some? <==> nic.hasPublicIPs)
      && (out.publicIPAddress.Some? ==> out.publicIPAddress.value == Ref(N.PublicIpId(nic.name)))
      && |out.loadBalancerBackendAddressPools| == (if nic.backEndAddressPool.Some? then 1 else 0)
      && |out.loadBalancerInboundNatRules| == |nic.inboundNatRules|
  {
    NicIpConfigurationsArePositionwise(nic, nic.ipConfigurations);
    InboundNatRuleReferencesLength(nic.inboundNatRules);
  }

  lemma {:induction false} InboundNatRuleReferencesLength(rules: seq<MT.InboundNatRuleRef>)
    ensures |InboundNatRuleReferences(rules)| == |rules|
  {
    if rules != [] {
      InboundNatRuleReferencesLength(rules[..|rules| - 1]);
    }
  }

  lemma {:induction false} NicPublicIpsCount(nic: MT.NetworkInterface, ipcs: seq<MT.NetworkInterfaceIpConfiguration>)
    ensures |NicPublicIps(nic, ipcs)| == (if nic.hasPublicIPs then |ipcs| else 0)
    ensures forall r :: r in NicPublicIps(nic, ipcs) ==> r == NicPublicIpResource(nic)
  {
    if ipcs != [] {
      NicPublicIpsCount(nic, ipcs[..|ipcs| - 1]);
    }
  }

  /**
   * A NIC with public IPs gets one public IP resource, named like the NIC,
   * per IP configuration, and the public IP each configuration refers to is
   * that resource.
   */
  lemma NicPublicIpsAreBuilt(nic: MT.NetworkInterface, a: MT.ExportArtifacts)
    ensures |BuildNetworkInterface(nic, a).resources| == (if nic.hasPublicIPs then |nic.ipConfigurations| else 0) + 1
    ensures nic.hasPublicIPs && |nic.ipConfigurations| > 0 ==>
              && NicPublicIpResource(nic) in BuildNetworkInterface(nic, a).resources
              && N.PublicIpId(NicPublicIpResource(nic).name) in NetworkInterfaceResource(nic, a).dependsOn
  {
    NicPublicIpsCount(nic, nic.ipConfigurations);
    var ipcs := nic.ipConfigurations;
    if nic.hasPublicIPs && |ipcs| > 0 {
      var n := |NicPublicIps(nic, ipcs)|;
      assert NicPublicIps(nic, ipcs)[n - 1] == NicPublicIpResource(nic);
      assert BuildNetworkInterface(nic, a).resources[n - 1] == NicPublicIpResource(nic);
      IpConfigurationsDependOn(nic, ipcs, N.PublicIpId(nic.name));
      assert IpConfigurationNeeds(nic, ipcs[0], N.PublicIpId(nic.name));
    }
  }

  /** The IP configuration needs the resource with this id: its migrated network, the pool's load balancer, or the NIC's public IP. */
  predicate IpConfigurationNeeds(nic: MT.NetworkInterface, ipc: MT.NetworkInterfaceIpConfiguration, id: string) {
    || (ipc.targetVirtualNetwork.Some? && ipc.targetVirtualNetwork.value.InMigrationVirtualNetwork?
          && id == ipc.targetVirtualNetwork.value.targetId)
    || (nic.backEndAddressPool.Some? && id == ResourceId(ProviderLoadBalancers, nic.backEndAddressPool.value.loadBalancerName))
    || (nic.hasPublicIPs && id == N.PublicIpId(nic.name))
  }

  lemma {:induction false} IpConfigurationsDependOn(nic: MT.NetworkInterface, ipcs: seq<MT.NetworkInterfaceIpConfiguration>, id: string)
    ensures id in IpConfigurationsDependsOn(nic, ipcs) <==> exists ipc :: ipc in ipcs && IpConfigurationNeeds(nic, ipc, id)
  {
    if ipcs != [] {
      var init, last := ipcs[..|ipcs| - 1], ipcs[|ipcs| - 1];
      assert ipcs == init + [last];
      IpConfigurationsDependOn(nic, init, id);
      assert id in IpConfigurationsDependsOn(nic, ipcs) <==>
             id in IpConfigurationsDependsOn(nic, init) || IpConfigurationNeeds(nic, last, id);
      assert (exists ipc :: ipc in ipcs && IpConfigurationNeeds(nic, ipc, id)) <==>
             (exists ipc :: ipc in init && IpConfigurationNeeds(nic, ipc, id)) || IpConfigurationNeeds(nic, last, id);
    }
  }

  /** The NSG the NIC names is selected. */
  predicate NicSecurityGroupSelected(nic: MT.NetworkInterface, a: MT.ExportArtifacts) {
    nic.networkSecurityGroupName.Some? &&
    exists i :: 0 <= i < |a.networkSecurityGroups| && a.networkSecurityGroups[i].name == nic.networkSecurityGroupName.value
  }

  /**
   * A NIC that names a selected NSG refers to it and depends on it; one that
   * names an unselected NSG gets neither, and exactly one alert; a NIC
   * naming no NSG gets neither and no alert.
   */
  lemma NicSecurityGroupIsReferencedOrReported(nic: MT.NetworkInterface, a: MT.ExportArtifacts)
    ensures NetworkInterfaceResource(nic, a).properties.NetworkInterfaceProperties?
    ensures var nsgRef := NetworkInterfaceResource(nic, a).properties.networkSecurityGroup;
      && (nsgRef.Some? <==> NicSecurityGroupSelected(nic, a))
      && (nsgRef.Some? ==>
            && nsgRef.value == Ref(N.NetworkSecurityGroupId(nic.networkSecurityGroupName.value))
            && N.NetworkSecurityGroupId(nic.networkSecurityGroupName.value) in NetworkInterfaceResource(nic, a).dependsOn)
    ensures BuildNetworkInterface(nic, a).alerts ==
              if nic.networkSecurityGroupName.Some? && !NicSecurityGroupSelected(nic, a)
              then [Alert(Error, NetworkSecurityGroupNotIncluded(nic.name, nic.networkSecurityGroupName.value), NoSubject)]
              else []
  {
  }

  /** Apart from the NSG, a NIC's dependencies are exactly what its IP configurations need. */
  lemma NicDependsOnItsConfigurations(nic: MT.NetworkInterface, a: MT.ExportArtifacts, id: string)
    ensures id in NetworkInterfaceResource(nic, a).dependsOn <==>
              || (exists ipc :: ipc in nic.ipConfigurations && IpConfigurationNeeds(nic, ipc, id))
              || (NicSecurityGroupSelected(nic, a) && id == N.NetworkSecurityGroupId(nic.networkSecurityGroupName.value))
  {
    IpConfigurationsDependOn(nic, nic.ipConfigurations, id);
  }

  // ---------------------------------------------------------------------
  // Virtual machines: network profile and dependencies
  // ---------------------------------------------------------------------

  lemma {:induction false} NetworkProfileIsPositionwise(nics: seq<MT.NetworkInterface>)
    ensures |NetworkProfile(nics)| == |nics| && |NetworkInterfaceIds(nics)| == |nics|
    ensures forall i :: 0 <= i < |nics| ==>
              && NetworkProfile(nics)[i] == NetworkProfileInterface(NetworkInterfaceId(nics[i].name), nics[i].isPrimary)
              && NetworkInterfaceIds(nics)[i] == NetworkInterfaceId(nics[i].name)
  {
    if nics != [] {
      NetworkProfileIsPositionwise(nics[..|nics| - 1]);
    }
  }

  lemma {:induction false} NetworkInterfacesAreBuilt(nics: seq<MT.NetworkInterface>, a: MT.ExportArtifacts)
    ensures forall nic :: nic in nics ==> NetworkInterfaceResource(nic, a) in BuildNetworkInterfaces(nics, a).resources
  {
    if nics != [] {
      var init, last := nics[..|nics| - 1], nics[|nics| - 1];
      assert nics == init + [last];
      NetworkInterfacesAreBuilt(init, a);
      var own := BuildNetworkInterface(last, a).resources;
      assert own[|own| - 1] == NetworkInterfaceResource(last, a);
    }
  }

  /**
   * Every NIC of a machine is built with it, the machine depends on it, and
   * its network profile lists it in order with its primary flag.
   */
  lemma MachineNicsAreBuiltAndReferenced(vm: MT.VirtualMachine, a: MT.ExportArtifacts, settings: MT.Settings,
                                         source: Option<MT.Subscription>, i: int)
    requires CanBuildCopyBlobs(vm, settings)
    requires 0 <= i < |vm.networkInterfaces|
    ensures |VirtualMachineResource(vm, settings).properties.networkInterfaces| == |vm.networkInterfaces|
    ensures var nic := vm.networkInterfaces[i];
      && NetworkInterfaceResource(nic, a) in BuildVirtualMachine(vm, a, settings, source).resources
      && NetworkInterfaceId(nic.name) in VirtualMachineResource(vm, settings).dependsOn
      && VirtualMachineResource(vm, settings).properties.networkInterfaces[i] ==
           NetworkProfileInterface(NetworkInterfaceId(nic.name), nic.isPrimary)
  {
    NetworkProfileIsPositionwise(vm.networkInterfaces);
    NetworkInterfacesAreBuilt(vm.networkInterfaces, a);
    assert vm.networkInterfaces[i] in vm.networkInterfaces;
    assert NetworkInterfaceIds(vm.networkInterfaces)[i] in VirtualMachineDependsOn(vm);
  }

  /** A machine in an availability set builds the set just before itself, refers to it and depends on it. */
  lemma AvailabilitySetIsBuiltAndReferenced(vm: MT.VirtualMachine, a: MT.ExportArtifacts, settings: MT.Settings,
                                            source: Option<MT.Subscription>)
    requires CanBuildCopyBlobs(vm, settings)
    requires vm.targetAvailabilitySet.Some?
    ensures var set_ := vm.targetAvailabilitySet.value;
      && AvailabilitySetResource(set_) in BuildVirtualMachine(vm, a, settings, source).resources
      && AvailabilitySetId(set_) in VirtualMachineResource(vm, settings).dependsOn
      && VirtualMachineResource(vm, settings).properties.availabilitySet == Some(Ref(AvailabilitySetId(set_)))
  {
    var built := BuildVirtualMachine(vm, a, settings, source).resources;
    var nicsPart := BuildNetworkInterfaces(vm.networkInterfaces, a).resources;
    assert built[|nicsPart|] == AvailabilitySetResource(vm.targetAvailabilitySet.value);
  }

  // ---------------------------------------------------------------------
  // Virtual machines: storage dependencies
  // ---------------------------------------------------------------------

  /** The machine stores a disk on this target. */
  predicate UsesStorage(vm: MT.VirtualMachine, t: MT.StorageTarget) {
    vm.osVirtualHardDisk.targetStorageAccount == Some(t) || exists d :: d in vm.dataDisks && d.targetStorageAccount == Some(t)
  }

  lemma {:induction false} DataDiskStorageDependenciesMembership(deps: seq<MT.StorageTarget>, disks: seq<MT.Disk>, t: MT.StorageTarget)
    requires NoDuplicates(deps)
    ensures NoDuplicates(DataDiskStorageDependencies(deps, disks))
    ensures t in DataDiskStorageDependencies(deps, disks) <==>
              t in deps || exists d :: d in disks && d.targetStorageAccount == Some(t)
  {
    if disks != [] {
      var init, last := disks[..|disks| - 1], disks[|disks| - 1];
      assert disks == init + [last];
      DataDiskStorageDependenciesMembership(deps, init, t);
      assert (exists d :: d in disks && d.targetStorageAccount == Some(t)) <==>
             (exists d :: d in init && d.targetStorageAccount == Some(t)) || last.targetStorageAccount == Some(t);
    }
  }

  /** Each storage target a machine's disks use is listed once, and nothing else is. */
  lemma StorageDependenciesAreTheUsedTargets(vm: MT.VirtualMachine, t: MT.StorageTarget)
    ensures t in StorageDependencies(vm) <==> UsesStorage(vm, t)
    ensures Count(StorageDependencies(vm), t) == if UsesStorage(vm, t) then 1 else 0
  {
    var os := vm.osVirtualHardDisk.targetStorageAccount;
    var deps := if os.Some? then [os.value] else [];
    DataDiskStorageDependenciesMembership(deps, vm.dataDisks, t);
    CountOfNoDuplicates(StorageDependencies(vm), t);
  }

  lemma {:induction false} StorageDependsOnMembership(targets: seq<MT.StorageTarget>, id: string)
    ensures id in StorageDependsOn(targets) <==>
              exists t :: t in targets && t.InMigrationStorage? && id == StorageAccountId(t.Name())
  {
    if targets != [] {
      var init, last := targets[..|targets| - 1], targets[|targets| - 1];
      assert targets == init + [last];
      StorageDependsOnMembership(init, id);
      assert StorageDependsOn(targets)
             == StorageDependsOn(init) + (if last.InMigrationStorage? then [StorageAccountId(last.Name())] else []);
      if id in StorageDependsOn(targets) {
        if id in StorageDependsOn(init) {
          var t :| t in init && t.InMigrationStorage? && id == StorageAccountId(t.Name());
          assert t in targets;
        } else {
          assert last in targets;
        }
      }
      if t :| t in targets && t.InMigrationStorage? && id == StorageAccountId(t.Name()) {
        if t != last {
          assert t in init;
        }
      }
    }
  }

  /**
   * A machine depends on the storage accounts of this migration its disks
   * use, and never on an existing account outside the template.
   */
  lemma MachineDependsOnItsMigratedStorage(vm: MT.VirtualMachine, id: string)
    ensures id in StorageDependsOn(StorageDependencies(vm)) <==>
              exists t :: UsesStorage(vm, t) && t.InMigrationStorage? && id == StorageAccountId(t.Name())
  {
    StorageDependsOnMembership(StorageDependencies(vm), id);
    forall t: MT.StorageTarget | t.InMigrationStorage? && id == StorageAccountId(t.Name())
      ensures t in StorageDependencies(vm) <==> UsesStorage(vm, t)
    {
      StorageDependenciesAreTheUsedTargets(vm, t);
    }
  }

  // ---------------------------------------------------------------------
  // Build modes
  // ---------------------------------------------------------------------

  /** The disks with a target storage account, in order: the disks the template attaches. */
  function DisksWithStorage(disks: seq<MT.Disk>): (r: seq<MT.Disk>)
    ensures |r| <= |disks|
    ensures forall d :: d in r <==> d in disks && d.targetStorageAccount.Some?
  {
    if disks == [] then []
    else
      DisksWithStorage(disks[..|disks| - 1])
      + (if disks[|disks| - 1].targetStorageAccount.Some? then [disks[|disks| - 1]] else [])
  }

  lemma {:induction false} DataDisksAreTheDisksWithStorage(disks: seq<MT.Disk>, settings: MT.Settings,
                                                           source: Option<MT.Subscription>)
    ensures |DataDisks(disks, settings)| == |DisksWithStorage(disks)| == |DataDiskCopyBlobs(disks, source)|
    ensures forall i :: 0 <= i < |DisksWithStorage(disks)| ==>
              && DataDisks(disks, settings)[i] == DataDiskOf(DisksWithStorage(disks)[i], settings)
              && DataDiskCopyBlobs(disks, source)[i] == CopyBlobOf(DisksWithStorage(disks)[i], source)
  {
    if disks != [] {
      DataDisksAreTheDisksWithStorage(disks[..|disks| - 1], settings, source);
    }
  }

  /**
   * Built empty, a machine is created from a marketplace image with admin
   * credentials, empty data disks and no copy-blob entry.
   */
  lemma BuildEmptyCreatesFromImage(vm: MT.VirtualMachine, settings: MT.Settings, source: Option<MT.Subscription>)
    requires settings.buildEmpty
    ensures var p := VirtualMachineResource(vm, settings).properties;
      && p.osDisk.createOption == "FromImage" && p.osDisk.osType.None?
      && p.osProfile == Some(OsProfile(vm.name, AdminUsernameParameter, AdminPasswordParameter))
      && p.imageReference == Some(ImageReferenceFor(vm.osVirtualHardDiskOS))
      && |p.dataDisks| == |DisksWithStorage(vm.dataDisks)|
      && (forall i :: 0 <= i < |p.dataDisks| ==> p.dataDisks[i].createOption == "Empty")
      && CopyBlobs(vm, settings, source) == []
  {
    DataDisksAreTheDisksWithStorage(vm.dataDisks, settings, source);
  }

  /**
   * Otherwise the disks are attached: the OS disk with its OS type, every data
   * disk with a target account, and each attached disk has its copy-blob
   * entry at the matching position (the OS disk's first).
   */
  lemma AttachCopiesEveryAttachedDisk(vm: MT.VirtualMachine, settings: MT.Settings, source: Option<MT.Subscription>)
    requires !settings.buildEmpty
    requires CanBuildCopyBlobs(vm, settings)
    ensures var p := VirtualMachineResource(vm, settings).properties;
      var blobs := CopyBlobs(vm, settings, source);
      var disks := DisksWithStorage(vm.dataDisks);
      && p.osDisk.createOption == "Attach" && p.osDisk.osType == Some(vm.osVirtualHardDiskOS)
      && p.osProfile.None? && p.imageReference.None?
      && |p.dataDisks| == |disks|
      && |blobs| == 1 + |p.dataDisks|
      && blobs[0] == CopyBlobOf(vm.osVirtualHardDisk, source)
      && (forall i :: 0 <= i < |p.dataDisks| ==>
            && p.dataDisks[i].createOption == "Attach"
            && p.dataDisks[i].vhdUri == disks[i].targetMediaLink
            && blobs[i + 1] == CopyBlobOf(disks[i], source))
  {
    var p := VirtualMachineResource(vm, settings).properties;
    var blobs := CopyBlobs(vm, settings, source);
    var disks := DisksWithStorage(vm.dataDisks);
    var rest := DataDiskCopyBlobs(vm.dataDisks, source);
    DataDisksAreTheDisksWithStorage(vm.dataDisks, settings, source);
    assert p.dataDisks == DataDisks(vm.dataDisks, settings);
    assert blobs == [CopyBlobOf(vm.osVirtualHardDisk, source)] + rest;
    forall i | 0 <= i < |p.dataDisks|
      ensures p.dataDisks[i] == DataDiskOf(disks[i], settings) && blobs[i + 1] == CopyBlobOf(disks[i], source)
    {
      assert blobs[i + 1] == rest[i];
    }
  }

  /** The entry of a disk without a source disk is null. */
  lemma CopyBlobNullWithoutSource(disk: MT.Disk, source: Option<MT.Subscription>)
    requires CanBuildCopyBlob(disk)
    ensures CopyBlobOf(disk, source).None? <==> disk.sourceDisk.None?
  {
  }

  /**
   * A copy-blob entry copies the source disk's blob into the disk's target
   * account, container and blob; the source environment is named exactly
   * when the source subscription is known.
   */
  lemma CopyBlobCopiesSourceToTarget(disk: MT.Disk, source: Option<MT.Subscription>)
    requires CanBuildCopyBlob(disk)
    requires disk.sourceDisk.Some?
    ensures var c := CopyBlobOf(disk, source);
      var from := disk.sourceDisk.value;
      && c.Some?
      && c.value.destinationSA == disk.targetStorageAccount.value.Name()
      && c.value.destinationContainer == disk.targetStorageAccountContainer
      && c.value.destinationBlob == disk.targetStorageAccountBlob
      && (c.value.sourceEnvironment.Some? <==> source.Some?)
      && (source.Some? ==> c.value.sourceEnvironment == Some(source.value.azureEnvironment.ToString()))
      && (from.AsmDisk? ==> (c.value.sourceSA, c.value.sourceContainer, c.value.sourceBlob, c.value.sourceKey)
                              == (from.asmAccount, from.asmContainer, from.asmBlob, from.asmKey))
      && (from.ArmDisk? ==> (c.value.sourceSA, c.value.sourceContainer, c.value.sourceBlob, c.value.sourceKey)
                              == (from.armAccount, from.armContainer, from.armBlob, from.armKey))
  {
  }

  /** A machine that passes validation has a target account for its OS disk, so its entries can be built. */
  lemma ValidMachineCanBeCopied(vm: MT.VirtualMachine, vnets: seq<MT.VirtualNetwork>, accounts: seq<MT.StorageAccount>,
                                settings: MT.Settings)
    requires V.MachineIsValid(vm, vnets, accounts)
    ensures CanBuildCopyBlobs(vm, settings)
  {
  }

  // ---------------------------------------------------------------------
  // Admin parameters
  // ---------------------------------------------------------------------

  /** Adding the admin parameters a second time changes nothing, so building many machines adds them once. */
  lemma AdminParametersIdempotent(parameters: map<string, Parameter>)
    ensures AdminParameters(AdminParameters(parameters)) == AdminParameters(parameters)
  {
  }

  /**
   * The marketplace image of a machine built empty: Windows Server 2016 and
   * Ubuntu 16.04 by OS name, placeholders for any other OS.
   */
  lemma ImageReferenceSwitch(os: string)
    ensures os == "Windows" ==>
      ImageReferenceFor(os) == ImageReference("MicrosoftWindowsServer", "WindowsServer", "2016-Datacenter", "latest")
    ensures os == "Linux" ==>
      ImageReferenceFor(os) == ImageReference("Canonical", "UbuntuServer", "16.04.0-LTS", "latest")
    ensures os != "Windows" && os != "Linux" ==>
      ImageReferenceFor(os) == ImageReference("<publisher>", "<offer>", "<sku>", "<version>")
    ensures ImageReferenceFor(os).version == "latest" <==> os == "Windows" || os == "Linux"
  {
  }
}
