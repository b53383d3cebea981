/**
 * What one run produces as a whole: every selected resource is in the
 * template, the copy-blob manifest has one entry per copied disk, the admin
 * parameters are added once, storage dependencies of a valid selection name
 * storage accounts of the template, and a security group that is both
 * selected and attached to a subnet is emitted twice.
 */
module GenerationProperties {
  import opened Wrappers
  import opened SeqUtil
  import opened ArmTemplate
  import opened Emission
  import MT = MigrationTarget
  import opened NetworkSynthesis
  import opened ComputeSynthesis
  import opened Generation
  import CP = ComputeProperties
  import V = ValidationProperties

  // ---------------------------------------------------------------------
  // Selected resources are built
  // ---------------------------------------------------------------------

  lemma {:induction false} SelectedSecurityGroupsAreBuilt(nsgs: seq<MT.NetworkSecurityGroup>)
    ensures forall nsg :: nsg in nsgs ==> NetworkSecurityGroupResource(nsg) in NetworkSecurityGroupsEmitted(nsgs).resources
  {
    if nsgs != [] {
      var init, last := nsgs[..|nsgs| - 1], nsgs[|nsgs| - 1];
      assert nsgs == init + [last];
      SelectedSecurityGroupsAreBuilt(init);
    }
  }

  lemma {:induction false} SelectedVirtualNetworksAreBuilt(vnets: seq<MT.VirtualNetwork>, settings: MT.Settings)
    ensures forall vnet :: vnet in vnets ==> VirtualNetworkResource(vnet) in VirtualNetworksEmitted(vnets, settings).resources
  {
    if vnets != [] {
      var init, last := vnets[..|vnets| - 1], vnets[|vnets| - 1];
      assert vnets == init + [last];
      SelectedVirtualNetworksAreBuilt(init, settings);
      var own := SubnetsResources(last.subnets) + [VirtualNetworkResource(last)];
      assert own[|own| - 1] == VirtualNetworkResource(last);
      assert VirtualNetworkResource(last) in BuildVirtualNetwork(last, settings).resources;
    }
  }

  lemma {:induction false} SelectedLoadBalancersAreBuilt(lbs: seq<MT.LoadBalancer>)
    ensures forall lb :: lb in lbs ==> LoadBalancerResource(lb) in LoadBalancersEmitted(lbs).resources
  {
    if lbs != [] {
      var init, last := lbs[..|lbs| - 1], lbs[|lbs| - 1];
      assert lbs == init + [last];
      SelectedLoadBalancersAreBuilt(init);
      var own := BuildLoadBalancer(last).resources;
      assert own[|own| - 1] == LoadBalancerResource(last);
    }
  }

  lemma {:induction false} SelectedStorageAccountsAreBuilt(accounts: seq<MT.StorageAccount>)
    ensures forall sa :: sa in accounts ==> StorageAccountResource(sa) in StorageAccountsEmitted(accounts).resources
  {
    if accounts != [] {
      var init, last := accounts[..|accounts| - 1], accounts[|accounts| - 1];
      assert accounts == init + [last];
      SelectedStorageAccountsAreBuilt(init);
    }
  }

  lemma {:induction false} SelectedMachinesAreBuilt(vms: seq<MT.VirtualMachine>, a: MT.ExportArtifacts, settings: MT.Settings,
                                                    source: Option<MT.Subscription>)
    requires CanBuildAllCopyBlobs(vms, settings)
    ensures forall vm :: vm in vms ==> VirtualMachineResource(vm, settings) in VirtualMachinesEmitted(vms, a, settings, source).resources
  {
    if vms != [] {
      var init, last := vms[..|vms| - 1], vms[|vms| - 1];
      assert vms == init + [last];
      SelectedMachinesAreBuilt(init, a, settings, source);
      var own := BuildVirtualMachine(last, a, settings, source).resources;
      assert own[|own| - 1] == VirtualMachineResource(last, settings);
    }
  }

  /** Every selected security group, network, load balancer, storage account and machine is in the template. */
  lemma EverySelectedResourceIsBuilt(a: MT.ExportArtifacts, settings: MT.Settings, source: Option<MT.Subscription>)
    requires CanBuildAllCopyBlobs(a.virtualMachines, settings)
    ensures var out := Generate(a, settings, source).resources;
      && (forall nsg :: nsg in a.networkSecurityGroups ==> NetworkSecurityGroupResource(nsg) in out)
      && (forall vnet :: vnet in a.virtualNetworks ==> VirtualNetworkResource(vnet) in out)
      && (forall lb :: lb in a.loadBalancers ==> LoadBalancerResource(lb) in out)
      && (forall sa :: sa in a.storageAccounts ==> StorageAccountResource(sa) in out)
      && (forall vm :: vm in a.virtualMachines ==> VirtualMachineResource(vm, settings) in out)
  {
    SelectedSecurityGroupsAreBuilt(a.networkSecurityGroups);
    SelectedVirtualNetworksAreBuilt(a.virtualNetworks, settings);
    SelectedLoadBalancersAreBuilt(a.loadBalancers);
    SelectedStorageAccountsAreBuilt(a.storageAccounts);
    SelectedMachinesAreBuilt(a.virtualMachines, a, settings, source);
  }

  // ---------------------------------------------------------------------
  // Copy-blob manifest
  // ---------------------------------------------------------------------

  lemma {:induction false} LocalSitesCopyNothing(asm: MT.AsmVirtualNetwork, sites: seq<MT.LocalNetworkSite>, gateway: string)
    ensures LocalSites(asm, sites, gateway).copyBlobs == []
  {
    if sites != [] {
      LocalSitesCopyNothing(asm, sites[..|sites| - 1], gateway);
    }
  }

  lemma {:induction false} VirtualNetworksCopyNothing(vnets: seq<MT.VirtualNetwork>, settings: MT.Settings)
    ensures VirtualNetworksEmitted(vnets, settings).copyBlobs == []
  {
    if vnets != [] {
      VirtualNetworksCopyNothing(vnets[..|vnets| - 1], settings);
      var last := vnets[|vnets| - 1];
      if last.source.AsmSource? {
        LocalSitesCopyNothing(last.source.asm, last.source.asm.localNetworkSites, GatewayName(last, settings));
      }
    }
  }

  lemma {:induction false} OtherCategoriesCopyNothing(a: MT.ExportArtifacts)
    ensures NetworkSecurityGroupsEmitted(a.networkSecurityGroups).copyBlobs == []
    ensures LoadBalancersEmitted(a.loadBalancers).copyBlobs == []
    ensures StorageAccountsEmitted(a.storageAccounts).copyBlobs == []
  {
    NsgsCopyNothing(a.networkSecurityGroups);
    LoadBalancersCopyNothing(a.loadBalancers);
    StorageAccountsCopyNothing(a.storageAccounts);
  }

  lemma {:induction false} NsgsCopyNothing(nsgs: seq<MT.NetworkSecurityGroup>)
    ensures NetworkSecurityGroupsEmitted(nsgs).copyBlobs == []
  {
    if nsgs != [] {
      NsgsCopyNothing(nsgs[..|nsgs| - 1]);
    }
  }

  lemma {:induction false} LoadBalancersCopyNothing(lbs: seq<MT.LoadBalancer>)
    ensures LoadBalancersEmitted(lbs).copyBlobs == []
  {
    if lbs != [] {
      LoadBalancersCopyNothing(lbs[..|lbs| - 1]);
    }
  }

  lemma {:induction false} StorageAccountsCopyNothing(accounts: seq<MT.StorageAccount>)
    ensures StorageAccountsEmitted(accounts).copyBlobs == []
  {
    if accounts != [] {
      StorageAccountsCopyNothing(accounts[..|accounts| - 1]);
    }
  }

  lemma {:induction false} NetworkInterfacesCopyNothing(nics: seq<MT.NetworkInterface>, a: MT.ExportArtifacts)
    ensures BuildNetworkInterfaces(nics, a).copyBlobs == []
  {
    if nics != [] {
      NetworkInterfacesCopyNothing(nics[..|nics| - 1], a);
    }
  }

  /** The disks a machine copies when not built empty: the OS disk and each data disk with a target account. */
  function CopiedDisks(vms: seq<MT.VirtualMachine>): nat {
    if vms == [] then 0
    else CopiedDisks(vms[..|vms| - 1]) + 1 + |CP.DisksWithStorage(vms[|vms| - 1].dataDisks)|
  }

  lemma {:induction false} MachinesCopyTheirDisks(vms: seq<MT.VirtualMachine>, a: MT.ExportArtifacts, settings: MT.Settings,
                                                  source: Option<MT.Subscription>)
    requires CanBuildAllCopyBlobs(vms, settings)
    ensures |VirtualMachinesEmitted(vms, a, settings, source).copyBlobs| == if settings.buildEmpty then 0 else CopiedDisks(vms)
  {
    if vms != [] {
      var last := vms[|vms| - 1];
      MachinesCopyTheirDisks(vms[..|vms| - 1], a, settings, source);
      NetworkInterfacesCopyNothing(last.networkInterfaces, a);
      CP.DataDisksAreTheDisksWithStorage(last.dataDisks, settings, source);
    }
  }

  /**
   * The manifest has no entry when machines are built empty, and otherwise
   * one per copied disk: each machine's OS disk and its data disks with a
   * target storage account.
   */
  lemma CopyBlobManifestCountsCopiedDisks(a: MT.ExportArtifacts, settings: MT.Settings, source: Option<MT.Subscription>)
    requires CanBuildAllCopyBlobs(a.virtualMachines, settings)
    ensures |Generate(a, settings, source).copyBlobs| == if settings.buildEmpty then 0 else CopiedDisks(a.virtualMachines)
  {
    OtherCategoriesCopyNothing(a);
    VirtualNetworksCopyNothing(a.virtualNetworks, settings);
    MachinesCopyTheirDisks(a.virtualMachines, a, settings, source);
  }

  // ---------------------------------------------------------------------
  // Parameters
  // ---------------------------------------------------------------------

  /** The admin credentials are added once when machines are built empty, and nothing else changes. */
  lemma {:induction false} AdminParametersAddedOnce(vms: seq<MT.VirtualMachine>, settings: MT.Settings, parameters: map<string, Parameter>)
    ensures ParametersAfter(vms, settings, parameters) ==
              if settings.buildEmpty && |vms| > 0 then AdminParameters(parameters) else parameters
  {
    if vms != [] {
      AdminParametersAddedOnce(vms[..|vms| - 1], settings, parameters);
      CP.AdminParametersIdempotent(parameters);
    }
  }

  // ---------------------------------------------------------------------
  // Valid selections
  // ---------------------------------------------------------------------

  /** A selection that passes validation can be generated: every OS disk has a target storage account. */
  lemma ValidSelectionCanBeGenerated(a: MT.ExportArtifacts, settings: MT.Settings)
    requires V.SelectionIsValid(a)
    ensures CanBuildAllCopyBlobs(a.virtualMachines, settings)
  {
    forall vm | vm in a.virtualMachines
      ensures CanBuildCopyBlobs(vm, settings)
    {
      CP.ValidMachineCanBeCopied(vm, a.virtualNetworks, a.storageAccounts, settings);
    }
  }

  /**
   * In a valid selection every storage account a machine depends on is a
   * selected storage account, and so a resource of the template.
   */
  lemma StorageDependenciesOfValidSelectionAreBuilt(a: MT.ExportArtifacts, settings: MT.Settings, source: Option<MT.Subscription>,
                                                     vm: MT.VirtualMachine, id: string)
    requires V.SelectionIsValid(a)
    requires vm in a.virtualMachines
    requires id in StorageDependsOn(StorageDependencies(vm))
    ensures CanBuildAllCopyBlobs(a.virtualMachines, settings)
    ensures exists sa :: sa in a.storageAccounts && id == StorageAccountId(sa.name)
                         && StorageAccountResource(sa) in Generate(a, settings, source).resources
  {
    ValidSelectionCanBeGenerated(a, settings);
    CP.MachineDependsOnItsMigratedStorage(vm, id);
    var t :| CP.UsesStorage(vm, t) && t.InMigrationStorage? && id == StorageAccountId(t.Name());
    assert V.MachineIsValid(vm, a.virtualNetworks, a.storageAccounts);
    var target := if vm.osVirtualHardDisk.targetStorageAccount == Some(t) then vm.osVirtualHardDisk.targetStorageAccount
      else var d :| d in vm.dataDisks && d.targetStorageAccount == Some(t); d.targetStorageAccount;
    assert V.StorageIsSelected(target, a.storageAccounts);
    var sa :| sa in a.storageAccounts && sa.name == t.account.name;
    EverySelectedResourceIsBuilt(a, settings, source);
  }

  // ---------------------------------------------------------------------
  // Duplicate security groups
  // ---------------------------------------------------------------------

  // Proof glue about Count, used by SharedSecurityGroupIsEmittedTwice; these
  // state no property of the generator.

  lemma {:induction false} CountOfConcatenation<T>(s: seq<T>, t: seq<T>, x: T)
    ensures Count(s + t, x) == Count(s, x) + Count(t, x)
    decreases |t|
  {
    if t != [] {
      var init := t[..|t| - 1];
      assert (s + t)[..|s + t| - 1] == s + init;
      assert (s + t)[|s + t| - 1] == t[|t| - 1];
      CountOfConcatenation(s, init, x);
    } else {
      assert s + t == s;
    }
  }

  lemma {:induction false} CountOfMember<T>(s: seq<T>, x: T)
    requires x in s
    ensures Count(s, x) >= 1
  {
    var init := s[..|s| - 1];
    assert s == init + [s[|s| - 1]];
    if s[|s| - 1] != x {
      CountOfMember(init, x);
    }
  }

  /** An element of two of three concatenated parts occurs at least twice. */
  lemma CountInTwoParts<T>(s: seq<T>, t: seq<T>, u: seq<T>, x: T)
    requires x in s && x in t
    ensures Count(s + t + u, x) >= 2
  {
    CountOfMember(s, x);
    CountOfMember(t, x);
    CountOfConcatenation(s, t, x);
    CountOfConcatenation(s + t, u, x);
  }

  lemma {:induction false} SubnetSecurityGroupsAreBuilt(subnets: seq<MT.Subnet>, nsg: MT.NetworkSecurityGroup)
    requires exists s :: s in subnets && s.networkSecurityGroup == Some(nsg)
    ensures NetworkSecurityGroupResource(nsg) in SubnetsResources(subnets)
  {
    var init, last := subnets[..|subnets| - 1], subnets[|subnets| - 1];
    assert subnets == init + [last];
    if last.networkSecurityGroup != Some(nsg) {
      SubnetSecurityGroupsAreBuilt(init, nsg);
    } else {
      assert SubnetResources(last)[0] == NetworkSecurityGroupResource(nsg);
    }
  }

  lemma {:induction false} SubnetSecurityGroupsInNetworks(vnets: seq<MT.VirtualNetwork>, settings: MT.Settings, vnet: MT.VirtualNetwork,
                                                          nsg: MT.NetworkSecurityGroup)
    requires vnet in vnets
    requires exists s :: s in vnet.subnets && s.networkSecurityGroup == Some(nsg)
    ensures NetworkSecurityGroupResource(nsg) in VirtualNetworksEmitted(vnets, settings).resources
  {
    var init, last := vnets[..|vnets| - 1], vnets[|vnets| - 1];
    assert vnets == init + [last];
    if last != vnet {
      SubnetSecurityGroupsInNetworks(init, settings, vnet, nsg);
    } else {
      SubnetSecurityGroupsAreBuilt(vnet.subnets, nsg);
    }
  }

  /**
   * The builders do not deduplicate: a security group that is selected and
   * also attached to a subnet of a selected network is emitted twice.
   */
  lemma SharedSecurityGroupIsEmittedTwice(a: MT.ExportArtifacts, settings: MT.Settings, source: Option<MT.Subscription>,
                                          vnet: MT.VirtualNetwork, nsg: MT.NetworkSecurityGroup)
    requires CanBuildAllCopyBlobs(a.virtualMachines, settings)
    requires nsg in a.networkSecurityGroups && vnet in a.virtualNetworks
    requires exists s :: s in vnet.subnets && s.networkSecurityGroup == Some(nsg)
    ensures Count(Generate(a, settings, source).resources, NetworkSecurityGroupResource(nsg)) >= 2
  {
    var first := NetworkSecurityGroupsEmitted(a.networkSecurityGroups).resources;
    var second := VirtualNetworksEmitted(a.virtualNetworks, settings).resources;
    var rest := LoadBalancersEmitted(a.loadBalancers).resources + StorageAccountsEmitted(a.storageAccounts).resources
                + VirtualMachinesEmitted(a.virtualMachines, a, settings, source).resources;
    GenerateResourcesInOrder(a, settings, source);
    SelectedSecurityGroupsAreBuilt(a.networkSecurityGroups);
    SubnetSecurityGroupsInNetworks(a.virtualNetworks, settings, vnet, nsg);
    CountInTwoParts(first, second, rest, NetworkSecurityGroupResource(nsg));
  }

  /** The template lists the categories' resources one after the other. */
  lemma GenerateResourcesInOrder(a: MT.ExportArtifacts, settings: MT.Settings, source: Option<MT.Subscription>)
    requires CanBuildAllCopyBlobs(a.virtualMachines, settings)
    ensures Generate(a, settings, source).resources ==
              NetworkSecurityGroupsEmitted(a.networkSecurityGroups).resources
              + VirtualNetworksEmitted(a.virtualNetworks, settings).resources
              + (LoadBalancersEmitted(a.loadBalancers).resources + StorageAccountsEmitted(a.storageAccounts).resources
                 + VirtualMachinesEmitted(a.virtualMachines, a, settings, source).resources)
  {
    GenerateIsCategoryByCategory(a, settings, source);
    ResourcesOfFiveSteps(
      NetworkSecurityGroupsEmitted(a.networkSecurityGroups), VirtualNetworksEmitted(a.virtualNetworks, settings),
      LoadBalancersEmitted(a.loadBalancers), StorageAccountsEmitted(a.storageAccounts),
      VirtualMachinesEmitted(a.virtualMachines, a, settings, source));
  }

  /** Proof glue: unfolds Generate into its five category steps. */
  lemma GenerateIsCategoryByCategory(a: MT.ExportArtifacts, settings: MT.Settings, source: Option<MT.Subscription>)
    requires CanBuildAllCopyBlobs(a.virtualMachines, settings)
    ensures Generate(a, settings, source) ==
              NetworkSecurityGroupsEmitted(a.networkSecurityGroups)
                .Then(VirtualNetworksEmitted(a.virtualNetworks, settings))
                .Then(LoadBalancersEmitted(a.loadBalancers))
                .Then(StorageAccountsEmitted(a.storageAccounts))
                .Then(VirtualMachinesEmitted(a.virtualMachines, a, settings, source))
  {
  }

  /** Proof glue: the resources of chained steps are their concatenation. */
  lemma ResourcesOfFiveSteps(e1: Emitted, e2: Emitted, e3: Emitted, e4: Emitted, e5: Emitted)
    ensures e1.Then(e2).Then(e3).Then(e4).Then(e5).resources
              == e1.resources + e2.resources + (e3.resources + e4.resources + e5.resources)
  {
  }
}
