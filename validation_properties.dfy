/**
 * What the validator's alert list means: which alerts appear for which parts
 * of the selection, and that the list is empty exactly when the selection
 * satisfies every rule UpdateArtifacts checks.
 */
module ValidationProperties {
  import opened Wrappers
  import opened MigrationTarget
  import A = ArmTemplate
  import opened Validation

  // ---------------------------------------------------------------------
  // The rules, stated independently of the alert functions
  // ---------------------------------------------------------------------

  predicate IpConfigurationIsValid(ipc: NetworkInterfaceIpConfiguration, vnets: seq<VirtualNetwork>) {
    && ipc.targetVirtualNetwork.Some?
    && (ipc.targetVirtualNetwork.value.InMigrationVirtualNetwork? ==>
          exists v :: v in vnets && v.name == ipc.targetVirtualNetwork.value.name)
    && ipc.targetSubnet.Some?
  }

  /** A target storage account is set and, when it belongs to this migration, selected. */
  predicate StorageIsSelected(t: Option<StorageTarget>, accounts: seq<StorageAccount>) {
    && t.Some?
    && (t.value.InMigrationStorage? ==> exists s :: s in accounts && s.name == t.value.account.name)
  }

  /** Outside an availability set, some disk with a known target account is not on premium storage. */
  predicate SlaAtRisk(vm: VirtualMachine) {
    && vm.targetAvailabilitySet.None?
    && (NotOnPremium(vm.osVirtualHardDisk) || exists d :: d in vm.dataDisks && NotOnPremium(d))
  }

  predicate MachineIsValid(vm: VirtualMachine, vnets: seq<VirtualNetwork>, accounts: seq<StorageAccount>) {
    && vm.name != ""
    && !SlaAtRisk(vm)
    && (forall nic, ipc :: nic in vm.networkInterfaces && ipc in nic.ipConfigurations ==> IpConfigurationIsValid(ipc, vnets))
    && StorageIsSelected(vm.osVirtualHardDisk.targetStorageAccount, accounts)
    && (forall d :: d in vm.dataDisks ==> StorageIsSelected(d.targetStorageAccount, accounts))
  }

  predicate LoadBalancerIsValid(lb: LoadBalancer) {
    && lb.name != ""
    && |lb.frontEndIpConfigurations| > 0
    && (lb.frontEndIpConfigurations[0].publicIp.Some? || lb.frontEndIpConfigurations[0].targetSubnet.Some?)
  }

  predicate SelectionIsValid(a: ExportArtifacts) {
    && a.resourceGroup.Some? && a.resourceGroup.value.targetLocation.Some?
    && (forall nsg :: nsg in a.networkSecurityGroups ==> nsg.name != "")
    && (forall lb :: lb in a.loadBalancers ==> LoadBalancerIsValid(lb))
    && (forall vm :: vm in a.virtualMachines ==> MachineIsValid(vm, a.virtualNetworks, a.storageAccounts))
  }

  // ---------------------------------------------------------------------
  // Membership in the concatenated lists
  // ---------------------------------------------------------------------

  lemma {:induction false} NsgsAlertsMembership(nsgs: seq<NetworkSecurityGroup>, al: A.Alert)
    ensures al in NsgsAlerts(nsgs) <==> exists nsg :: nsg in nsgs && al in NsgAlerts(nsg)
  {
    if nsgs != [] {
      var init, last := nsgs[..|nsgs| - 1], nsgs[|nsgs| - 1];
      assert nsgs == init + [last];
      NsgsAlertsMembership(init, al);
    }
  }

  lemma {:induction false} LoadBalancersAlertsMembership(lbs: seq<LoadBalancer>, al: A.Alert)
    ensures al in LoadBalancersAlerts(lbs) <==> exists lb :: lb in lbs && al in LoadBalancerAlerts(lb)
  {
    if lbs != [] {
      var init, last := lbs[..|lbs| - 1], lbs[|lbs| - 1];
      assert lbs == init + [last];
      LoadBalancersAlertsMembership(init, al);
    }
  }

  lemma {:induction false} VirtualMachinesAlertsMembership(vms: seq<VirtualMachine>, vnets: seq<VirtualNetwork>, accounts: seq<StorageAccount>, al: A.Alert)
    ensures al in VirtualMachinesAlerts(vms, vnets, accounts) <==>
              exists vm :: vm in vms && al in VirtualMachineAlerts(vm, vnets, accounts)
  {
    if vms != [] {
      var init, last := vms[..|vms| - 1], vms[|vms| - 1];
      assert vms == init + [last];
      VirtualMachinesAlertsMembership(init, vnets, accounts, al);
    }
  }

  lemma {:induction false} NetworkInterfacesAlertsMembership(vm: string, nics: seq<NetworkInterface>, vnets: seq<VirtualNetwork>, al: A.Alert)
    ensures al in NetworkInterfacesAlerts(vm, nics, vnets) <==>
              exists nic :: nic in nics && al in IpConfigurationsAlerts(vm, nic.name, nic.ipConfigurations, vnets)
  {
    if nics != [] {
      var init, last := nics[..|nics| - 1], nics[|nics| - 1];
      assert nics == init + [last];
      NetworkInterfacesAlertsMembership(vm, init, vnets, al);
    }
  }

  lemma {:induction false} IpConfigurationsAlertsMembership(vm: string, nic: string, ipcs: seq<NetworkInterfaceIpConfiguration>, vnets: seq<VirtualNetwork>, al: A.Alert)
    ensures al in IpConfigurationsAlerts(vm, nic, ipcs, vnets) <==>
              exists ipc :: ipc in ipcs && al in IpConfigurationAlerts(vm, nic, ipc, vnets)
  {
    if ipcs != [] {
      var init, last := ipcs[..|ipcs| - 1], ipcs[|ipcs| - 1];
      assert ipcs == init + [last];
      IpConfigurationsAlertsMembership(vm, nic, init, vnets, al);
    }
  }

  lemma {:induction false} DataDiskStorageAlertsMembership(vm: string, disks: seq<Disk>, accounts: seq<StorageAccount>, al: A.Alert)
    ensures al in DataDiskStorageAlerts(vm, disks, accounts) <==>
              exists d :: d in disks && al in DataDiskStorageAlert(vm, d, accounts)
  {
    if disks != [] {
      var init, last := disks[..|disks| - 1], disks[|disks| - 1];
      assert disks == init + [last];
      DataDiskStorageAlertsMembership(vm, init, accounts, al);
    }
  }

  /** The data-disk SLA warnings: one per disk on known non-premium storage, all about the machine. */
  lemma {:induction false} DataDiskSlaWarningsMembership(vm: string, disks: seq<Disk>, al: A.Alert)
    ensures al in DataDiskSlaWarnings(vm, disks) <==>
              exists d :: d in disks && NotOnPremium(d)
                && al == A.Alert(A.Warning, A.DataDiskSla(vm, d.name), A.VirtualMachineSubject(vm))
  {
    if disks != [] {
      var init, last := disks[..|disks| - 1], disks[|disks| - 1];
      assert disks == init + [last];
      DataDiskSlaWarningsMembership(vm, init, al);
    }
  }

  // ---------------------------------------------------------------------
  // Which parts can produce which alerts
  // ---------------------------------------------------------------------

  lemma {:induction false} NsgsAlertsAreNsgErrors(nsgs: seq<NetworkSecurityGroup>)
    ensures forall al :: al in NsgsAlerts(nsgs) ==>
              al.alertType == A.Error && al.subject.NetworkSecurityGroupSubject?
  {
    if nsgs != [] {
      NsgsAlertsAreNsgErrors(nsgs[..|nsgs| - 1]);
    }
  }

  lemma {:induction false} LoadBalancersAlertsAreLoadBalancerErrors(lbs: seq<LoadBalancer>)
    ensures forall al :: al in LoadBalancersAlerts(lbs) ==>
              al.alertType == A.Error && al.subject.LoadBalancerSubject?
  {
    if lbs != [] {
      LoadBalancersAlertsAreLoadBalancerErrors(lbs[..|lbs| - 1]);
    }
  }

  lemma {:induction false} IpConfigurationsAlertsAreNicErrors(vm: string, nic: string, ipcs: seq<NetworkInterfaceIpConfiguration>, vnets: seq<VirtualNetwork>)
    ensures forall al :: al in IpConfigurationsAlerts(vm, nic, ipcs, vnets) ==>
              al.alertType == A.Error && al.subject == A.NetworkInterfaceSubject(nic)
  {
    if ipcs != [] {
      IpConfigurationsAlertsAreNicErrors(vm, nic, ipcs[..|ipcs| - 1], vnets);
    }
  }

  lemma {:induction false} NetworkInterfacesAlertsAreNicErrors(vm: string, nics: seq<NetworkInterface>, vnets: seq<VirtualNetwork>)
    ensures forall al :: al in NetworkInterfacesAlerts(vm, nics, vnets) ==>
              al.alertType == A.Error && al.subject.NetworkInterfaceSubject?
  {
    if nics != [] {
      var last := nics[|nics| - 1];
      NetworkInterfacesAlertsAreNicErrors(vm, nics[..|nics| - 1], vnets);
      IpConfigurationsAlertsAreNicErrors(vm, last.name, last.ipConfigurations, vnets);
    }
  }

  lemma {:induction false} DataDiskStorageAlertsAreDiskErrors(vm: string, disks: seq<Disk>, accounts: seq<StorageAccount>)
    ensures forall al :: al in DataDiskStorageAlerts(vm, disks, accounts) ==>
              al.alertType == A.Error && al.subject.DiskSubject?
  {
    if disks != [] {
      DataDiskStorageAlertsAreDiskErrors(vm, disks[..|disks| - 1], accounts);
    }
  }

  lemma {:induction false} DataDiskSlaWarningsAreAboutTheMachine(vm: string, disks: seq<Disk>)
    ensures forall al :: al in DataDiskSlaWarnings(vm, disks) ==>
              al.alertType == A.Warning && al.subject == A.VirtualMachineSubject(vm)
  {
    if disks != [] {
      DataDiskSlaWarningsAreAboutTheMachine(vm, disks[..|disks| - 1]);
    }
  }

  /** Every alert of the virtual-machine part is about a machine, a NIC or a disk; its warnings are the SLA warnings. */
  lemma MachineAlertSubjects(vm: VirtualMachine, vnets: seq<VirtualNetwork>, accounts: seq<StorageAccount>, al: A.Alert)
    requires al in VirtualMachineAlerts(vm, vnets, accounts)
    ensures al.subject.VirtualMachineSubject? || al.subject.NetworkInterfaceSubject? || al.subject.DiskSubject?
    ensures al.alertType == A.Warning ==> al in SlaWarnings(vm)
  {
    NetworkInterfacesAlertsAreNicErrors(vm.name, vm.networkInterfaces, vnets);
    DataDiskStorageAlertsAreDiskErrors(vm.name, vm.dataDisks, accounts);
    DataDiskSlaWarningsAreAboutTheMachine(vm.name, vm.dataDisks);
  }

  /** Every alert of the virtual-machine part is about a machine, a NIC or a disk. */
  lemma {:induction false} VirtualMachinesAlertSubjects(vms: seq<VirtualMachine>, vnets: seq<VirtualNetwork>, accounts: seq<StorageAccount>)
    ensures forall al :: al in VirtualMachinesAlerts(vms, vnets, accounts) ==>
              al.subject.VirtualMachineSubject? || al.subject.NetworkInterfaceSubject? || al.subject.DiskSubject?
  {
    if vms != [] {
      var last := vms[|vms| - 1];
      VirtualMachinesAlertSubjects(vms[..|vms| - 1], vnets, accounts);
      forall al | al in VirtualMachineAlerts(last, vnets, accounts)
        ensures al.subject.VirtualMachineSubject? || al.subject.NetworkInterfaceSubject? || al.subject.DiskSubject?
      {
        MachineAlertSubjects(last, vnets, accounts, al);
      }
    }
  }

  /** The alert list is the resource-group, security-group, load-balancer and machine parts. */
  lemma ValidationAlertsParts(a: ExportArtifacts, al: A.Alert)
    ensures al in ValidationAlerts(a) <==>
              || al in ResourceGroupAlerts(a.resourceGroup)
              || al in NsgsAlerts(a.networkSecurityGroups)
              || al in LoadBalancersAlerts(a.loadBalancers)
              || al in VirtualMachinesAlerts(a.virtualMachines, a.virtualNetworks, a.storageAccounts)
  {
  }

  /** An alert about a load balancer comes from the load-balancer part. */
  lemma LoadBalancerSubjectsComeFromLoadBalancers(a: ExportArtifacts, al: A.Alert)
    requires al in ValidationAlerts(a) && al.subject.LoadBalancerSubject?
    ensures al in LoadBalancersAlerts(a.loadBalancers)
  {
    ValidationAlertsParts(a, al);
    NsgsAlertsAreNsgErrors(a.networkSecurityGroups);
    VirtualMachinesAlertSubjects(a.virtualMachines, a.virtualNetworks, a.storageAccounts);
  }

  // ---------------------------------------------------------------------
  // Properties of the alert list
  // ---------------------------------------------------------------------

  /** A missing resource group is reported first, and only then. */
  lemma MissingResourceGroupIsReportedFirst(a: ExportArtifacts)
    ensures a.resourceGroup.None? ==>
              ValidationAlerts(a)[0] == A.Alert(A.Error, A.NoResourceGroup, A.NoSubject)
    ensures A.Alert(A.Error, A.NoResourceGroup, A.NoSubject) in ValidationAlerts(a) <==> a.resourceGroup.None?
  {
    var al := A.Alert(A.Error, A.NoResourceGroup, A.NoSubject);
    ValidationAlertsParts(a, al);
    NsgsAlertsAreNsgErrors(a.networkSecurityGroups);
    LoadBalancersAlertsAreLoadBalancerErrors(a.loadBalancers);
    VirtualMachinesAlertSubjects(a.virtualMachines, a.virtualNetworks, a.storageAccounts);
  }

  /**
   * A resource group without a target location is reported first, with the
   * group as its subject, and that alert appears only then.
   */
  lemma MissingLocationIsReportedFirst(a: ExportArtifacts, n: string)
    ensures a.resourceGroup.Some? && a.resourceGroup.value.targetLocation.None? ==>
              ValidationAlerts(a)[0] == A.Alert(A.Error, A.NoResourceGroupLocation, A.ResourceGroupSubject(a.resourceGroup.value.name))
    ensures A.Alert(A.Error, A.NoResourceGroupLocation, A.ResourceGroupSubject(n)) in ValidationAlerts(a) <==>
              a.resourceGroup.Some? && a.resourceGroup.value.name == n && a.resourceGroup.value.targetLocation.None?
  {
    var al := A.Alert(A.Error, A.NoResourceGroupLocation, A.ResourceGroupSubject(n));
    ValidationAlertsParts(a, al);
    NsgsAlertsAreNsgErrors(a.networkSecurityGroups);
    LoadBalancersAlertsAreLoadBalancerErrors(a.loadBalancers);
    VirtualMachinesAlertSubjects(a.virtualMachines, a.virtualNetworks, a.storageAccounts);
  }

  /** A load balancer named n without front ends is reported, and no other load balancer causes that alert. */
  lemma MissingFrontEndIsReported(a: ExportArtifacts, n: string)
    ensures A.Alert(A.Error, A.NoFrontEnd, A.LoadBalancerSubject(n)) in ValidationAlerts(a) <==>
              exists lb :: lb in a.loadBalancers && lb.name == n && |lb.frontEndIpConfigurations| == 0
  {
    var al := A.Alert(A.Error, A.NoFrontEnd, A.LoadBalancerSubject(n));
    LoadBalancersAlertsMembership(a.loadBalancers, al);
    ValidationAlertsParts(a, al);
    if al in ValidationAlerts(a) {
      LoadBalancerSubjectsComeFromLoadBalancers(a, al);
    }
    forall lb | lb in a.loadBalancers
      ensures al in LoadBalancerAlerts(lb) <==> lb.name == n && |lb.frontEndIpConfigurations| == 0
    {
    }
  }

  /**
   * A load balancer whose first front end has neither a public IP nor a
   * subnet is reported, and only such a load balancer causes that alert.
   */
  lemma UnboundFrontEndIsReported(a: ExportArtifacts, n: string)
    ensures A.Alert(A.Error, A.NoFrontEndBinding, A.LoadBalancerSubject(n)) in ValidationAlerts(a) <==>
              exists lb :: lb in a.loadBalancers && lb.name == n && |lb.frontEndIpConfigurations| > 0
                && lb.frontEndIpConfigurations[0].publicIp.None? && lb.frontEndIpConfigurations[0].targetSubnet.None?
  {
    var al := A.Alert(A.Error, A.NoFrontEndBinding, A.LoadBalancerSubject(n));
    LoadBalancersAlertsMembership(a.loadBalancers, al);
    ValidationAlertsParts(a, al);
    if al in ValidationAlerts(a) {
      LoadBalancerSubjectsComeFromLoadBalancers(a, al);
    }
    forall lb | lb in a.loadBalancers
      ensures al in LoadBalancerAlerts(lb) <==>
                (lb.name == n && |lb.frontEndIpConfigurations| > 0
                 && lb.frontEndIpConfigurations[0].publicIp.None? && lb.frontEndIpConfigurations[0].targetSubnet.None?)
    {
    }
  }

  /** SlaWarnings is non-empty exactly for a machine whose SLA is at risk, and every warning is about it. */
  lemma SlaWarningsOfMachine(vm: VirtualMachine)
    ensures SlaWarnings(vm) != [] <==> SlaAtRisk(vm)
    ensures forall al :: al in SlaWarnings(vm) ==>
              al.alertType == A.Warning && al.subject == A.VirtualMachineSubject(vm.name)
  {
    DataDiskSlaWarningsAreAboutTheMachine(vm.name, vm.dataDisks);
    DataDiskSlaWarningsEmpty(vm.name, vm.dataDisks);
  }

  lemma {:induction false} DataDiskSlaWarningsEmpty(vm: string, disks: seq<Disk>)
    ensures DataDiskSlaWarnings(vm, disks) == [] <==> forall d :: d in disks ==> !NotOnPremium(d)
  {
    if disks != [] {
      var init, last := disks[..|disks| - 1], disks[|disks| - 1];
      assert disks == init + [last];
      DataDiskSlaWarningsEmpty(vm, init);
    }
  }

  /** A warning in the alert list comes from the SLA check of a machine. */
  lemma WarningsComeFromSlaChecks(a: ExportArtifacts, al: A.Alert)
    requires al in ValidationAlerts(a) && al.alertType == A.Warning
    ensures exists vm :: vm in a.virtualMachines && al in SlaWarnings(vm)
  {
    var vnets, accounts := a.virtualNetworks, a.storageAccounts;
    NsgsAlertsAreNsgErrors(a.networkSecurityGroups);
    LoadBalancersAlertsAreLoadBalancerErrors(a.loadBalancers);
    assert al in VirtualMachinesAlerts(a.virtualMachines, vnets, accounts);
    VirtualMachinesAlertsMembership(a.virtualMachines, vnets, accounts, al);
    var vm :| vm in a.virtualMachines && al in VirtualMachineAlerts(vm, vnets, accounts);
    MachineAlertSubjects(vm, vnets, accounts, al);
  }

  /** A machine whose SLA is at risk has its warnings in the alert list. */
  lemma UnprotectedMachineIsWarned(a: ExportArtifacts, vm: VirtualMachine)
    requires vm in a.virtualMachines && SlaAtRisk(vm)
    ensures SlaWarnings(vm) != [] && SlaWarnings(vm)[0] in ValidationAlerts(a)
  {
    var vnets, accounts := a.virtualNetworks, a.storageAccounts;
    SlaWarningsOfMachine(vm);
    var al := SlaWarnings(vm)[0];
    assert al in VirtualMachineAlerts(vm, vnets, accounts);
    VirtualMachinesAlertsMembership(a.virtualMachines, vnets, accounts, al);
  }

  /**
   * A warning about machine n appears exactly when a selected machine named n
   * is outside any availability set and has a disk on known non-premium storage.
   */
  lemma SlaWarningsExactlyForUnprotectedMachines(a: ExportArtifacts, n: string)
    ensures (exists al :: al in ValidationAlerts(a) && al.alertType == A.Warning && al.subject == A.VirtualMachineSubject(n)) <==>
              exists vm :: vm in a.virtualMachines && vm.name == n && SlaAtRisk(vm)
  {
    if al :| al in ValidationAlerts(a) && al.alertType == A.Warning && al.subject == A.VirtualMachineSubject(n) {
      WarningsComeFromSlaChecks(a, al);
      var vm :| vm in a.virtualMachines && al in SlaWarnings(vm);
      SlaWarningsOfMachine(vm);
    }
    if vm :| vm in a.virtualMachines && vm.name == n && SlaAtRisk(vm) {
      UnprotectedMachineIsWarned(a, vm);
      SlaWarningsOfMachine(vm);
      assert SlaWarnings(vm)[0] in SlaWarnings(vm);
    }
  }

  /** A NIC ip configuration without a target network is reported against that NIC. */
  lemma MissingTargetNetworkIsReported(a: ExportArtifacts, vm: VirtualMachine, nic: NetworkInterface, ipc: NetworkInterfaceIpConfiguration)
    requires vm in a.virtualMachines && nic in vm.networkInterfaces && ipc in nic.ipConfigurations
    requires ipc.targetVirtualNetwork.None?
    ensures A.Alert(A.Error, A.NoVirtualNetwork(vm.name, nic.name), A.NetworkInterfaceSubject(nic.name)) in ValidationAlerts(a)
  {
    var al := A.Alert(A.Error, A.NoVirtualNetwork(vm.name, nic.name), A.NetworkInterfaceSubject(nic.name));
    assert al in IpConfigurationAlerts(vm.name, nic.name, ipc, a.virtualNetworks);
    IpConfigurationsAlertsMembership(vm.name, nic.name, nic.ipConfigurations, a.virtualNetworks, al);
    NetworkInterfacesAlertsMembership(vm.name, vm.networkInterfaces, a.virtualNetworks, al);
    VirtualMachinesAlertsMembership(a.virtualMachines, a.virtualNetworks, a.storageAccounts, al);
  }

  /**
   * A NIC bound to a network of this migration that is not selected is
   * reported (with the corrected name comparison).
   */
  lemma UnselectedTargetNetworkIsReported(a: ExportArtifacts, vm: VirtualMachine, nic: NetworkInterface, ipc: NetworkInterfaceIpConfiguration, vnet: string, id: string)
    requires vm in a.virtualMachines && nic in vm.networkInterfaces && ipc in nic.ipConfigurations
    requires ipc.targetVirtualNetwork == Some(InMigrationVirtualNetwork(vnet, id))
    requires forall v :: v in a.virtualNetworks ==> v.name != vnet
    ensures A.Alert(A.Error, A.VirtualNetworkNotIncluded(vnet, vm.name, nic.name), A.NetworkInterfaceSubject(nic.name)) in ValidationAlerts(a)
  {
    var al := A.Alert(A.Error, A.VirtualNetworkNotIncluded(vnet, vm.name, nic.name), A.NetworkInterfaceSubject(nic.name));
    assert !VirtualNetworkListed(vnet, a.virtualNetworks);
    assert al in IpConfigurationAlerts(vm.name, nic.name, ipc, a.virtualNetworks);
    IpConfigurationsAlertsMembership(vm.name, nic.name, nic.ipConfigurations, a.virtualNetworks, al);
    NetworkInterfacesAlertsMembership(vm.name, vm.networkInterfaces, a.virtualNetworks, al);
    VirtualMachinesAlertsMembership(a.virtualMachines, a.virtualNetworks, a.storageAccounts, al);
  }

  /** An OS disk whose storage account belongs to this migration but is not selected is reported. */
  lemma UnselectedOsDiskStorageIsReported(a: ExportArtifacts, vm: VirtualMachine, sa: StorageAccount)
    requires vm in a.virtualMachines
    requires vm.osVirtualHardDisk.targetStorageAccount == Some(InMigrationStorage(sa))
    requires forall s :: s in a.storageAccounts ==> s.name != sa.name
    ensures A.Alert(A.Error, A.OsDiskStorageNotIncluded(sa.name, vm.name), A.VirtualMachineSubject(vm.name)) in ValidationAlerts(a)
  {
    var al := A.Alert(A.Error, A.OsDiskStorageNotIncluded(sa.name, vm.name), A.VirtualMachineSubject(vm.name));
    assert !StorageAccountListed(sa.name, a.storageAccounts);
    assert al in VirtualMachineAlerts(vm, a.virtualNetworks, a.storageAccounts);
    VirtualMachinesAlertsMembership(a.virtualMachines, a.virtualNetworks, a.storageAccounts, al);
  }

  // ---------------------------------------------------------------------
  // No alerts exactly for a valid selection
  // ---------------------------------------------------------------------

  lemma {:induction false} NsgsAlertsEmpty(nsgs: seq<NetworkSecurityGroup>)
    ensures NsgsAlerts(nsgs) == [] <==> forall nsg :: nsg in nsgs ==> nsg.name != ""
  {
    if nsgs != [] {
      var init, last := nsgs[..|nsgs| - 1], nsgs[|nsgs| - 1];
      assert nsgs == init + [last];
      NsgsAlertsEmpty(init);
    }
  }

  lemma {:induction false} LoadBalancersAlertsEmpty(lbs: seq<LoadBalancer>)
    ensures LoadBalancersAlerts(lbs) == [] <==> forall lb :: lb in lbs ==> LoadBalancerIsValid(lb)
  {
    if lbs != [] {
      var init, last := lbs[..|lbs| - 1], lbs[|lbs| - 1];
      assert lbs == init + [last];
      LoadBalancersAlertsEmpty(init);
      assert LoadBalancerAlerts(last) == [] <==> LoadBalancerIsValid(last);
      assert (forall lb :: lb in lbs ==> LoadBalancerIsValid(lb)) <==>
               (forall lb :: lb in init ==> LoadBalancerIsValid(lb)) && LoadBalancerIsValid(last);
    }
  }

  lemma IpConfigurationAlertsEmpty(vm: string, nic: string, ipc: NetworkInterfaceIpConfiguration, vnets: seq<VirtualNetwork>)
    ensures IpConfigurationAlerts(vm, nic, ipc, vnets) == [] <==> IpConfigurationIsValid(ipc, vnets)
  {
    if ipc.targetVirtualNetwork.Some? && ipc.targetVirtualNetwork.value.InMigrationVirtualNetwork? {
      var name := ipc.targetVirtualNetwork.value.name;
      if VirtualNetworkListed(name, vnets) {
        var i :| 0 <= i < |vnets| && vnets[i].name == name;
        assert vnets[i] in vnets;
      }
    }
  }

  lemma {:induction false} IpConfigurationsAlertsEmpty(vm: string, nic: string, ipcs: seq<NetworkInterfaceIpConfiguration>, vnets: seq<VirtualNetwork>)
    ensures IpConfigurationsAlerts(vm, nic, ipcs, vnets) == [] <==> forall ipc :: ipc in ipcs ==> IpConfigurationIsValid(ipc, vnets)
  {
    if ipcs != [] {
      var init, last := ipcs[..|ipcs| - 1], ipcs[|ipcs| - 1];
      assert ipcs == init + [last];
      IpConfigurationsAlertsEmpty(vm, nic, init, vnets);
      IpConfigurationAlertsEmpty(vm, nic, last, vnets);
      assert (forall ipc :: ipc in ipcs ==> IpConfigurationIsValid(ipc, vnets)) <==>
               (forall ipc :: ipc in init ==> IpConfigurationIsValid(ipc, vnets)) && IpConfigurationIsValid(last, vnets);
    }
  }

  lemma {:induction false} NetworkInterfacesAlertsEmpty(vm: string, nics: seq<NetworkInterface>, vnets: seq<VirtualNetwork>)
    ensures NetworkInterfacesAlerts(vm, nics, vnets) == [] <==>
              forall nic, ipc :: nic in nics && ipc in nic.ipConfigurations ==> IpConfigurationIsValid(ipc, vnets)
  {
    if nics != [] {
      var init, last := nics[..|nics| - 1], nics[|nics| - 1];
      assert nics == init + [last];
      NetworkInterfacesAlertsEmpty(vm, init, vnets);
      IpConfigurationsAlertsEmpty(vm, last.name, last.ipConfigurations, vnets);
    }
  }

  lemma {:induction false} DataDiskStorageAlertsEmpty(vm: string, disks: seq<Disk>, accounts: seq<StorageAccount>)
    ensures DataDiskStorageAlerts(vm, disks, accounts) == [] <==>
              forall d :: d in disks ==> StorageIsSelected(d.targetStorageAccount, accounts)
  {
    if disks != [] {
      var init, last := disks[..|disks| - 1], disks[|disks| - 1];
      assert disks == init + [last];
      DataDiskStorageAlertsEmpty(vm, init, accounts);
    }
  }

  lemma MachineAlertsEmpty(vm: VirtualMachine, vnets: seq<VirtualNetwork>, accounts: seq<StorageAccount>)
    ensures VirtualMachineAlerts(vm, vnets, accounts) == [] <==> MachineIsValid(vm, vnets, accounts)
  {
    SlaWarningsOfMachine(vm);
    NetworkInterfacesAlertsEmpty(vm.name, vm.networkInterfaces, vnets);
    DataDiskStorageAlertsEmpty(vm.name, vm.dataDisks, accounts);
  }

  lemma {:induction false} VirtualMachinesAlertsEmpty(vms: seq<VirtualMachine>, vnets: seq<VirtualNetwork>, accounts: seq<StorageAccount>)
    ensures VirtualMachinesAlerts(vms, vnets, accounts) == [] <==> forall vm :: vm in vms ==> MachineIsValid(vm, vnets, accounts)
  {
    if vms != [] {
      var init, last := vms[..|vms| - 1], vms[|vms| - 1];
      assert vms == init + [last];
      VirtualMachinesAlertsEmpty(init, vnets, accounts);
      MachineAlertsEmpty(last, vnets, accounts);
    }
  }

  /** UpdateArtifacts reports nothing exactly when the selection satisfies every rule. */
  lemma NoAlertsExactlyForValidSelection(a: ExportArtifacts)
    ensures ValidationAlerts(a) == [] <==> SelectionIsValid(a)
  {
    var rg := ResourceGroupAlerts(a.resourceGroup);
    var nsgs := NsgsAlerts(a.networkSecurityGroups);
    var lbs := LoadBalancersAlerts(a.loadBalancers);
    var vms := VirtualMachinesAlerts(a.virtualMachines, a.virtualNetworks, a.storageAccounts);
    assert ValidationAlerts(a) == rg + nsgs + lbs + vms;
    assert |ValidationAlerts(a)| == |rg| + |nsgs| + |lbs| + |vms|;
    NsgsAlertsEmpty(a.networkSecurityGroups);
    LoadBalancersAlertsEmpty(a.loadBalancers);
    VirtualMachinesAlertsEmpty(a.virtualMachines, a.virtualNetworks, a.storageAccounts);
  }
}
