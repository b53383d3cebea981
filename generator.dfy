/**
 * The generator object: the selection it last validated, the lists its
 * builders append to (resources, alerts, copy-blob entries), the template
 * parameters, and the streams it hands out.
 *
 * Each method is proved against the value-level model: UpdateArtifacts
 * leaves `Validation.ValidationAlerts`, GenerateStreams appends what
 * `Generation.Generate` describes, and SerializeStreams leaves
 * `Instructions.SerializedStreams`.
 */
module Generator {
  import opened Wrappers
  import opened ArmTemplate
  import opened Emission
  import MT = MigrationTarget
  import opened Validation
  import opened ComputeSynthesis
  import NS = NetworkSynthesis
  import opened Generation
  import opened Text
  import opened Instructions
  import opened SeqUtil

  class AzureGenerator {
    const sourceSubscription: Option<MT.Subscription>
    const targetSubscription: Option<MT.Subscription>
    const settings: MT.Settings
    const outputDirectory: string

    var exportArtifacts: Option<MT.ExportArtifacts>
    var resources: seq<ArmResource>
    var alerts: seq<Alert>
    var parameters: map<string, Parameter>
    var copyBlobDetails: seq<Option<CopyBlobDetail>>
    var templateStreams: map<string, StreamContent>

    /** A new generator has validated nothing and holds nothing. */
    constructor (sourceSubscription: Option<MT.Subscription>, targetSubscription: Option<MT.Subscription>,
                 settings: MT.Settings, outputDirectory: string)
      ensures this.sourceSubscription == sourceSubscription && this.targetSubscription == targetSubscription
      ensures this.settings == settings && this.outputDirectory == outputDirectory
      ensures exportArtifacts.None? && resources == [] && alerts == [] && parameters == map[]
      ensures copyBlobDetails == [] && templateStreams == map[]
    {
      this.sourceSubscription := sourceSubscription;
      this.targetSubscription := targetSubscription;
      this.settings := settings;
      this.outputDirectory := outputDirectory;
      exportArtifacts := None;
      resources := [];
      alerts := [];
      parameters := map[];
      copyBlobDetails := [];
      templateStreams := map[];
    }

    /** Everything the builders have appended so far. */
    function Output(): Emitted
      reads this
    {
      Emitted(resources, alerts, copyBlobDetails)
    }

    // -------------------------------------------------------------------
    // Appending
    // -------------------------------------------------------------------

    method AddAlert(alert: Alert)
      modifies this`alerts
      ensures alerts == old(alerts) + [alert]
    {
      alerts := alerts + [alert];
    }

    /** Appends what one builder produces, in order. */
    method Emit(e: Emitted)
      modifies this`resources, this`alerts, this`copyBlobDetails
      ensures Output() == old(Output()).Then(e)
    {
      resources := resources + e.resources;
      alerts := alerts + e.alerts;
      copyBlobDetails := copyBlobDetails + e.copyBlobs;
    }

    // -------------------------------------------------------------------
    // UpdateArtifacts
    // -------------------------------------------------------------------

    /** The flag loop over the selected networks, comparing the selected network's name. */
    static method VirtualNetworkIncluded(name: string, vnets: seq<MT.VirtualNetwork>) returns (found: bool)
      ensures found == VirtualNetworkListed(name, vnets)
      ensures found <==> exists i :: 0 <= i < |vnets| && vnets[i].name == name
    {
      found := false;
      var i := 0;
      while i < |vnets|
        invariant 0 <= i <= |vnets|
        invariant !VirtualNetworkListed(name, vnets[..i])
      {
        assert vnets[..i + 1][..i] == vnets[..i];
        if vnets[i].name == name {
          found := true;
          break;
        }
        i := i + 1;
      }
      if !found {
        assert vnets[..i] == vnets;
      }
    }

    /** The flag loop over the selected storage accounts. */
    static method StorageAccountIncluded(name: string, accounts: seq<MT.StorageAccount>) returns (found: bool)
      ensures found == StorageAccountListed(name, accounts)
      ensures found <==> exists i :: 0 <= i < |accounts| && accounts[i].name == name
    {
      found := false;
      var i := 0;
      while i < |accounts|
        invariant 0 <= i <= |accounts|
        invariant !StorageAccountListed(name, accounts[..i])
      {
        assert accounts[..i + 1][..i] == accounts[..i];
        if accounts[i].name == name {
          found := true;
          break;
        }
        i := i + 1;
      }
      if !found {
        assert accounts[..i] == accounts;
      }
    }

    /** Clears the alerts, keeps the selection, and reports what keeps it from being generated. */
    method UpdateArtifacts(a: MT.ExportArtifacts)
      modifies this`alerts, this`exportArtifacts
      ensures exportArtifacts == Some(a)
      ensures alerts == ValidationAlerts(a)
    {
      alerts := [];
      exportArtifacts := Some(a);

      if a.resourceGroup.None? {
        AddAlert(Alert(Error, NoResourceGroup, NoSubject));
      } else if a.resourceGroup.value.targetLocation.None? {
        AddAlert(Alert(Error, NoResourceGroupLocation, ResourceGroupSubject(a.resourceGroup.value.name)));
      }
      ghost var found := alerts;
      assert found == ResourceGroupAlerts(a.resourceGroup);
      ValidateNetworkSecurityGroups(a.networkSecurityGroups);
      found := found + NsgsAlerts(a.networkSecurityGroups);
      ValidateLoadBalancers(a.loadBalancers);
      found := found + LoadBalancersAlerts(a.loadBalancers);
      ValidateVirtualMachines(a.virtualMachines, a.virtualNetworks, a.storageAccounts);
      found := found + VirtualMachinesAlerts(a.virtualMachines, a.virtualNetworks, a.storageAccounts);
      assert alerts == found;
    }

    /** Every selected security group needs a target name. */
    method ValidateNetworkSecurityGroups(nsgs: seq<MT.NetworkSecurityGroup>)
      modifies this`alerts
      ensures alerts == old(alerts) + NsgsAlerts(nsgs)
    {
      var i := 0;
      while i < |nsgs|
        invariant 0 <= i <= |nsgs|
        invariant alerts == old(alerts) + NsgsAlerts(nsgs[..i])
      {
        assert nsgs[..i + 1][..i] == nsgs[..i];
        if nsgs[i].name == "" {
          AddAlert(Alert(Error, NoNetworkSecurityGroupName, NetworkSecurityGroupSubject(nsgs[i].name)));
        }
        AppendInTwoSteps(old(alerts), NsgsAlerts(nsgs[..i]), NsgAlerts(nsgs[i]));
        i := i + 1;
      }
      assert nsgs[..i] == nsgs;
    }

    method ValidateLoadBalancers(lbs: seq<MT.LoadBalancer>)
      modifies this`alerts
      ensures alerts == old(alerts) + LoadBalancersAlerts(lbs)
    {
      var i := 0;
      while i < |lbs|
        invariant 0 <= i <= |lbs|
        invariant alerts == old(alerts) + LoadBalancersAlerts(lbs[..i])
      {
        assert lbs[..i + 1][..i] == lbs[..i];
        ValidateLoadBalancer(lbs[i]);
        AppendInTwoSteps(old(alerts), LoadBalancersAlerts(lbs[..i]), LoadBalancerAlerts(lbs[i]));
        i := i + 1;
      }
      assert lbs[..i] == lbs;
    }

    method ValidateVirtualMachines(vms: seq<MT.VirtualMachine>, vnets: seq<MT.VirtualNetwork>, accounts: seq<MT.StorageAccount>)
      modifies this`alerts
      ensures alerts == old(alerts) + VirtualMachinesAlerts(vms, vnets, accounts)
    {
      var i := 0;
      while i < |vms|
        invariant 0 <= i <= |vms|
        invariant alerts == old(alerts) + VirtualMachinesAlerts(vms[..i], vnets, accounts)
      {
        assert vms[..i + 1][..i] == vms[..i];
        ValidateVirtualMachine(vms[i], vnets, accounts);
        AppendInTwoSteps(old(alerts), VirtualMachinesAlerts(vms[..i], vnets, accounts), VirtualMachineAlerts(vms[i], vnets, accounts));
        i := i + 1;
      }
      assert vms[..i] == vms;
    }

    /** One load balancer's checks: its name, then its first front end. */
    method ValidateLoadBalancer(lb: MT.LoadBalancer)
      modifies this`alerts
      ensures alerts == old(alerts) + LoadBalancerAlerts(lb)
    {
      if lb.name == "" {
        AddAlert(Alert(Error, NoLoadBalancerName, LoadBalancerSubject(lb.name)));
      }
      if |lb.frontEndIpConfigurations| == 0 {
        AddAlert(Alert(Error, NoFrontEnd, LoadBalancerSubject(lb.name)));
      } else if lb.frontEndIpConfigurations[0].publicIp.None? && lb.frontEndIpConfigurations[0].targetSubnet.None? {
        AddAlert(Alert(Error, NoFrontEndBinding, LoadBalancerSubject(lb.name)));
      }
    }

    /** One machine's checks, in the order UpdateArtifacts makes them. */
    method ValidateVirtualMachine(vm: MT.VirtualMachine, vnets: seq<MT.VirtualNetwork>, accounts: seq<MT.StorageAccount>)
      modifies this`alerts
      ensures alerts == old(alerts) + VirtualMachineAlerts(vm, vnets, accounts)
    {
      if vm.name == "" {
        AddAlert(Alert(Error, NoVirtualMachineName(vm.name), VirtualMachineSubject(vm.name)));
      }
      ghost var done := if vm.name == "" then [Alert(Error, NoVirtualMachineName(vm.name), VirtualMachineSubject(vm.name))] else [];
      assert alerts == old(alerts) + done;

      ValidateAvailabilitySla(vm);
      AppendInTwoSteps(old(alerts), done, SlaWarnings(vm));
      done := done + SlaWarnings(vm);

      ValidateNetworkInterfaces(vm.name, vm.networkInterfaces, vnets);
      AppendInTwoSteps(old(alerts), done, NetworkInterfacesAlerts(vm.name, vm.networkInterfaces, vnets));
      done := done + NetworkInterfacesAlerts(vm.name, vm.networkInterfaces, vnets);

      ValidateOsDiskStorage(vm, accounts);
      AppendInTwoSteps(old(alerts), done, OsDiskStorageAlerts(vm, accounts));
      done := done + OsDiskStorageAlerts(vm, accounts);

      ValidateDataDisksStorage(vm.name, vm.dataDisks, accounts);
      AppendInTwoSteps(old(alerts), done, DataDiskStorageAlerts(vm.name, vm.dataDisks, accounts));
    }

    /** Outside an availability set, every disk bound for standard storage is warned about. */
    method ValidateAvailabilitySla(vm: MT.VirtualMachine)
      modifies this`alerts
      ensures alerts == old(alerts) + SlaWarnings(vm)
    {
      if vm.targetAvailabilitySet.None? {
        if NotOnPremium(vm.osVirtualHardDisk) {
          AddAlert(Alert(Warning, OsDiskSla(vm.name), VirtualMachineSubject(vm.name)));
        }
        ghost var afterOs := alerts;
        var disks := vm.dataDisks;
        var j := 0;
        while j < |disks|
          invariant 0 <= j <= |disks|
          invariant alerts == afterOs + DataDiskSlaWarnings(vm.name, disks[..j])
        {
          assert disks[..j + 1][..j] == disks[..j];
          if NotOnPremium(disks[j]) {
            AddAlert(Alert(Warning, DataDiskSla(vm.name, disks[j].name), VirtualMachineSubject(vm.name)));
          }
          j := j + 1;
        }
        assert disks[..j] == disks;
      }
    }

    method ValidateNetworkInterfaces(vm: string, nics: seq<MT.NetworkInterface>, vnets: seq<MT.VirtualNetwork>)
      modifies this`alerts
      ensures alerts == old(alerts) + NetworkInterfacesAlerts(vm, nics, vnets)
    {
      var k := 0;
      while k < |nics|
        invariant 0 <= k <= |nics|
        invariant alerts == old(alerts) + NetworkInterfacesAlerts(vm, nics[..k], vnets)
      {
        assert nics[..k + 1][..k] == nics[..k];
        ValidateNetworkInterface(vm, nics[k], vnets);
        AppendInTwoSteps(old(alerts), NetworkInterfacesAlerts(vm, nics[..k], vnets),
                         IpConfigurationsAlerts(vm, nics[k].name, nics[k].ipConfigurations, vnets));
        k := k + 1;
      }
      assert nics[..k] == nics;
    }

    method ValidateDataDisksStorage(vm: string, disks: seq<MT.Disk>, accounts: seq<MT.StorageAccount>)
      modifies this`alerts
      ensures alerts == old(alerts) + DataDiskStorageAlerts(vm, disks, accounts)
    {
      var j := 0;
      while j < |disks|
        invariant 0 <= j <= |disks|
        invariant alerts == old(alerts) + DataDiskStorageAlerts(vm, disks[..j], accounts)
      {
        assert disks[..j + 1][..j] == disks[..j];
        ValidateDataDiskStorage(vm, disks[j], accounts);
        AppendInTwoSteps(old(alerts), DataDiskStorageAlerts(vm, disks[..j], accounts), DataDiskStorageAlert(vm, disks[j], accounts));
        j := j + 1;
      }
      assert disks[..j] == disks;
    }

    /** The checks on each IP configuration of one network interface. */
    method ValidateNetworkInterface(vm: string, nic: MT.NetworkInterface, vnets: seq<MT.VirtualNetwork>)
      modifies this`alerts
      ensures alerts == old(alerts) + IpConfigurationsAlerts(vm, nic.name, nic.ipConfigurations, vnets)
    {
      var ipcs := nic.ipConfigurations;
      var i := 0;
      while i < |ipcs|
        invariant 0 <= i <= |ipcs|
        invariant alerts == old(alerts) + IpConfigurationsAlerts(vm, nic.name, ipcs[..i], vnets)
      {
        assert ipcs[..i + 1][..i] == ipcs[..i];
        var ipc := ipcs[i];
        if ipc.targetVirtualNetwork.None? {
          AddAlert(Alert(Error, NoVirtualNetwork(vm, nic.name), NetworkInterfaceSubject(nic.name)));
        } else if ipc.targetVirtualNetwork.value.InMigrationVirtualNetwork? {
          var vnet := ipc.targetVirtualNetwork.value.name;
          var targetVNetExists := VirtualNetworkIncluded(vnet, vnets);
          if !targetVNetExists {
            AddAlert(Alert(Error, VirtualNetworkNotIncluded(vnet, vm, nic.name), NetworkInterfaceSubject(nic.name)));
          }
        }
        if ipc.targetSubnet.None? {
          AddAlert(Alert(Error, NoSubnet(vm, nic.name), NetworkInterfaceSubject(nic.name)));
        }
        AppendInTwoSteps(old(alerts), IpConfigurationsAlerts(vm, nic.name, ipcs[..i], vnets), IpConfigurationAlerts(vm, nic.name, ipc, vnets));
        i := i + 1;
      }
      assert ipcs[..i] == ipcs;
    }

    method ValidateOsDiskStorage(vm: MT.VirtualMachine, accounts: seq<MT.StorageAccount>)
      modifies this`alerts
      ensures alerts == old(alerts) + OsDiskStorageAlerts(vm, accounts)
    {
      var target := vm.osVirtualHardDisk.targetStorageAccount;
      if target.None? {
        AddAlert(Alert(Error, NoOsDiskStorage(vm.name), VirtualMachineSubject(vm.name)));
      } else if target.value.InMigrationStorage? {
        var sa := target.value.account;
        var targetAsmStorageExists := StorageAccountIncluded(sa.name, accounts);
        if !targetAsmStorageExists {
          AddAlert(Alert(Error, OsDiskStorageNotIncluded(sa.name, vm.name), VirtualMachineSubject(vm.name)));
        }
      }
    }

    method ValidateDataDiskStorage(vm: string, disk: MT.Disk, accounts: seq<MT.StorageAccount>)
      modifies this`alerts
      ensures alerts == old(alerts) + DataDiskStorageAlert(vm, disk, accounts)
    {
      var target := disk.targetStorageAccount;
      if target.None? {
        AddAlert(Alert(Error, NoDataDiskStorage(vm, disk.name), DiskSubject(disk.name)));
      } else if target.value.InMigrationStorage? {
        var sa := target.value.account;
        var targetStorageExists := StorageAccountIncluded(sa.name, accounts);
        if !targetStorageExists {
          AddAlert(Alert(Error, DataDiskStorageNotIncluded(sa.name, vm, disk.name), DiskSubject(disk.name)));
        }
      }
    }

    // -------------------------------------------------------------------
    // GenerateStreams
    // -------------------------------------------------------------------

    /** One machine: what BuildVirtualMachine describes, and the admin parameters when built empty. */
    method BuildVirtualMachineObject(vm: MT.VirtualMachine, a: MT.ExportArtifacts)
      requires CanBuildCopyBlobs(vm, settings)
      modifies this`resources, this`alerts, this`copyBlobDetails, this`parameters
      ensures Output() == old(Output()).Then(BuildVirtualMachine(vm, a, settings, sourceSubscription))
      ensures parameters == if settings.buildEmpty then AdminParameters(old(parameters)) else old(parameters)
    {
      Emit(BuildVirtualMachine(vm, a, settings, sourceSubscription));
      if settings.buildEmpty {
        parameters := AdminParameters(parameters);
      }
    }

    /** The security-group loop of GenerateStreams. */
    method BuildNetworkSecurityGroups(nsgs: seq<MT.NetworkSecurityGroup>)
      modifies this`resources, this`alerts, this`copyBlobDetails
      ensures Output() == old(Output()).Then(NetworkSecurityGroupsEmitted(nsgs))
    {
      var i := 0;
      while i < |nsgs|
        invariant 0 <= i <= |nsgs|
        invariant Output() == old(Output()).Then(NetworkSecurityGroupsEmitted(nsgs[..i]))
      {
        assert nsgs[..i + 1][..i] == nsgs[..i];
        var step := Resources([NS.NetworkSecurityGroupResource(nsgs[i])]);
        Emit(step);
        ThenIsAssociative(old(Output()), NetworkSecurityGroupsEmitted(nsgs[..i]), step);
        i := i + 1;
      }
      assert nsgs[..i] == nsgs;
    }

    /** The virtual-network loop of GenerateStreams. */
    method BuildVirtualNetworks(vnets: seq<MT.VirtualNetwork>)
      modifies this`resources, this`alerts, this`copyBlobDetails
      ensures Output() == old(Output()).Then(VirtualNetworksEmitted(vnets, settings))
    {
      var i := 0;
      while i < |vnets|
        invariant 0 <= i <= |vnets|
        invariant Output() == old(Output()).Then(VirtualNetworksEmitted(vnets[..i], settings))
      {
        assert vnets[..i + 1][..i] == vnets[..i];
        var step := NS.BuildVirtualNetwork(vnets[i], settings);
        Emit(step);
        ThenIsAssociative(old(Output()), VirtualNetworksEmitted(vnets[..i], settings), step);
        i := i + 1;
      }
      assert vnets[..i] == vnets;
    }

    /** The load-balancer loop of GenerateStreams. */
    method BuildLoadBalancers(lbs: seq<MT.LoadBalancer>)
      modifies this`resources, this`alerts, this`copyBlobDetails
      ensures Output() == old(Output()).Then(LoadBalancersEmitted(lbs))
    {
      var i := 0;
      while i < |lbs|
        invariant 0 <= i <= |lbs|
        invariant Output() == old(Output()).Then(LoadBalancersEmitted(lbs[..i]))
      {
        assert lbs[..i + 1][..i] == lbs[..i];
        var step := NS.BuildLoadBalancer(lbs[i]);
        Emit(step);
        ThenIsAssociative(old(Output()), LoadBalancersEmitted(lbs[..i]), step);
        i := i + 1;
      }
      assert lbs[..i] == lbs;
    }

    /** The storage-account loop of GenerateStreams. */
    method BuildStorageAccounts(accounts: seq<MT.StorageAccount>)
      modifies this`resources, this`alerts, this`copyBlobDetails
      ensures Output() == old(Output()).Then(StorageAccountsEmitted(accounts))
    {
      var i := 0;
      while i < |accounts|
        invariant 0 <= i <= |accounts|
        invariant Output() == old(Output()).Then(StorageAccountsEmitted(accounts[..i]))
      {
        assert accounts[..i + 1][..i] == accounts[..i];
        var step := Resources([StorageAccountResource(accounts[i])]);
        Emit(step);
        ThenIsAssociative(old(Output()), StorageAccountsEmitted(accounts[..i]), step);
        i := i + 1;
      }
      assert accounts[..i] == accounts;
    }

    /** The virtual-machine loop of GenerateStreams. */
    method BuildVirtualMachines(vms: seq<MT.VirtualMachine>, a: MT.ExportArtifacts)
      requires CanBuildAllCopyBlobs(vms, settings)
      modifies this`resources, this`alerts, this`copyBlobDetails, this`parameters
      ensures Output() == old(Output()).Then(VirtualMachinesEmitted(vms, a, settings, sourceSubscription))
      ensures parameters == ParametersAfter(vms, settings, old(parameters))
    {
      var i := 0;
      while i < |vms|
        invariant 0 <= i <= |vms|
        invariant CanBuildAllCopyBlobs(vms[..i], settings)
        invariant Output() == old(Output()).Then(VirtualMachinesEmitted(vms[..i], a, settings, sourceSubscription))
        invariant parameters == ParametersAfter(vms[..i], settings, old(parameters))
      {
        BuildNextVirtualMachine(vms, i, a, old(Output()), old(parameters));
        i := i + 1;
      }
      assert vms[..i] == vms;
    }

    /** One turn of the virtual-machine loop: machine i follows the machines before it. */
    method BuildNextVirtualMachine(vms: seq<MT.VirtualMachine>, i: nat, a: MT.ExportArtifacts,
                                   ghost start: Emitted, ghost parameters0: map<string, Parameter>)
      requires i < |vms| && CanBuildAllCopyBlobs(vms, settings)
      requires CanBuildAllCopyBlobs(vms[..i], settings)
      requires Output() == start.Then(VirtualMachinesEmitted(vms[..i], a, settings, sourceSubscription))
      requires parameters == ParametersAfter(vms[..i], settings, parameters0)
      modifies this`resources, this`alerts, this`copyBlobDetails, this`parameters
      ensures CanBuildAllCopyBlobs(vms[..i + 1], settings)
      ensures Output() == start.Then(VirtualMachinesEmitted(vms[..i + 1], a, settings, sourceSubscription))
      ensures parameters == ParametersAfter(vms[..i + 1], settings, parameters0)
    {
      VirtualMachinesStep(vms, i, a, settings, sourceSubscription, parameters0);
      ghost var done := VirtualMachinesEmitted(vms[..i], a, settings, sourceSubscription);
      BuildVirtualMachineObject(vms[i], a);
      ThenIsAssociative(start, done, BuildVirtualMachine(vms[i], a, settings, sourceSubscription));
    }

    /**
     * Clears the streams, the resources and the copy-blob entries (not the
     * alerts, not the parameters), then builds every selected resource
     * category by category.
     */
    method GenerateStreams()
      requires exportArtifacts.Some? ==> CanBuildAllCopyBlobs(exportArtifacts.value.virtualMachines, settings)
      modifies this`templateStreams, this`resources, this`alerts, this`copyBlobDetails, this`parameters
      ensures templateStreams == map[]
      ensures exportArtifacts.None? ==>
                resources == [] && copyBlobDetails == [] && alerts == old(alerts) && parameters == old(parameters)
      ensures exportArtifacts.Some? ==>
                Output() == Emitted([], old(alerts), []).Then(Generate(exportArtifacts.value, settings, sourceSubscription))
      ensures exportArtifacts.Some? ==>
                parameters == ParametersAfter(exportArtifacts.value.virtualMachines, settings, old(parameters))
    {
      templateStreams := map[];
      resources := [];
      copyBlobDetails := [];
      if exportArtifacts.None? {
        return;
      }
      BuildSelection(exportArtifacts.value);
    }

    /** Every selected resource, category by category, appended to the output. */
    method BuildSelection(a: MT.ExportArtifacts)
      requires CanBuildAllCopyBlobs(a.virtualMachines, settings)
      modifies this`resources, this`alerts, this`copyBlobDetails, this`parameters
      ensures Output() == old(Output()).Then(Generate(a, settings, sourceSubscription))
      ensures parameters == ParametersAfter(a.virtualMachines, settings, old(parameters))
    {
      BuildNetworkCategories(a);
      BuildVirtualMachines(a.virtualMachines, a);
      GenerateCategoryByCategory(old(Output()), a, settings, sourceSubscription);
    }

    /** The categories before the machines: security groups, networks, load balancers, storage accounts. */
    method BuildNetworkCategories(a: MT.ExportArtifacts)
      modifies this`resources, this`alerts, this`copyBlobDetails
      ensures Output() == old(Output()).Then(NetworkSecurityGroupsEmitted(a.networkSecurityGroups))
                                       .Then(VirtualNetworksEmitted(a.virtualNetworks, settings))
                                       .Then(LoadBalancersEmitted(a.loadBalancers))
                                       .Then(StorageAccountsEmitted(a.storageAccounts))
    {
      BuildNetworkSecurityGroups(a.networkSecurityGroups);
      BuildVirtualNetworks(a.virtualNetworks);
      BuildLoadBalancers(a.loadBalancers);
      BuildStorageAccounts(a.storageAccounts);
    }

    // -------------------------------------------------------------------
    // SerializeStreams and the paths
    // -------------------------------------------------------------------

    function GetTemplatePath(): string
      reads this
    {
      PathCombine(outputDirectory, TemplateFileName)
    }

    function GetCopyBlobDetailPath(): string
      reads this
    {
      PathCombine(outputDirectory, CopyBlobFileName)
    }

    function GetInstructionPath(): string
      reads this
    {
      PathCombine(outputDirectory, InstructionsFileName)
    }

    /** The template document, if the streams hold one. */
    function GetTemplate(): (r: Option<StreamContent>)
      reads this
    {
      if TemplateFileName in templateStreams then Some(templateStreams[TemplateFileName]) else None
    }

    /** The PowerShell switches naming the target subscription, its cloud and its tenant. */
    static method TargetSwitches(target: Option<MT.Subscription>)
      returns (environmentSwitch: string, tenantSwitch: string, subscriptionSwitch: string)
      ensures environmentSwitch == EnvironmentSwitch(target)
      ensures tenantSwitch == TenantSwitch(target)
      ensures subscriptionSwitch == SubscriptionSwitch(target)
    {
      environmentSwitch := "";
      tenantSwitch := "";
      subscriptionSwitch := "";
      if target.Some? {
        subscriptionSwitch := " -SubscriptionId '" + target.value.subscriptionId + "'";
        if target.value.azureEnvironment != MT.AzureCloud {
          environmentSwitch := " -EnvironmentName " + target.value.azureEnvironment.ToString();
        }
        if target.value.azureAdTenantId != MT.EmptyGuid {
          tenantSwitch := " -TenantId '" + target.value.azureAdTenantId + "'";
        }
      }
    }

    /** The nine substitutions, one after the other. */
    static method Render(template: string, v: InstructionValues) returns (content: string)
      ensures content == RenderInstructions(template, v)
    {
      content := template;
      content := ReplaceAll(content, "{migAzAzureEnvironmentSwitch}", v.environmentSwitch);
      content := ReplaceAll(content, "{tenantSwitch}", v.tenantSwitch);
      content := ReplaceAll(content, "{subscriptionSwitch}", v.subscriptionSwitch);
      content := ReplaceAll(content, "{templatePath}", v.templatePath);
      content := ReplaceAll(content, "{blobDetailsPath}", v.blobDetailsPath);
      content := ReplaceAll(content, "{resourceGroupName}", v.resourceGroupName);
      content := ReplaceAll(content, "{location}", v.location);
      content := ReplaceAll(content, "{migAzPath}", v.migAzPath);
      content := ReplaceAll(content, "{migAzMessages}", v.migAzMessages);
    }

    /**
     * Rebuilds the streams from the current resources, parameters and
     * copy-blob entries; `instructionTemplate` is the embedded instructions
     * page, `migAzPath` the install directory and `migAzMessages` the
     * rendered message block.
     */
    method SerializeStreams(instructionTemplate: string, migAzPath: string, migAzMessages: string)
      modifies this`templateStreams
      ensures templateStreams == SerializedStreams(resources, parameters, copyBlobDetails,
                RenderInstructions(instructionTemplate,
                  InstructionValuesOf(exportArtifacts, targetSubscription, outputDirectory, migAzPath, migAzMessages)))
      ensures GetTemplate() == Some(TemplateDocument(resources, parameters))
    {
      var content := Instructions(instructionTemplate, exportArtifacts, targetSubscription, outputDirectory, migAzPath, migAzMessages);
      templateStreams := Streams(resources, parameters, copyBlobDetails, content);
    }

    /** The template, the copy-blob manifest when there are entries, and the instructions page. */
    static method Streams(resources: seq<ArmResource>, parameters: map<string, Parameter>,
                          copyBlobDetails: seq<Option<CopyBlobDetail>>, content: string)
      returns (streams: map<string, StreamContent>)
      ensures streams == SerializedStreams(resources, parameters, copyBlobDetails, content)
    {
      streams := map[TemplateFileName := TemplateDocument(resources, parameters)];
      if |copyBlobDetails| > 0 {
        streams := streams[CopyBlobFileName := CopyBlobManifest(copyBlobDetails)];
      }
      streams := streams[InstructionsFileName := InstructionsDocument(content)];
    }

    /** The instructions page: the texts and switches worked out, then substituted. */
    static method Instructions(instructionTemplate: string, artifacts: Option<MT.ExportArtifacts>,
                               target: Option<MT.Subscription>, outputDirectory: string,
                               migAzPath: string, migAzMessages: string)
      returns (content: string)
      ensures content == RenderInstructions(instructionTemplate,
                           InstructionValuesOf(artifacts, target, outputDirectory, migAzPath, migAzMessages))
    {
      var resourceGroupName := "";
      var location := "";
      if artifacts.Some? && artifacts.value.resourceGroup.Some? {
        resourceGroupName := artifacts.value.resourceGroup.value.name;
        if artifacts.value.resourceGroup.value.targetLocation.Some? {
          location := artifacts.value.resourceGroup.value.targetLocation.value;
        }
      }
      var environmentSwitch, tenantSwitch, subscriptionSwitch := TargetSwitches(target);
      var values := InstructionValues(environmentSwitch, tenantSwitch, subscriptionSwitch,
                                      PathCombine(outputDirectory, TemplateFileName),
                                      PathCombine(outputDirectory, CopyBlobFileName),
                                      resourceGroupName, location, migAzPath, migAzMessages);
      content := Render(instructionTemplate, values);
    }
  }

  /**
   * Proof glue for BuildSelection: a run from some starting output appends
   * the five categories one after the other.
   */
  lemma GenerateCategoryByCategory(start: Emitted, a: MT.ExportArtifacts, settings: MT.Settings, source: Option<MT.Subscription>)
    requires CanBuildAllCopyBlobs(a.virtualMachines, settings)
    ensures start.Then(Generate(a, settings, source))
            == start.Then(NetworkSecurityGroupsEmitted(a.networkSecurityGroups))
                    .Then(VirtualNetworksEmitted(a.virtualNetworks, settings))
                    .Then(LoadBalancersEmitted(a.loadBalancers))
                    .Then(StorageAccountsEmitted(a.storageAccounts))
                    .Then(VirtualMachinesEmitted(a.virtualMachines, a, settings, source))
  {
    var n := NetworkSecurityGroupsEmitted(a.networkSecurityGroups);
    var v := VirtualNetworksEmitted(a.virtualNetworks, settings);
    var l := LoadBalancersEmitted(a.loadBalancers);
    var s := StorageAccountsEmitted(a.storageAccounts);
    var m := VirtualMachinesEmitted(a.virtualMachines, a, settings, source);
    ThenIsAssociative(start, n, v);
    ThenIsAssociative(start, n.Then(v), l);
    ThenIsAssociative(start, n.Then(v).Then(l), s);
    ThenIsAssociative(start, n.Then(v).Then(l).Then(s), m);
  }
}
