/**
 * One run of GenerateStreams over a selection, as a value: the builders in
 * their fixed category order (security groups, virtual networks, load
 * balancers, storage accounts, virtual machines), each over its selected
 * resources in order, and the template parameters the run leaves behind.
 */
module Generation {
  import opened Wrappers
  import opened ArmTemplate
  import opened Emission
  import MT = MigrationTarget
  import opened NetworkSynthesis
  import opened ComputeSynthesis

  function NetworkSecurityGroupsEmitted(nsgs: seq<MT.NetworkSecurityGroup>): Emitted {
    if nsgs == [] then Nothing
    else NetworkSecurityGroupsEmitted(nsgs[..|nsgs| - 1]).Then(Resources([NetworkSecurityGroupResource(nsgs[|nsgs| - 1])]))
  }

  function VirtualNetworksEmitted(vnets: seq<MT.VirtualNetwork>, settings: MT.Settings): Emitted {
    if vnets == [] then Nothing
    else VirtualNetworksEmitted(vnets[..|vnets| - 1], settings).Then(BuildVirtualNetwork(vnets[|vnets| - 1], settings))
  }

  function LoadBalancersEmitted(lbs: seq<MT.LoadBalancer>): Emitted {
    if lbs == [] then Nothing
    else LoadBalancersEmitted(lbs[..|lbs| - 1]).Then(BuildLoadBalancer(lbs[|lbs| - 1]))
  }

  function StorageAccountsEmitted(accounts: seq<MT.StorageAccount>): Emitted {
    if accounts == [] then Nothing
    else StorageAccountsEmitted(accounts[..|accounts| - 1]).Then(Resources([StorageAccountResource(accounts[|accounts| - 1])]))
  }

  /** Every machine's copy-blob entries can be built (see ComputeSynthesis.CanBuildCopyBlobs). */
  predicate CanBuildAllCopyBlobs(vms: seq<MT.VirtualMachine>, settings: MT.Settings) {
    forall vm :: vm in vms ==> CanBuildCopyBlobs(vm, settings)
  }

  function VirtualMachinesEmitted(vms: seq<MT.VirtualMachine>, a: MT.ExportArtifacts, settings: MT.Settings,
                                  source: Option<MT.Subscription>): Emitted
    requires CanBuildAllCopyBlobs(vms, settings)
  {
    if vms == [] then Nothing
    else VirtualMachinesEmitted(vms[..|vms| - 1], a, settings, source).Then(BuildVirtualMachine(vms[|vms| - 1], a, settings, source))
  }

  /** Building one more machine extends what the earlier machines emitted, and the parameters they left. */
  lemma VirtualMachinesStep(vms: seq<MT.VirtualMachine>, i: nat, a: MT.ExportArtifacts, settings: MT.Settings,
                            source: Option<MT.Subscription>, parameters: map<string, Parameter>)
    requires i < |vms| && CanBuildAllCopyBlobs(vms, settings)
    ensures CanBuildAllCopyBlobs(vms[..i], settings) && CanBuildAllCopyBlobs(vms[..i + 1], settings)
    ensures CanBuildCopyBlobs(vms[i], settings)
    ensures VirtualMachinesEmitted(vms[..i + 1], a, settings, source)
            == VirtualMachinesEmitted(vms[..i], a, settings, source).Then(BuildVirtualMachine(vms[i], a, settings, source))
    ensures ParametersAfter(vms[..i + 1], settings, parameters)
            == (var before := ParametersAfter(vms[..i], settings, parameters);
                if settings.buildEmpty then AdminParameters(before) else before)
  {
    assert vms[..i + 1][..i] == vms[..i];
    assert vms[i] in vms;
  }

  /** Everything one run appends, category by category. */
  function Generate(a: MT.ExportArtifacts, settings: MT.Settings, source: Option<MT.Subscription>): Emitted
    requires CanBuildAllCopyBlobs(a.virtualMachines, settings)
  {
    NetworkSecurityGroupsEmitted(a.networkSecurityGroups)
      .Then(VirtualNetworksEmitted(a.virtualNetworks, settings))
      .Then(LoadBalancersEmitted(a.loadBalancers))
      .Then(StorageAccountsEmitted(a.storageAccounts))
      .Then(VirtualMachinesEmitted(a.virtualMachines, a, settings, source))
  }

  /** The parameters after a run: each machine built empty adds the admin credentials. */
  function ParametersAfter(vms: seq<MT.VirtualMachine>, settings: MT.Settings, parameters: map<string, Parameter>): map<string, Parameter> {
    if vms == [] then parameters
    else
      var before := ParametersAfter(vms[..|vms| - 1], settings, parameters);
      if settings.buildEmpty then AdminParameters(before) else before
  }
}
