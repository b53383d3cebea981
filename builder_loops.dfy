/**
 * The list-building loops inside the builders, written as the loops they
 * are: a `foreach` that appends to a local list, some of them behind a
 * `Contains` guard. Each is proved to compute the function the value-level
 * model uses and, through the lemmas about that function, what the list
 * means.
 */
module BuilderLoops {
  import opened SeqUtil
  import opened ArmTemplate
  import MT = MigrationTarget
  import opened NetworkSynthesis
  import opened ComputeSynthesis
  import NP = NetworkProperties
  import CP = ComputeProperties

  /** The rule loop of BuildNetworkSecurityGroup: every non-system rule, translated, in order. */
  method SecurityRulesOf(rules: seq<MT.NetworkSecurityGroupRule>) returns (securityRules: seq<SecurityRule>)
    ensures securityRules == SecurityRules(rules)
    ensures forall sr :: sr in securityRules <==> exists r :: r in rules && !r.isSystemRule && SecurityRuleOf(r) == sr
    ensures |securityRules| <= |rules|
  {
    securityRules := [];
    var i := 0;
    while i < |rules|
      invariant 0 <= i <= |rules|
      invariant securityRules == SecurityRules(rules[..i])
      invariant |securityRules| <= i
    {
      assert rules[..i + 1][..i] == rules[..i];
      if !rules[i].isSystemRule {
        securityRules := securityRules + [SecurityRuleOf(rules[i])];
      }
      i := i + 1;
    }
    assert rules[..i] == rules;
    forall sr
      ensures sr in securityRules <==> exists r :: r in rules && !r.isSystemRule && SecurityRuleOf(r) == sr
    {
      NP.SecurityRulesAreTheNonSystemRules(rules, sr);
    }
  }

  /**
   * The subnet loop of BuildVirtualNetworkObject, as far as the network's
   * dependsOn list goes: each subnet's security group, then its route table,
   * each added only if absent.
   */
  method VirtualNetworkDependencies(subnets: seq<MT.Subnet>) returns (dependson: seq<string>)
    ensures dependson == VirtualNetworkDependsOn(subnets)
    ensures NoDuplicates(dependson)
    ensures forall id :: id in dependson <==> exists s :: s in subnets && NP.SubnetRefersTo(s, id)
  {
    dependson := [];
    var i := 0;
    while i < |subnets|
      invariant 0 <= i <= |subnets|
      invariant dependson == VirtualNetworkDependsOn(subnets[..i])
    {
      assert subnets[..i + 1][..i] == subnets[..i];
      var subnet := subnets[i];
      if subnet.networkSecurityGroup.Some? {
        var id := NetworkSecurityGroupId(subnet.networkSecurityGroup.value.name);
        if id !in dependson {
          dependson := dependson + [id];
        }
      }
      if subnet.routeTable.Some? {
        var id := RouteTableId(subnet.routeTable.value.name);
        if id !in dependson {
          dependson := dependson + [id];
        }
      }
      i := i + 1;
    }
    assert subnets[..i] == subnets;
    NP.VirtualNetworkDependsOnHasNoDuplicates(subnets);
    forall id
      ensures id in dependson <==> exists s :: s in subnets && NP.SubnetRefersTo(s, id)
    {
      NP.VirtualNetworkDependsOnMembership(subnets, id);
    }
  }

  /**
   * The storage targets BuildVirtualMachineObject collects: the OS disk's, if
   * set, then each data disk's, added only if absent.
   */
  method StorageAccountDependencies(vm: MT.VirtualMachine) returns (dependencies: seq<MT.StorageTarget>)
    ensures dependencies == StorageDependencies(vm)
    ensures forall t :: t in dependencies <==> CP.UsesStorage(vm, t)
    ensures forall t :: t in dependencies ==> Count(dependencies, t) == 1
  {
    dependencies := [];
    if vm.osVirtualHardDisk.targetStorageAccount.Some? {
      dependencies := dependencies + [vm.osVirtualHardDisk.targetStorageAccount.value];
    }
    ghost var start := dependencies;
    var disks := vm.dataDisks;
    var i := 0;
    while i < |disks|
      invariant 0 <= i <= |disks|
      invariant dependencies == DataDiskStorageDependencies(start, disks[..i])
    {
      assert disks[..i + 1][..i] == disks[..i];
      if disks[i].targetStorageAccount.Some? && disks[i].targetStorageAccount.value !in dependencies {
        dependencies := dependencies + [disks[i].targetStorageAccount.value];
      }
      i := i + 1;
    }
    assert disks[..i] == disks;
    assert start == (if vm.osVirtualHardDisk.targetStorageAccount.Some? then [vm.osVirtualHardDisk.targetStorageAccount.value] else []);
    assert dependencies == StorageDependencies(vm);
    forall t
      ensures t in dependencies <==> CP.UsesStorage(vm, t)
      ensures t in dependencies ==> Count(dependencies, t) == 1
    {
      CP.StorageDependenciesAreTheUsedTargets(vm, t);
    }
  }

  /**
   * The last loop of BuildVirtualMachineObject: a dependsOn entry for each
   * collected target that is a storage account of this migration.
   */
  method AppendStorageDependsOn(dependson: seq<string>, targets: seq<MT.StorageTarget>) returns (r: seq<string>)
    ensures r == dependson + StorageDependsOn(targets)
    ensures forall id :: id in r <==>
              id in dependson || exists t :: t in targets && t.InMigrationStorage? && id == StorageAccountId(t.Name())
  {
    r := dependson;
    var i := 0;
    while i < |targets|
      invariant 0 <= i <= |targets|
      invariant r == dependson + StorageDependsOn(targets[..i])
    {
      assert targets[..i + 1][..i] == targets[..i];
      if targets[i].InMigrationStorage? {
        r := r + [StorageAccountId(targets[i].Name())];
      }
      i := i + 1;
    }
    assert targets[..i] == targets;
    forall id
      ensures id in r <==>
                id in dependson || exists t :: t in targets && t.InMigrationStorage? && id == StorageAccountId(t.Name())
    {
      CP.StorageDependsOnMembership(targets, id);
    }
  }
}
