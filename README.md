# MigAz template generator, modelled in Dafny

This project models the template-synthesis engine of MigAz, the class `AzureGenerator` in
`MigAz.Azure/Generator/AzureGenerator.cs`. It takes the migration targets a user selected (an
`ExportArtifacts`) and does three things:

- validates the selection into a list of Error and Warning alerts (`UpdateArtifacts`);
- builds the Azure Resource Manager resource descriptors of the template, the template
  parameters and the copy-blob manifest (`GenerateStreams` and the `Build*` methods);
- renders the deployment instructions and the output streams (`SerializeStreams`).

The model has two layers.

- **Value layer.** Every part of the generator's output is a function of the selection:
  - `Validation.ValidationAlerts` for the alerts;
  - the builder functions of `NetworkSynthesis` and `ComputeSynthesis`, composed category by
    category in `Generation.Generate`, for the resources, alerts and copy-blob entries;
  - `Instructions.SerializedStreams` and `Instructions.RenderInstructions` for the streams.

  The lemmas in `ValidationProperties`, `NetworkProperties`, `ComputeProperties` and
  `GenerationProperties` state what those values mean.
- **Imperative layer.** `Generator.AzureGenerator` is a class. Its fields are the state the C#
  object mutates: the selection, `Resources`, `Alerts`, `Parameters`, the copy-blob list and the
  template streams. Its methods clear and append to those fields in loops, and each is proved to
  leave exactly the value the first layer describes.

  `BuilderLoops` writes the `Contains`-guarded list loops inside the builders as loops too, and
  proves each equal to its function.

The small total mappings are plain functions with lemmas:

- the legacy VM size table (`Mappings.GetVMSize`);
- the route next-hop switch;
- the classic gateway routing type.

Where the C# code switches on `GetType()`, the model uses tagged variants:

- a storage target is a storage account of this migration or an existing one;
- a virtual-network target is likewise in this migration or existing;
- a source network or disk is classic (ASM) or resource-manager (ARM).

Sources: `MigrationTarget`, the input graph; `ArmTemplate`, the output descriptors, the `ArmConst`
strings and the `"[concat(resourceGroup().id, '<provider><name>')]"` references; `Emission`, what a
builder appends.

## Model

| member | source | states |
|---|---|---|
| Generator.AzureGenerator.constructor | MigAz.Azure/Generator/AzureGenerator.cs:28-38 | a new generator keeps its subscriptions and settings and holds no selection, resources, alerts, parameters, copy-blob entries or streams |
| Generator.AzureGenerator.UpdateArtifacts | MigAz.Azure/Generator/AzureGenerator.cs:42-206 | alerts are cleared, the selection is kept, and the new alert list is exactly `ValidationAlerts` of the selection |
| Generator.AzureGenerator.ValidateNetworkSecurityGroups | MigAz.Azure/Generator/AzureGenerator.cs:62-66 | appends one Error per security group without a target name |
| Generator.AzureGenerator.ValidateLoadBalancers | MigAz.Azure/Generator/AzureGenerator.cs:68-85 | appends the name and front-end alerts of every load balancer, in order |
| Generator.AzureGenerator.ValidateLoadBalancer | MigAz.Azure/Generator/AzureGenerator.cs:70-84 | one load balancer: name check, then no front end, or a first front end with neither public IP nor subnet |
| Generator.AzureGenerator.ValidateVirtualMachines | MigAz.Azure/Generator/AzureGenerator.cs:87-186 | appends every machine's alerts, machine by machine |
| Generator.AzureGenerator.ValidateVirtualMachine | MigAz.Azure/Generator/AzureGenerator.cs:89-185 | one machine's checks in source order: name, SLA, NICs, OS disk storage, data disk storage |
| Generator.AzureGenerator.ValidateAvailabilitySla | MigAz.Azure/Generator/AzureGenerator.cs:92-102 | outside an availability set, one Warning for the OS disk and for each data disk on known non-premium storage |
| Generator.AzureGenerator.ValidateNetworkInterfaces | MigAz.Azure/Generator/AzureGenerator.cs:104-134 | appends the IP-configuration alerts of every NIC |
| Generator.AzureGenerator.ValidateNetworkInterface | MigAz.Azure/Generator/AzureGenerator.cs:106-133 | per IP configuration: missing network, network of this migration not selected, missing subnet |
| Generator.AzureGenerator.VirtualNetworkIncluded | MigAz.Azure/Generator/AzureGenerator.cs:115-127 | the flag loop finds the name exactly when a selected network has it (the corrected comparison, see Findings) |
| Generator.AzureGenerator.ValidateOsDiskStorage | MigAz.Azure/Generator/AzureGenerator.cs:136-157 | Error when the OS disk has no target account, or its migrated account is not selected |
| Generator.AzureGenerator.StorageAccountIncluded | MigAz.Azure/Generator/AzureGenerator.cs:145-152 | the flag loop finds the name exactly when a selected storage account has it |
| Generator.AzureGenerator.ValidateDataDisksStorage | MigAz.Azure/Generator/AzureGenerator.cs:159-185 | appends every data disk's storage alerts, in order |
| Generator.AzureGenerator.ValidateDataDiskStorage | MigAz.Azure/Generator/AzureGenerator.cs:161-184 | Error when a data disk has no target account, or its migrated account is not selected |
| Generator.AzureGenerator.AddAlert | MigAz.Azure/Generator/AzureGenerator.cs:52 | appends one alert and changes nothing else |
| Generator.AzureGenerator.Emit | MigAz.Azure/Generator/AzureGenerator.cs:386 | appends a builder's resources, alerts and copy-blob entries |
| Generator.AzureGenerator.GenerateStreams | MigAz.Azure/Generator/AzureGenerator.cs:208-263 | clears streams, resources and copy-blob entries but not alerts or parameters; without a selection adds nothing, otherwise appends `Generate` of the selection and leaves `ParametersAfter` |
| Generator.AzureGenerator.BuildSelection | MigAz.Azure/Generator/AzureGenerator.cs:217-256 | the five category loops together append `Generate` of the selection |
| Generator.AzureGenerator.BuildNetworkCategories | MigAz.Azure/Generator/AzureGenerator.cs:217-248 | security groups, networks, load balancers and storage accounts are appended in that order |
| Generator.AzureGenerator.BuildNetworkSecurityGroups | MigAz.Azure/Generator/AzureGenerator.cs:219-223 | the security-group loop appends each group's resource in order |
| Generator.AzureGenerator.BuildVirtualNetworks | MigAz.Azure/Generator/AzureGenerator.cs:227-231 | the network loop appends each network's subnet groups, route tables, network and gateways in order |
| Generator.AzureGenerator.BuildLoadBalancers | MigAz.Azure/Generator/AzureGenerator.cs:235-239 | the load-balancer loop appends each balancer's public IPs and balancer in order |
| Generator.AzureGenerator.BuildStorageAccounts | MigAz.Azure/Generator/AzureGenerator.cs:243-247 | the storage loop appends each account's resource in order |
| Generator.AzureGenerator.BuildVirtualMachines | MigAz.Azure/Generator/AzureGenerator.cs:251-255 | the machine loop appends each machine's output and leaves `ParametersAfter` the machines |
| Generator.AzureGenerator.BuildNextVirtualMachine | MigAz.Azure/Generator/AzureGenerator.cs:251-255 | one turn of the machine loop extends the output and parameters from machines `..i` to `..i+1` |
| Generator.AzureGenerator.BuildVirtualMachineObject | MigAz.Azure/Generator/AzureGenerator.cs:1095-1280 | appends `BuildVirtualMachine` and, built empty, adds the admin parameters |
| Generator.AzureGenerator.SerializeStreams | MigAz.Azure/Generator/AzureGenerator.cs:265-352 | the streams become the template, the manifest if it has entries, and the rendered instructions; the template is then readable |
| Generator.AzureGenerator.Streams | MigAz.Azure/Generator/AzureGenerator.cs:269-346 | the stream map is `SerializedStreams` of the current output |
| Generator.AzureGenerator.Instructions | MigAz.Azure/Generator/AzureGenerator.cs:303-341 | the instructions are the template with the nine values substituted in order |
| Generator.AzureGenerator.TargetSwitches | MigAz.Azure/Generator/AzureGenerator.cs:317-330 | the three PowerShell switches derived from the target subscription |
| Generator.AzureGenerator.Render | MigAz.Azure/Generator/AzureGenerator.cs:333-341 | the nine replacements applied one after another |
| Validation.VirtualNetworkListed | MigAz.Azure/Generator/AzureGenerator.cs:115-127 | true exactly when some selected network has that name |
| Validation.VirtualNetworkListedAsWritten | MigAz.Azure/Generator/AzureGenerator.cs:115-127 | the loop as written is true exactly when any network is selected |
| Validation.SelfComparisonAcceptsUnselectedNetwork | MigAz.Azure/Generator/AzureGenerator.cs:119 | a NIC bound to "vnet-b" passes the as-written check when only "vnet-a" is selected |
| Validation.SelfComparisonDiffersExactlyWhenUnselected | MigAz.Azure/Generator/AzureGenerator.cs:119 | the two checks disagree exactly on a non-empty selection lacking the name |
| Validation.StorageAccountListed | MigAz.Azure/Generator/AzureGenerator.cs:145-152 | true exactly when some selected storage account has that name |
| Validation.ValidationAlerts | MigAz.Azure/Generator/AzureGenerator.cs:46-186 | the alerts UpdateArtifacts raises: resource group, then security groups, load balancers and machines; meaning stated by ValidationProperties.NoAlertsExactlyForValidSelection and the *IsReported lemmas |
| ValidationProperties.NsgsAlertsMembership | MigAz.Azure/Generator/AzureGenerator.cs:62-66 | an alert of the NSG part is an alert of some selected NSG |
| ValidationProperties.LoadBalancersAlertsMembership | MigAz.Azure/Generator/AzureGenerator.cs:68-85 | an alert of the load-balancer part is an alert of some selected balancer |
| ValidationProperties.VirtualMachinesAlertsMembership | MigAz.Azure/Generator/AzureGenerator.cs:87-186 | an alert of the machine part is an alert of some selected machine |
| ValidationProperties.NetworkInterfacesAlertsMembership | MigAz.Azure/Generator/AzureGenerator.cs:104-134 | an alert of a machine's NIC part comes from one of its NICs |
| ValidationProperties.IpConfigurationsAlertsMembership | MigAz.Azure/Generator/AzureGenerator.cs:106-133 | an alert of a NIC comes from one of its IP configurations |
| ValidationProperties.DataDiskStorageAlertsMembership | MigAz.Azure/Generator/AzureGenerator.cs:159-185 | a data-disk storage alert comes from one of the machine's data disks |
| ValidationProperties.DataDiskSlaWarningsMembership | MigAz.Azure/Generator/AzureGenerator.cs:97-101 | the data-disk SLA warnings are exactly one per disk on known non-premium storage, about the machine |
| ValidationProperties.NsgsAlertsAreNsgErrors | MigAz.Azure/Generator/AzureGenerator.cs:62-66 | NSG alerts are Errors about a security group |
| ValidationProperties.LoadBalancersAlertsAreLoadBalancerErrors | MigAz.Azure/Generator/AzureGenerator.cs:68-85 | load-balancer alerts are Errors about a load balancer |
| ValidationProperties.IpConfigurationsAlertsAreNicErrors | MigAz.Azure/Generator/AzureGenerator.cs:106-133 | IP-configuration alerts are Errors about that NIC |
| ValidationProperties.NetworkInterfacesAlertsAreNicErrors | MigAz.Azure/Generator/AzureGenerator.cs:104-134 | NIC alerts are Errors about a NIC |
| ValidationProperties.DataDiskStorageAlertsAreDiskErrors | MigAz.Azure/Generator/AzureGenerator.cs:159-185 | data-disk storage alerts are Errors about a disk |
| ValidationProperties.DataDiskSlaWarningsAreAboutTheMachine | MigAz.Azure/Generator/AzureGenerator.cs:97-101 | data-disk SLA alerts are Warnings about the machine |
| ValidationProperties.MachineAlertSubjects | MigAz.Azure/Generator/AzureGenerator.cs:87-186 | a machine's alerts are about the machine, a NIC or a disk, and its warnings are its SLA warnings |
| ValidationProperties.VirtualMachinesAlertSubjects | MigAz.Azure/Generator/AzureGenerator.cs:87-186 | every alert of the machine part is about a machine, a NIC or a disk |
| ValidationProperties.LoadBalancerSubjectsComeFromLoadBalancers | MigAz.Azure/Generator/AzureGenerator.cs:46-186 | an alert about a load balancer comes from the load-balancer checks |
| ValidationProperties.MissingResourceGroupIsReportedFirst | MigAz.Azure/Generator/AzureGenerator.cs:46-53 | a missing resource group is the first alert, with a null subject, and that alert appears only then |
| ValidationProperties.MissingLocationIsReportedFirst | MigAz.Azure/Generator/AzureGenerator.cs:54-59 | a group without a target location is the first alert, with the group as subject, and that alert for group n appears exactly when the selected group n has no location |
| ValidationProperties.MissingFrontEndIsReported | MigAz.Azure/Generator/AzureGenerator.cs:73-76 | "must have a FrontEndIpConfiguration" for n appears exactly when a selected balancer n has no front end |
| ValidationProperties.UnboundFrontEndIsReported | MigAz.Azure/Generator/AzureGenerator.cs:77-83 | the binding Error for n appears exactly when a selected balancer n has a first front end with neither public IP nor subnet |
| ValidationProperties.SlaWarningsOfMachine | MigAz.Azure/Generator/AzureGenerator.cs:92-102 | a machine has SLA warnings exactly when it is outside an availability set with a disk on known non-premium storage |
| ValidationProperties.DataDiskSlaWarningsEmpty | MigAz.Azure/Generator/AzureGenerator.cs:97-101 | no data-disk warning exactly when no data disk is on known non-premium storage |
| ValidationProperties.WarningsComeFromSlaChecks | MigAz.Azure/Generator/AzureGenerator.cs:46-186 | every Warning in the list is an SLA warning of a selected machine |
| ValidationProperties.UnprotectedMachineIsWarned | MigAz.Azure/Generator/AzureGenerator.cs:92-102 | a selected machine at SLA risk has its warning in the list |
| ValidationProperties.SlaWarningsExactlyForUnprotectedMachines | MigAz.Azure/Generator/AzureGenerator.cs:92-102 | a Warning about machine n appears exactly when a selected machine n is at SLA risk |
| ValidationProperties.MissingTargetNetworkIsReported | MigAz.Azure/Generator/AzureGenerator.cs:107-110 | an IP configuration without a target network is reported against its NIC |
| ValidationProperties.UnselectedTargetNetworkIsReported | MigAz.Azure/Generator/AzureGenerator.cs:111-128 | an IP configuration bound to an unselected network of this migration is reported (corrected comparison) |
| ValidationProperties.UnselectedOsDiskStorageIsReported | MigAz.Azure/Generator/AzureGenerator.cs:139-157 | an OS disk on an unselected storage account of this migration is reported |
| ValidationProperties.NsgsAlertsEmpty | MigAz.Azure/Generator/AzureGenerator.cs:62-66 | no NSG alert exactly when every selected NSG has a name |
| ValidationProperties.LoadBalancersAlertsEmpty | MigAz.Azure/Generator/AzureGenerator.cs:68-85 | no load-balancer alert exactly when every balancer is named and has a bound first front end |
| ValidationProperties.IpConfigurationAlertsEmpty | MigAz.Azure/Generator/AzureGenerator.cs:106-133 | no alert for an IP configuration exactly when it has a network (selected, if migrated) and a subnet |
| ValidationProperties.IpConfigurationsAlertsEmpty | MigAz.Azure/Generator/AzureGenerator.cs:106-133 | no alert for a NIC exactly when all its IP configurations are valid |
| ValidationProperties.NetworkInterfacesAlertsEmpty | MigAz.Azure/Generator/AzureGenerator.cs:104-134 | no NIC alert exactly when every IP configuration of every NIC is valid |
| ValidationProperties.DataDiskStorageAlertsEmpty | MigAz.Azure/Generator/AzureGenerator.cs:159-185 | no data-disk storage alert exactly when every data disk's storage is set and selected |
| ValidationProperties.MachineAlertsEmpty | MigAz.Azure/Generator/AzureGenerator.cs:87-186 | no alert for a machine exactly when it satisfies every machine rule |
| ValidationProperties.VirtualMachinesAlertsEmpty | MigAz.Azure/Generator/AzureGenerator.cs:87-186 | no machine alert exactly when every machine is valid |
| ValidationProperties.NoAlertsExactlyForValidSelection | MigAz.Azure/Generator/AzureGenerator.cs:42-206 | UpdateArtifacts reports nothing exactly when the selection satisfies every rule it checks |
| Mappings.VMSizeTableIsThePairing | MigAz.Azure/Generator/AzureGenerator.cs:1339-1351 | the size table maps exactly the twelve legacy names, each to its Standard_ name |
| Mappings.GetVMSize | MigAz.Azure/Generator/AzureGenerator.cs:1337-1361 | the legacy size switch; meaning stated by GetVMSizeTranslatesLegacyNames, GetVMSizeChangesOnlyLegacyNames and GetVMSizeIdempotent |
| Mappings.NextHopType | MigAz.Azure/Generator/AzureGenerator.cs:889-906 | the classic next-hop switch, unset for unknown types; meaning stated by NextHopTypeProperties |
| Mappings.VpnType | MigAz.Azure/Generator/AzureGenerator.cs:722-733 | the classic gateway routing type; meaning stated by VpnTypeProperties |
| Mappings.GetVMSizeTranslatesLegacyNames | MigAz.Azure/Generator/AzureGenerator.cs:1337-1361 | the i-th legacy name becomes the i-th Standard_ name; any other size passes through |
| Mappings.StandardNamesAreNotLegacy | MigAz.Azure/Generator/AzureGenerator.cs:1339-1351 | no name starting "Standard_" is a legacy key |
| Mappings.GetVMSizeChangesOnlyLegacyNames | MigAz.Azure/Generator/AzureGenerator.cs:1337-1361 | the size changes exactly for legacy names, and then to a Standard_ name |
| Mappings.GetVMSizeIdempotent | MigAz.Azure/Generator/AzureGenerator.cs:1337-1361 | translating twice is translating once |
| Mappings.GetVMSizeExamples | MigAz.Azure/Generator/AzureGenerator.cs:1337-1361 | ExtraSmall to Standard_A0, A11 to Standard_A11, Standard_D2_v3 unchanged |
| Mappings.NextHopTypeProperties | MigAz.Azure/Generator/AzureGenerator.cs:889-906 | the type is set exactly for the five classic types, never merges two, and is VirtualAppliance only from VirtualAppliance |
| Mappings.NextHopAddressOnlyForAppliance | MigAz.Azure/Generator/AzureGenerator.cs:907-908 | the next-hop address is copied if and only if the type is VirtualAppliance |
| Mappings.NextHopTypeExamples | MigAz.Azure/Generator/AzureGenerator.cs:889-906 | VPNGateway, Null and VNETLocal translate; VirtualNetworkGateway leaves the type unset |
| Mappings.VpnTypeProperties | MigAz.Azure/Generator/AzureGenerator.cs:722-733 | only StaticRouting and DynamicRouting are rewritten, and the mapping is idempotent |
| ArmTemplate.ResourceId | MigAz.Azure/Generator/AzureGenerator.cs:592 | a reference is the concat prefix, the provider, the name and the closing text, in that order |
| ArmTemplate.ResourceIdInjective | MigAz.Azure/Generator/AzureGenerator.cs:592 | for one provider, the reference determines the name |
| ArmTemplate.ResourceIdsOfDifferentProvidersDiffer | MigAz.Azure/Generator/AzureGenerator.cs:592 | references of providers that differ at some position never coincide |
| SeqUtil.AddIfAbsent | MigAz.Azure/Generator/AzureGenerator.cs:597-600 | the guarded add contains the element, keeps every earlier one, adds nothing else and keeps the list duplicate-free |
| SeqUtil.CountOfNoDuplicates | MigAz.Azure/Generator/AzureGenerator.cs:597-600 | in a duplicate-free list an element occurs once if present, else zero times |
| MigrationTarget.SeekIn | MigAz.Azure/Generator/AzureGenerator.cs:1063 | the security-group lookup finds a selected group of that name exactly when one exists |
| Text.ReplaceAllWithoutOccurrence | MigAz.Azure/Generator/AzureGenerator.cs:333-341 | replacing an absent pattern leaves the text unchanged |
| Text.ReplaceAllBySelf | MigAz.Azure/Generator/AzureGenerator.cs:333-341 | replacing a pattern by itself leaves the text unchanged |
| Text.PlaceholderAbsentWithoutBrace | MigAz.Azure/Generator/AzureGenerator.cs:333-341 | a brace-led placeholder cannot be replaced in a text without a brace |
| Text.Without | MigAz.Azure/Generator/AzureGenerator.cs:774 | removing a character keeps every other character and drops that one |
| Text.ReplaceCharacterByNothing | MigAz.Azure/Generator/AzureGenerator.cs:774 | replacing one character by the empty string is removing it |
| Text.ReplaceAll | MigAz.Azure/Generator/AzureGenerator.cs:333-341 | String.Replace, left to right without overlaps; meaning stated by ReplaceAllWithoutOccurrence, ReplaceAllBySelf, PlaceholderReplacedOnce and ReplaceCharacterByNothing |
| Text.BraceFreePrefixIsKept | MigAz.Azure/Generator/AzureGenerator.cs:333-341 | text without a brace before a brace-led placeholder is copied through unchanged |
| Text.PlaceholderReplacedOnce | MigAz.Azure/Generator/AzureGenerator.cs:333-341 | a placeholder occurring once among brace-free text is replaced there and nowhere else |
| Text.OtherPlaceholderIsKept | MigAz.Azure/Generator/AzureGenerator.cs:333-341 | a placeholder is left alone by the replacement of one that differs from it in its second character |
| Instructions.SubscriptionSwitch | MigAz.Azure/Generator/AzureGenerator.cs:317-320 | empty exactly without a target subscription; otherwise it quotes the subscription id |
| Instructions.EnvironmentSwitch | MigAz.Azure/Generator/AzureGenerator.cs:323-326 | empty exactly without a target or for AzureCloud; otherwise it names the environment |
| Instructions.TenantSwitch | MigAz.Azure/Generator/AzureGenerator.cs:328-329 | empty exactly without a target or for the empty tenant GUID; otherwise it quotes the tenant |
| Instructions.PathCombine | MigAz.Azure/Generator/AzureGenerator.cs:1391-1405 | an output path starts with the directory and ends with the file name |
| Instructions.SerializedStreams | MigAz.Azure/Generator/AzureGenerator.cs:269-346 | streams: export.json and DeployInstructions.html always, copyblobdetails.json exactly when there are entries, each with its content |
| Instructions.TemplateWithoutPlaceholdersIsUnchanged | MigAz.Azure/Generator/AzureGenerator.cs:333-341 | a template without a brace is rendered unchanged |
| Instructions.LocationPlaceholderIsReplaced | MigAz.Azure/Generator/AzureGenerator.cs:339 | a template with one "{location}" among brace-free text renders to that text with the location in its place |
| Instructions.RenderInstructions | MigAz.Azure/Generator/AzureGenerator.cs:333-341 | the nine placeholder replacements in order; meaning stated by TemplateWithoutPlaceholdersIsUnchanged and LocationPlaceholderIsReplaced |
| NetworkProperties.SecurityRulesAreTheNonSystemRules | MigAz.Azure/Generator/AzureGenerator.cs:837-859 | a rule is in the template exactly when it translates a non-system rule |
| NetworkSynthesis.SecurityRules | MigAz.Azure/Generator/AzureGenerator.cs:837-859 | the template rules of a security group; meaning stated by NetworkProperties.SecurityRulesAreTheNonSystemRules and BuilderLoops.SecurityRulesOf |
| NetworkSynthesis.NetworkSecurityGroupResource | MigAz.Azure/Generator/AzureGenerator.cs:825-868 | the security-group resource; meaning stated by NetworkProperties.SecurityRulesAreDescribedByName and GenerationProperties.SelectedSecurityGroupsAreBuilt |
| NetworkSynthesis.RouteTableResource | MigAz.Azure/Generator/AzureGenerator.cs:870-924 | the route table BuildRouteTable builds; meaning stated by NetworkProperties.RouteTableTranslatesEveryRoute and RoutesArePositionwise |
| NetworkSynthesis.ArmRouteTableResource | MigAz.Azure/Generator/AzureGenerator.cs:926-963 | the route table BuildARMRouteTable builds (not called from GenerateStreams); meaning stated by NetworkProperties.ArmRouteTableKeepsEveryRoute |
| NetworkSynthesis.BuildVirtualNetwork | MigAz.Azure/Generator/AzureGenerator.cs:557-634 | a network's subnet groups, route tables, network and gateways; meaning stated by NetworkProperties.VirtualNetworkDependsOnEachReferenceOnce and GenerationProperties.SubnetSecurityGroupsAreBuilt |
| NetworkSynthesis.Gateways | MigAz.Azure/Generator/AzureGenerator.cs:636-750 | AddGatewaysToVirtualNetwork; meaning stated by NetworkProperties.GatewaysOnlyForProvisionedClassicGateways, GatewayTypeFollowsFirstLocalSite and MissingGatewaySubnetIsReported |
| NetworkSynthesis.LocalSites | MigAz.Azure/Generator/AzureGenerator.cs:752-823 | AddLocalSiteToGateway; meaning stated by NetworkProperties.EverySiteGetsAConnection, SharedKeysAreNeverEmpty, MissingSharedKeyIsReported and LocalNetworkGatewayNameHasNoBlanks |
| NetworkSynthesis.BuildLoadBalancer | MigAz.Azure/Generator/AzureGenerator.cs:416-555 | a balancer's public IPs and the balancer; meaning stated by NetworkProperties.LoadBalancerDependsOnItsFrontEnds, FrontEndsArePublicOrPrivate and LoadBalancerPublicIpsAreBuilt |
| NetworkSynthesis.PublicIpResource | MigAz.Azure/Generator/AzureGenerator.cs:393-414 | the public IP resource; meaning stated by NetworkProperties.FrontEndPublicIpsAreBuilt |
| NetworkProperties.SecurityRulesAreDescribedByName | MigAz.Azure/Generator/AzureGenerator.cs:843-853 | every template rule's description is its name |
| NetworkProperties.RoutesArePositionwise | MigAz.Azure/Generator/AzureGenerator.cs:880-915 | the route table translates its routes one for one, in order |
| NetworkProperties.ArmRoutesArePositionwise | MigAz.Azure/Generator/AzureGenerator.cs:926-963 | the resource-manager route table copies its routes one for one, in order |
| NetworkProperties.RouteTableTranslatesEveryRoute | MigAz.Azure/Generator/AzureGenerator.cs:870-924 | each route keeps name and prefix; type set exactly for classic types; address exactly for VirtualAppliance |
| NetworkProperties.ArmRouteTableKeepsEveryRoute | MigAz.Azure/Generator/AzureGenerator.cs:926-963 | each route keeps its type verbatim and its address exactly for VirtualAppliance |
| NetworkProperties.RouteBuildersAgreeOnSharedNames | MigAz.Azure/Generator/AzureGenerator.cs:889-963 | for VirtualAppliance and Internet the two route builders produce the same route |
| NetworkProperties.VirtualNetworkDependsOnHasNoDuplicates | MigAz.Azure/Generator/AzureGenerator.cs:597-600 | a network's dependsOn has no duplicate |
| NetworkProperties.VirtualNetworkDependsOnMembership | MigAz.Azure/Generator/AzureGenerator.cs:575-620 | an id is a dependency exactly when some subnet refers to it as its NSG or route table |
| NetworkProperties.VirtualNetworkDependsOnEachReferenceOnce | MigAz.Azure/Generator/AzureGenerator.cs:597-600 | each referenced NSG or route table appears once however many subnets share it, nothing else appears |
| NetworkProperties.SubnetReferencesAreDependencies | MigAz.Azure/Generator/AzureGenerator.cs:587-619 | every subnet reference is among the network's dependencies |
| NetworkProperties.GatewaysOnlyForProvisionedClassicGateways | MigAz.Azure/Generator/AzureGenerator.cs:638-643 | gateway resources exist exactly for a classic network with a provisioned gateway; public IP first, then the gateway |
| NetworkProperties.GatewayTypeFollowsFirstLocalSite | MigAz.Azure/Generator/AzureGenerator.cs:715-734 | ExpressRoute with no VPN type or BGP flag exactly when the first site is Dedicated; otherwise Vpn with the routing type translated |
| NetworkProperties.LocalSitesAlertsAreAboutConnections | MigAz.Azure/Generator/AzureGenerator.cs:752-823 | local-site alerts are missing shared key or ExpressRoute circuit alerts |
| NetworkProperties.MissingGatewaySubnetIsReported | MigAz.Azure/Generator/AzureGenerator.cs:744-745 | the GatewaySubnet Error appears exactly when the network lacks it |
| NetworkProperties.LocalNetworkGatewayNameHasNoBlanks | MigAz.Azure/Generator/AzureGenerator.cs:773-774 | the local gateway name has no blank and keeps every other character of the site name |
| NetworkProperties.EverySiteGetsAConnection | MigAz.Azure/Generator/AzureGenerator.cs:805-820 | every local site gets a connection bound to and depending on the gateway |
| NetworkProperties.SharedKeysAreNeverEmpty | MigAz.Azure/Generator/AzureGenerator.cs:788-797 | no connection has an empty shared key |
| NetworkProperties.MissingSharedKeyIsReported | MigAz.Azure/Generator/AzureGenerator.cs:788-797 | the missing-key Error appears exactly when some IPsec site has no key |
| NetworkProperties.FrontEndsArePositionwise | MigAz.Azure/Generator/AzureGenerator.cs:433-468 | front ends are translated one for one, in order |
| NetworkProperties.FrontEndsArePublicOrPrivate | MigAz.Azure/Generator/AzureGenerator.cs:433-468 | each front end is public (public IP only) or private (address and subnet reference, empty unless network and subnet are set) |
| NetworkProperties.LoadBalancerDependsOnMembership | MigAz.Azure/Generator/AzureGenerator.cs:443-467 | the front-end loop's dependencies are exactly the public IPs and migrated networks the front ends need |
| NetworkProperties.LoadBalancerDependsOnItsFrontEnds | MigAz.Azure/Generator/AzureGenerator.cs:416-555 | a balancer depends exactly on its front ends' public IPs and migrated networks |
| NetworkProperties.FrontEndPublicIpsAreBuilt | MigAz.Azure/Generator/AzureGenerator.cs:455-467 | a public IP is built for exactly the public front ends |
| NetworkProperties.LoadBalancerPublicIpsAreBuilt | MigAz.Azure/Generator/AzureGenerator.cs:393-468 | each public front end refers to a public IP built with the balancer |
| ComputeSynthesis.AdminParameters | MigAz.Azure/Generator/AzureGenerator.cs:1150-1162 | adds adminUsername ("string") and adminPassword ("securestring") only if absent, keeping every other entry |
| ComputeSynthesis.StorageAccountResource | MigAz.Azure/Generator/AzureGenerator.cs:1320-1335 | the storage account resource; meaning stated by GenerationProperties.SelectedStorageAccountsAreBuilt and StorageDependenciesOfValidSelectionAreBuilt |
| ComputeSynthesis.AvailabilitySetResource | MigAz.Azure/Generator/AzureGenerator.cs:377-391 | the availability set resource; meaning stated by ComputeProperties.AvailabilitySetIsBuiltAndReferenced |
| ComputeSynthesis.BuildNetworkInterface | MigAz.Azure/Generator/AzureGenerator.cs:965-1093 | a NIC's public IPs and the NIC; meaning stated by ComputeProperties.NicDependsOnItsConfigurations, NicPublicIpsAreBuilt and NicSecurityGroupIsReferencedOrReported |
| ComputeSynthesis.ImageReferenceFor | MigAz.Azure/Generator/AzureGenerator.cs:1164-1184 | the marketplace image by OS name; meaning stated by ComputeProperties.ImageReferenceSwitch |
| ComputeSynthesis.BuildVirtualMachine | MigAz.Azure/Generator/AzureGenerator.cs:1095-1280 | a machine's NICs, availability set, machine and copy-blob entries; meaning stated by ComputeProperties.MachineNicsAreBuiltAndReferenced, MachineDependsOnItsMigratedStorage, BuildEmptyCreatesFromImage and AttachCopiesEveryAttachedDisk |
| ComputeSynthesis.CopyBlobOf | MigAz.Azure/Generator/AzureGenerator.cs:1282-1318 | BuildCopyBlob; meaning stated by ComputeProperties.CopyBlobNullWithoutSource and CopyBlobCopiesSourceToTarget |
| ComputeProperties.NicIpConfigurationsArePositionwise | MigAz.Azure/Generator/AzureGenerator.cs:976-1045 | IP configurations are translated one for one, in order |
| ComputeProperties.NicIpConfigurationReferences | MigAz.Azure/Generator/AzureGenerator.cs:976-1045 | each configuration keeps name and address, refers to its subnet, pool and NAT rules, and to a public IP exactly when the NIC has them |
| ComputeProperties.InboundNatRuleReferencesLength | MigAz.Azure/Generator/AzureGenerator.cs:1018-1027 | one NAT reference per NAT rule |
| ComputeProperties.NicPublicIpsCount | MigAz.Azure/Generator/AzureGenerator.cs:1029-1042 | a NIC with public IPs builds one per configuration, all named like the NIC |
| ComputeProperties.NicPublicIpsAreBuilt | MigAz.Azure/Generator/AzureGenerator.cs:1029-1042 | the NIC's resources are its public IPs then itself, and it depends on its public IP |
| ComputeProperties.IpConfigurationsDependOn | MigAz.Azure/Generator/AzureGenerator.cs:993-1041 | the configurations' dependencies are exactly their migrated networks, pool balancer and public IP |
| ComputeProperties.NicSecurityGroupIsReferencedOrReported | MigAz.Azure/Generator/AzureGenerator.cs:1061-1084 | a selected NSG is referenced and depended on; an unselected one gives neither and exactly one Error with null subject; none gives nothing |
| ComputeProperties.NicDependsOnItsConfigurations | MigAz.Azure/Generator/AzureGenerator.cs:965-1093 | a NIC depends exactly on what its configurations need and its selected NSG |
| ComputeProperties.NetworkProfileIsPositionwise | MigAz.Azure/Generator/AzureGenerator.cs:1054-1059 | the network profile lists each NIC in order with its primary flag |
| ComputeProperties.NetworkInterfacesAreBuilt | MigAz.Azure/Generator/AzureGenerator.cs:1118-1122 | every NIC of a machine is built |
| ComputeProperties.MachineNicsAreBuiltAndReferenced | MigAz.Azure/Generator/AzureGenerator.cs:1118-1128 | each NIC is built, depended on and listed in the profile |
| ComputeProperties.AvailabilitySetIsBuiltAndReferenced | MigAz.Azure/Generator/AzureGenerator.cs:1249-1261 | the availability set is built, referenced and depended on |
| ComputeProperties.DataDiskStorageDependenciesMembership | MigAz.Azure/Generator/AzureGenerator.cs:1230-1231 | the guarded list stays duplicate-free and holds exactly the earlier targets and the data disks' targets |
| ComputeProperties.StorageDependenciesAreTheUsedTargets | MigAz.Azure/Generator/AzureGenerator.cs:1108-1231 | each storage target the machine's disks use is listed exactly once, and nothing else |
| ComputeProperties.StorageDependsOnMembership | MigAz.Azure/Generator/AzureGenerator.cs:1263-1267 | a storage dependsOn entry exists exactly for listed targets that are accounts of this migration |
| ComputeProperties.MachineDependsOnItsMigratedStorage | MigAz.Azure/Generator/AzureGenerator.cs:1263-1267 | a machine depends on the migrated accounts its disks use and never on an existing account |
| ComputeProperties.DisksWithStorage | MigAz.Azure/Generator/AzureGenerator.cs:1199 | the attached data disks are exactly those with a target account |
| ComputeProperties.DataDisksAreTheDisksWithStorage | MigAz.Azure/Generator/AzureGenerator.cs:1197-1235 | data disks and their copy-blob entries correspond position by position to the disks with storage |
| ComputeProperties.BuildEmptyCreatesFromImage | MigAz.Azure/Generator/AzureGenerator.cs:1142-1185 | for every machine built empty: OS disk FromImage without an OS type, the admin profile, the image for its OS, every attached data disk Empty, no copy-blob entry |
| ComputeProperties.AttachCopiesEveryAttachedDisk | MigAz.Azure/Generator/AzureGenerator.cs:1187-1235 | for every machine that attaches: OS disk Attach with its OS type, no profile or image, the OS disk's entry first, then each attached data disk Attach at its media link with its entry at the matching position |
| ComputeProperties.CopyBlobNullWithoutSource | MigAz.Azure/Generator/AzureGenerator.cs:1284-1285 | the entry is null exactly when the disk has no source disk |
| ComputeProperties.CopyBlobCopiesSourceToTarget | MigAz.Azure/Generator/AzureGenerator.cs:1287-1317 | the entry copies the ASM or ARM source blob to the disk's target account, container and blob; environment named exactly with a source subscription |
| ComputeProperties.ValidMachineCanBeCopied | MigAz.Azure/Generator/AzureGenerator.cs:136-137 | a machine that passes validation has what BuildCopyBlob needs |
| ComputeProperties.AdminParametersIdempotent | MigAz.Azure/Generator/AzureGenerator.cs:1150-1162 | adding the admin parameters twice is adding them once |
| ComputeProperties.ImageReferenceSwitch | MigAz.Azure/Generator/AzureGenerator.cs:1164-1184 | for every OS name: Windows Server 2016-Datacenter for "Windows", Ubuntu 16.04.0-LTS for "Linux", the four placeholders otherwise; the version is "latest" exactly for Windows and Linux |
| Generation.VirtualMachinesStep | MigAz.Azure/Generator/AzureGenerator.cs:251-255 | one more machine extends the machines' output and parameters |
| Generation.Generate | MigAz.Azure/Generator/AzureGenerator.cs:217-256 | what one run appends, category by category; meaning stated by GenerationProperties.EverySelectedResourceIsBuilt, GenerateResourcesInOrder and CopyBlobManifestCountsCopiedDisks |
| Generation.ParametersAfter | MigAz.Azure/Generator/AzureGenerator.cs:1150-1162 | the parameters after the machine loop; meaning stated by GenerationProperties.AdminParametersAddedOnce |
| GenerationProperties.SelectedSecurityGroupsAreBuilt | MigAz.Azure/Generator/AzureGenerator.cs:219-223 | every selected NSG is in the NSG category's output |
| GenerationProperties.SelectedVirtualNetworksAreBuilt | MigAz.Azure/Generator/AzureGenerator.cs:227-231 | every selected network is in the network category's output |
| GenerationProperties.SelectedLoadBalancersAreBuilt | MigAz.Azure/Generator/AzureGenerator.cs:235-239 | every selected balancer is in the balancer category's output |
| GenerationProperties.SelectedStorageAccountsAreBuilt | MigAz.Azure/Generator/AzureGenerator.cs:243-247 | every selected account is in the storage category's output |
| GenerationProperties.SelectedMachinesAreBuilt | MigAz.Azure/Generator/AzureGenerator.cs:251-255 | every selected machine is in the machine category's output |
| GenerationProperties.EverySelectedResourceIsBuilt | MigAz.Azure/Generator/AzureGenerator.cs:208-263 | every selected NSG, network, balancer, account and machine is in the template |
| GenerationProperties.LocalSitesCopyNothing | MigAz.Azure/Generator/AzureGenerator.cs:752-823 | local sites add no copy-blob entry |
| GenerationProperties.VirtualNetworksCopyNothing | MigAz.Azure/Generator/AzureGenerator.cs:227-231 | networks add no copy-blob entry |
| GenerationProperties.OtherCategoriesCopyNothing | MigAz.Azure/Generator/AzureGenerator.cs:219-247 | NSGs, balancers and accounts add no copy-blob entry |
| GenerationProperties.NsgsCopyNothing | MigAz.Azure/Generator/AzureGenerator.cs:219-223 | NSGs add no copy-blob entry |
| GenerationProperties.LoadBalancersCopyNothing | MigAz.Azure/Generator/AzureGenerator.cs:235-239 | balancers add no copy-blob entry |
| GenerationProperties.StorageAccountsCopyNothing | MigAz.Azure/Generator/AzureGenerator.cs:243-247 | accounts add no copy-blob entry |
| GenerationProperties.NetworkInterfacesCopyNothing | MigAz.Azure/Generator/AzureGenerator.cs:965-1093 | NICs add no copy-blob entry |
| GenerationProperties.MachinesCopyTheirDisks | MigAz.Azure/Generator/AzureGenerator.cs:1187-1235 | the machines add no entry when built empty, otherwise one per copied disk |
| GenerationProperties.CopyBlobManifestCountsCopiedDisks | MigAz.Azure/Generator/AzureGenerator.cs:208-263 | the manifest has no entry when built empty, otherwise one per OS disk and per data disk with a target account |
| GenerationProperties.AdminParametersAddedOnce | MigAz.Azure/Generator/AzureGenerator.cs:1150-1162 | after any number of machines the admin parameters were added once (built empty, at least one machine), else parameters are unchanged |
| GenerationProperties.ValidSelectionCanBeGenerated | MigAz.Azure/Generator/AzureGenerator.cs:136-137 | a selection that passes validation meets what the copy-blob builder needs |
| GenerationProperties.StorageDependenciesOfValidSelectionAreBuilt | MigAz.Azure/Generator/AzureGenerator.cs:1263-1267 | in a valid selection every storage dependency names a selected account that the template builds |
| GenerationProperties.SubnetSecurityGroupsAreBuilt | MigAz.Azure/Generator/AzureGenerator.cs:587-589 | a subnet's NSG is built with the subnets |
| GenerationProperties.SubnetSecurityGroupsInNetworks | MigAz.Azure/Generator/AzureGenerator.cs:589 | a selected network's subnet NSG is in the network category's output |
| GenerationProperties.SharedSecurityGroupIsEmittedTwice | MigAz.Azure/Generator/AzureGenerator.cs:219-223 | a selected NSG that a selected subnet also uses is emitted at least twice (no deduplication) |
| GenerationProperties.GenerateResourcesInOrder | MigAz.Azure/Generator/AzureGenerator.cs:217-256 | the template's resources are the categories' resources in order |
| BuilderLoops.SecurityRulesOf | MigAz.Azure/Generator/AzureGenerator.cs:837-859 | the rule loop keeps exactly the translated non-system rules, in order |
| BuilderLoops.VirtualNetworkDependencies | MigAz.Azure/Generator/AzureGenerator.cs:575-620 | the guarded subnet loop gives a duplicate-free list of exactly the subnets' NSG and route-table ids |
| BuilderLoops.StorageAccountDependencies | MigAz.Azure/Generator/AzureGenerator.cs:1108-1231 | the OS disk's and data disks' targets, each exactly once, and only those used |
| BuilderLoops.AppendStorageDependsOn | MigAz.Azure/Generator/AzureGenerator.cs:1263-1267 | appends an entry for exactly the listed targets that are accounts of this migration |

## Left out

- Logging, status and telemetry calls, `ExecutionGuid`, `async`/`await` and the `OnTemplateChanged` event (:369-373) are left out. They have no bearing on the output, and nothing runs concurrently.
- JSON serialisation (including the `"schemalink"` replacement), `ASCIIEncoding` and `MemoryStream` are left out. A stream holds its content as a value: the template's resources and parameters, the manifest entries, or the instruction text.
- `UpdateExportJsonStream` (:354-367) is folded into `SerializeStreams`.
- `GetTemplate` (:1363-1374) returns the stored template document instead of a parsed `JObject`.
- The instructions template is an embedded assembly resource, and `{migAzPath}` and `{migAzMessages}` come from `AppDomain.CurrentDomain.BaseDirectory` and `BuildMigAzMessages`. All three are parameters of `SerializeStreams`.
- The output directory is a constructor parameter.
- `Path.Combine` is modelled for a file name that is not rooted, the only case the generator uses.
- The base class `TemplateGenerator` is not part of this model, so four things about it are assumed:
  - `AddResource` and `AddAlert` append to their lists;
  - `ArmConst` holds the provider paths that appear in `ArmTemplate`;
  - `ToString()` of a migration target is its name;
  - `List.Contains` on storage targets compares them as values.
- Generator.AzureGenerator.GenerateStreams requires that every OS disk with a source disk has a target storage account. Otherwise `BuildCopyBlob` dereferences a null account (:1313) and throws. The exception path is not modelled. A selection that passes validation always meets the requirement (`GenerationProperties.ValidSelectionCanBeGenerated`).
- Generator.AzureGenerator.BuildVirtualMachineObject requires the same of its one machine, for the same reason.
- Other null dereferences of the source are not modelled either, because the input records cannot hold a null there:
  - a load-balancing rule's front end, back-end pool and probe are plain names, so the `NullReferenceException` that :529-535 throws when one of them is null does not arise;
  - a virtual network's source network is a tagged ASM or ARM variant, so `SourceVirtualNetwork.GetType()` at :638 never meets a null.
- The builders for load balancers, networks, gateways, local sites, NICs and machines are functions on values, and the class appends their results through `Emit`. Only the list-building loops inside them are written as loops (`BuilderLoops`), so the order in which one builder's own `AddResource` calls happen is given by the function's concatenation order, not by statements.
- The classic route table is modelled as it reaches the generator; `BuildARMRouteTable` (:926-963) works over the same route record. Nothing in `AzureGenerator.cs` calls `BuildARMRouteTable` (only `BuildRouteTable` is called, at :606), so `NetworkSynthesis.ArmRouteTableResource` and the `ArmRoute*` lemmas describe a builder that `GenerateStreams` never reaches.
- The environment switch, which the source sets twice in a row (:323-326), is modelled once.
- `UpdateArtifacts` is split into one method per check (`Validate*`), and `GenerateStreams` into one method per category loop. The order of the checks and loops is the source's.
- MigAz.Azure/UserControls/LoadBalancerProperties.cs is a WinForms control and is not part of this model. MigAz.Azure/Arm/LoadBalancer.cs is not part of this model either: its only logic is `ToString` returning the name. The same goes for aws/source/MIGAZ/Models/TelemetryRecord.cs, a data record with no behaviour.

## Findings

| source | as written | input that shows it | evidently intended | confidence | as-written member | corrected member |
|---|---|---|---|---|---|---|
| MigAz.Azure/Generator/AzureGenerator.cs:119 | the loop over the selected virtual networks compares the NIC's target network name with itself, so it succeeds on the first selected network | one selected network "vnet-a" and a NIC IP configuration targeting the migrated network "vnet-b": no "not included" Error is raised | compare the target network's name with each selected network's name, and raise the Error when none matches | not executed | Validation.SelfComparisonAcceptsUnselectedNetwork | Validation.VirtualNetworkListed |
