/**
 * What the network builders of AzureGenerator produce, as functions of their
 * input: network security groups, route tables, virtual networks with their
 * gateways and local sites, public IP addresses and load balancers.
 *
 * The class methods in module Generator are proved to append exactly these
 * values; module NetworkProperties proves what they mean.
 */
module NetworkSynthesis {
  import opened Wrappers
  import opened SeqUtil
  import opened Mappings
  import opened ArmTemplate
  import opened Emission
  import MT = MigrationTarget
  import Text

  // ---------------------------------------------------------------------
  // Network security groups (BuildNetworkSecurityGroup)
  // ---------------------------------------------------------------------

  /** A rule keeps all its fields; its name doubles as its description. */
  function SecurityRuleOf(rule: MT.NetworkSecurityGroupRule): SecurityRule {
    SecurityRule(
      rule.name, rule.name, rule.direction, rule.priority, rule.access,
      rule.sourceAddressPrefix, rule.destinationAddressPrefix,
      rule.sourcePortRange, rule.destinationPortRange, rule.protocol)
  }

  /** The security rules of the template: the non-system rules, in order. */
  function SecurityRules(rules: seq<MT.NetworkSecurityGroupRule>): seq<SecurityRule> {
    if rules == [] then []
    else
      SecurityRules(rules[..|rules| - 1])
      + (if rules[|rules| - 1].isSystemRule then [] else [SecurityRuleOf(rules[|rules| - 1])])
  }

  function NetworkSecurityGroupResource(nsg: MT.NetworkSecurityGroup): ArmResource {
    ArmResource(nsg.name, ResourceGroupLocation, [], NetworkSecurityGroupProperties(SecurityRules(nsg.rules)))
  }

  function NetworkSecurityGroupId(name: string): string {
    ResourceId(ProviderNetworkSecurityGroups, name)
  }

  // ---------------------------------------------------------------------
  // Route tables (BuildRouteTable, BuildARMRouteTable)
  // ---------------------------------------------------------------------

  function RouteOf(route: MT.Route): Route {
    var hop := NextHopType(route.nextHopType);
    Route(route.name, route.addressPrefix, hop, NextHopIpAddress(hop, route.nextHopIpAddress))
  }

  function Routes(routes: seq<MT.Route>): seq<Route> {
    if routes == [] then [] else Routes(routes[..|routes| - 1]) + [RouteOf(routes[|routes| - 1])]
  }

  function RouteTableResource(table: MT.RouteTable): ArmResource {
    ArmResource(table.name, ResourceGroupLocation, [], RouteTableProperties(Routes(table.routes)))
  }

  /** A resource-manager route keeps its next-hop type as it is. */
  function ArmRouteOf(route: MT.Route): Route {
    Route(route.name, route.addressPrefix, Some(route.nextHopType),
          if route.nextHopType == "VirtualAppliance" then Some(route.nextHopIpAddress) else None)
  }

  function ArmRoutes(routes: seq<MT.Route>): seq<Route> {
    if routes == [] then [] else ArmRoutes(routes[..|routes| - 1]) + [ArmRouteOf(routes[|routes| - 1])]
  }

  function ArmRouteTableResource(table: MT.RouteTable): ArmResource {
    ArmResource(table.name, ResourceGroupLocation, [], RouteTableProperties(ArmRoutes(table.routes)))
  }

  function RouteTableId(name: string): string {
    ResourceId(ProviderRouteTables, name)
  }

  // ---------------------------------------------------------------------
  // Virtual networks (BuildVirtualNetworkObject)
  // ---------------------------------------------------------------------

  function SubnetOf(subnet: MT.Subnet): Subnet {
    Subnet(
      subnet.targetName, subnet.addressPrefix,
      if subnet.networkSecurityGroup.Some? then Some(Ref(NetworkSecurityGroupId(subnet.networkSecurityGroup.value.name))) else None,
      if subnet.routeTable.Some? then Some(Ref(RouteTableId(subnet.routeTable.value.name))) else None)
  }

  function Subnets(subnets: seq<MT.Subnet>): seq<Subnet> {
    if subnets == [] then [] else Subnets(subnets[..|subnets| - 1]) + [SubnetOf(subnets[|subnets| - 1])]
  }

  /** The resources a subnet adds: its NSG, then its route table. */
  function SubnetResources(subnet: MT.Subnet): seq<ArmResource> {
    (if subnet.networkSecurityGroup.Some? then [NetworkSecurityGroupResource(subnet.networkSecurityGroup.value)] else [])
    + (if subnet.routeTable.Some? then [RouteTableResource(subnet.routeTable.value)] else [])
  }

  function SubnetsResources(subnets: seq<MT.Subnet>): seq<ArmResource> {
    if subnets == [] then [] else SubnetsResources(subnets[..|subnets| - 1]) + SubnetResources(subnets[|subnets| - 1])
  }

  /** The dependencies a subnet adds, each only if absent. */
  function SubnetDependsOn(deps: seq<string>, subnet: MT.Subnet): seq<string> {
    var withNsg := if subnet.networkSecurityGroup.Some?
      then AddIfAbsent(deps, NetworkSecurityGroupId(subnet.networkSecurityGroup.value.name)) else deps;
    if subnet.routeTable.Some? then AddIfAbsent(withNsg, RouteTableId(subnet.routeTable.value.name)) else withNsg
  }

  function VirtualNetworkDependsOn(subnets: seq<MT.Subnet>): seq<string> {
    if subnets == [] then [] else SubnetDependsOn(VirtualNetworkDependsOn(subnets[..|subnets| - 1]), subnets[|subnets| - 1])
  }

  function VirtualNetworkId(name: string): string {
    ResourceId(ProviderVirtualNetwork, name)
  }

  function VirtualNetworkResource(vnet: MT.VirtualNetwork): ArmResource {
    ArmResource(
      vnet.name, ResourceGroupLocation, VirtualNetworkDependsOn(vnet.subnets),
      VirtualNetworkProperties(vnet.addressPrefixes, Subnets(vnet.subnets), vnet.dnsServers))
  }

  // ---------------------------------------------------------------------
  // Gateways (AddGatewaysToVirtualNetwork)
  // ---------------------------------------------------------------------

  function GatewayName(vnet: MT.VirtualNetwork, settings: MT.Settings): string {
    vnet.name + settings.virtualNetworkGatewaySuffix
  }

  function GatewayPublicIpName(vnet: MT.VirtualNetwork, settings: MT.Settings): string {
    GatewayName(vnet, settings) + settings.publicIPSuffix
  }

  function PublicIpId(name: string): string {
    ResourceId(ProviderPublicIpAddress, name)
  }

  function GatewayId(name: string): string {
    ResourceId(ProviderVirtualNetworkGateways, name)
  }

  function GatewayPublicIpResource(vnet: MT.VirtualNetwork, settings: MT.Settings): ArmResource {
    ArmResource(GatewayPublicIpName(vnet, settings), ResourceGroupLocation, [],
                PublicIPAddressProperties(Some("Dynamic"), None))
  }

  function VpnClientCertificates(certificates: seq<MT.ClientRootCertificate>): seq<VpnClientCertificate> {
    if certificates == [] then []
    else
      VpnClientCertificates(certificates[..|certificates| - 1])
      + [VpnClientCertificate(certificates[|certificates| - 1].targetSubject, certificates[|certificates| - 1].publicCertData)]
  }

  /** The point-to-site configuration, present only when client address prefixes exist. */
  function VpnClientConfigurationOf(asm: MT.AsmVirtualNetwork): Option<VpnClientConfiguration> {
    if |asm.vpnClientAddressPrefixes| > 0
    then Some(VpnClientConfiguration(asm.vpnClientAddressPrefixes, VpnClientCertificates(asm.clientRootCertificates)))
    else None
  }

  /** The first local site is a dedicated (ExpressRoute) connection. */
  predicate ConnectsToExpressRoute(asm: MT.AsmVirtualNetwork) {
    |asm.localNetworkSites| > 0 && asm.localNetworkSites[0].connectionType == "Dedicated"
  }

  function GatewayProperties(vnet: MT.VirtualNetwork, asm: MT.AsmVirtualNetwork, gateway: MT.AsmGateway, settings: MT.Settings): Properties {
    var ipConfiguration := GatewayIpConfiguration(
      "GatewayIPConfig", "Dynamic",
      Ref(VirtualNetworkId(vnet.name + "/subnets/" + GatewaySubnetName)),
      Ref(PublicIpId(GatewayPublicIpName(vnet, settings))));
    VirtualNetworkGatewayProperties(
      [ipConfiguration], Sku("Basic", "Basic"),
      if ConnectsToExpressRoute(asm) then "ExpressRoute" else "Vpn",
      if ConnectsToExpressRoute(asm) then None else Some(VpnType(gateway.gatewayType)),
      None,
      VpnClientConfigurationOf(asm))
  }

  function GatewayResource(vnet: MT.VirtualNetwork, asm: MT.AsmVirtualNetwork, gateway: MT.AsmGateway, settings: MT.Settings): ArmResource {
    ArmResource(
      GatewayName(vnet, settings), ResourceGroupLocation,
      [VirtualNetworkId(vnet.name), PublicIpId(GatewayPublicIpName(vnet, settings))],
      GatewayProperties(vnet, asm, gateway, settings))
  }

  /** A classic network with a provisioned gateway gets a public IP, the gateway and its connections. */
  function Gateways(vnet: MT.VirtualNetwork, settings: MT.Settings): Emitted {
    match vnet.source
    case ArmSource => Nothing
    case AsmSource(asm) =>
      if asm.gateway.Some? && asm.gateway.value.isProvisioned then
        var name := GatewayName(vnet, settings);
        Emitted(
          [GatewayPublicIpResource(vnet, settings), GatewayResource(vnet, asm, asm.gateway.value, settings)],
          if asm.hasGatewaySubnet then []
          else [Alert(Error, NoGatewaySubnet(vnet.name, name), AsmVirtualNetworkSubject(asm.name))],
          [])
        .Then(LocalSites(asm, asm.localNetworkSites, name))
      else Nothing
  }

  // ---------------------------------------------------------------------
  // Local sites and connections (AddLocalSiteToGateway)
  // ---------------------------------------------------------------------

  const SharedKeyPlaceholder: string := "***SHARED KEY GOES HERE***"

  const ExpressRouteCircuitPeer: string := "/subscriptions/***/resourceGroups/***" + ProviderExpressRouteCircuits + "***"

  /** The site name with "-LocalGateway" appended and every blank removed. */
  function LocalNetworkGatewayName(site: MT.LocalNetworkSite): string {
    Text.ReplaceAll(site.name + "-LocalGateway", " ", "")
  }

  function LocalNetworkGatewayId(name: string): string {
    ResourceId(ProviderLocalNetworkGateways, name)
  }

  function ConnectionName(gateway: string, site: MT.LocalNetworkSite): string {
    gateway + "-" + site.targetName + "-connection"
  }

  function ConnectionResource(gateway: string, site: MT.LocalNetworkSite, dependsOn: seq<string>, properties: Properties): ArmResource {
    ArmResource(ConnectionName(gateway, site), ResourceGroupLocation, dependsOn, properties)
  }

  /** One local site: an IPsec site gets a local network gateway and a connection, any other site a connection. */
  function LocalSite(asm: MT.AsmVirtualNetwork, site: MT.LocalNetworkSite, gateway: string): Emitted {
    var gatewayRef := Ref(GatewayId(gateway));
    if site.connectionType == "IPsec" then
      var lngName := LocalNetworkGatewayName(site);
      var lngId := LocalNetworkGatewayId(lngName);
      var keyMissing := site.sharedKey == "";
      Emitted(
        [ArmResource(lngName, ResourceGroupLocation, [],
                     LocalNetworkGatewayProperties(site.addressPrefixes, site.vpnGatewayAddress)),
         ConnectionResource(gateway, site, [lngId, GatewayId(gateway)],
           GatewayConnectionProperties(Some(site.connectionType), gatewayRef, Some(Ref(lngId)), None,
                                       Some(if keyMissing then SharedKeyPlaceholder else site.sharedKey)))],
        if keyMissing then [Alert(Error, NoSharedKey(gateway), AsmVirtualNetworkSubject(asm.name))] else [],
        [])
    else if site.connectionType == "Dedicated" then
      Emitted(
        [ConnectionResource(gateway, site, [GatewayId(gateway)],
           GatewayConnectionProperties(Some("ExpressRoute"), gatewayRef, None, Some(Ref(ExpressRouteCircuitPeer)), None))],
        [Alert(Error, ExpressRouteCircuit(gateway), AsmVirtualNetworkSubject(asm.name))],
        [])
    else
      Resources([ConnectionResource(gateway, site, [GatewayId(gateway)],
                   GatewayConnectionProperties(None, gatewayRef, None, None, None))])
  }

  function LocalSites(asm: MT.AsmVirtualNetwork, sites: seq<MT.LocalNetworkSite>, gateway: string): Emitted {
    if sites == [] then Nothing
    else LocalSites(asm, sites[..|sites| - 1], gateway).Then(LocalSite(asm, sites[|sites| - 1], gateway))
  }

  /** Everything BuildVirtualNetworkObject appends for one network. */
  function BuildVirtualNetwork(vnet: MT.VirtualNetwork, settings: MT.Settings): Emitted {
    Resources(SubnetsResources(vnet.subnets) + [VirtualNetworkResource(vnet)]).Then(Gateways(vnet, settings))
  }

  // ---------------------------------------------------------------------
  // Public IP addresses and load balancers
  // (BuildPublicIPAddressObject, BuildLoadBalancerObject)
  // ---------------------------------------------------------------------

  /** The DNS label is set only when it is not empty. */
  function PublicIpResource(publicIp: MT.PublicIp): ArmResource {
    ArmResource(
      publicIp.name, ResourceGroupLocation, [],
      PublicIPAddressProperties(None, if publicIp.domainNameLabel != "" then Some(publicIp.domainNameLabel) else None))
  }

  /** A front end is either public (a public IP reference) or private (allocation, address and subnet). */
  function FrontEndOf(fe: MT.FrontEndIpConfiguration): FrontendIPConfiguration {
    if fe.publicIp.None? then
      FrontendIPConfiguration(
        fe.name, Some(fe.privateIPAllocationMethod), Some(fe.privateIPAddress),
        Some(if fe.targetVirtualNetwork.Some? && fe.targetSubnet.Some? then Ref(fe.targetSubnet.value.targetId) else EmptyRef),
        None)
    else
      FrontendIPConfiguration(fe.name, None, None, None, Some(Ref(PublicIpId(fe.publicIp.value.name))))
  }

  function FrontEnds(fes: seq<MT.FrontEndIpConfiguration>): seq<FrontendIPConfiguration> {
    if fes == [] then [] else FrontEnds(fes[..|fes| - 1]) + [FrontEndOf(fes[|fes| - 1])]
  }

  /** The dependency a front end adds: its public IP, or its virtual network when that is part of the migration. */
  function FrontEndDependsOn(fe: MT.FrontEndIpConfiguration): seq<string> {
    if fe.publicIp.Some? then [PublicIpId(fe.publicIp.value.name)]
    else if fe.targetVirtualNetwork.Some? && fe.targetVirtualNetwork.value.InMigrationVirtualNetwork?
    then [VirtualNetworkId(fe.targetVirtualNetwork.value.name)]
    else []
  }

  function FrontEndsDependsOn(fes: seq<MT.FrontEndIpConfiguration>): seq<string> {
    if fes == [] then [] else FrontEndsDependsOn(fes[..|fes| - 1]) + FrontEndDependsOn(fes[|fes| - 1])
  }

  /** The public IP resources the front ends add, in order. */
  function FrontEndsResources(fes: seq<MT.FrontEndIpConfiguration>): seq<ArmResource> {
    if fes == [] then []
    else
      FrontEndsResources(fes[..|fes| - 1])
      + (if fes[|fes| - 1].publicIp.Some? then [PublicIpResource(fes[|fes| - 1].publicIp.value)] else [])
  }

  function InboundNatRuleOf(loadBalancer: string, rule: MT.InboundNatRule): InboundNatRule {
    InboundNatRule(
      rule.name, rule.frontEndPort, rule.backEndPort, rule.protocol,
      if rule.hasFrontEndIpConfiguration
      then Some(Ref(LoadBalancerChildId(loadBalancer, "frontendIPConfigurations", "default")))
      else None)
  }

  function InboundNatRules(loadBalancer: string, rules: seq<MT.InboundNatRule>): seq<InboundNatRule> {
    if rules == [] then []
    else InboundNatRules(loadBalancer, rules[..|rules| - 1]) + [InboundNatRuleOf(loadBalancer, rules[|rules| - 1])]
  }

  function ProbeOf(probe: MT.Probe): Probe {
    Probe(probe.name, probe.port, probe.protocol, probe.intervalInSeconds, probe.numberOfProbes, probe.requestPath)
  }

  function Probes(probes: seq<MT.Probe>): seq<Probe> {
    if probes == [] then [] else Probes(probes[..|probes| - 1]) + [ProbeOf(probes[|probes| - 1])]
  }

  function LoadBalancingRuleOf(loadBalancer: string, rule: MT.LoadBalancingRule): LoadBalancingRule {
    LoadBalancingRule(
      rule.name,
      Ref(LoadBalancerChildId(loadBalancer, "frontendIPConfigurations", rule.frontEndIpConfigurationName)),
      Ref(LoadBalancerChildId(loadBalancer, "backendAddressPools", rule.backEndAddressPoolName)),
      Ref(ProbeId(loadBalancer, rule.probeName)),
      rule.frontEndPort, rule.backEndPort, rule.protocol)
  }

  function LoadBalancingRules(loadBalancer: string, rules: seq<MT.LoadBalancingRule>): seq<LoadBalancingRule> {
    if rules == [] then []
    else LoadBalancingRules(loadBalancer, rules[..|rules| - 1]) + [LoadBalancingRuleOf(loadBalancer, rules[|rules| - 1])]
  }

  function LoadBalancerResource(lb: MT.LoadBalancer): ArmResource {
    ArmResource(
      lb.name, ResourceGroupLocation, FrontEndsDependsOn(lb.frontEndIpConfigurations),
      LoadBalancerProperties(
        FrontEnds(lb.frontEndIpConfigurations), lb.backEndAddressPools,
        InboundNatRules(lb.name, lb.inboundNatRules), Probes(lb.probes),
        LoadBalancingRules(lb.name, lb.loadBalancingRules)))
  }

  /** Everything BuildLoadBalancerObject appends: the front ends' public IPs, then the load balancer. */
  function BuildLoadBalancer(lb: MT.LoadBalancer): Emitted {
    Resources(FrontEndsResources(lb.frontEndIpConfigurations) + [LoadBalancerResource(lb)])
  }
}
