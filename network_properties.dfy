/**
 * What the network builders' output means: which rules and routes are
 * carried over, the dependency lists of virtual networks and load balancers,
 * the gateway type, and the connections built for local sites.
 */
module NetworkProperties {
  import opened Wrappers
  import opened SeqUtil
  import opened Mappings
  import opened ArmTemplate
  import opened Emission
  import MT = MigrationTarget
  import Text
  import opened NetworkSynthesis

  // ---------------------------------------------------------------------
  // Security rules
  // ---------------------------------------------------------------------

  /** A security rule is in the template exactly when it translates a non-system rule of the group. */
  lemma {:induction false} SecurityRulesAreTheNonSystemRules(rules: seq<MT.NetworkSecurityGroupRule>, sr: SecurityRule)
    ensures sr in SecurityRules(rules) <==> exists r :: r in rules && !r.isSystemRule && SecurityRuleOf(r) == sr
    ensures |SecurityRules(rules)| <= |rules|
  {
    if rules != [] {
      var init, last := rules[..|rules| - 1], rules[|rules| - 1];
      assert rules == init + [last];
      SecurityRulesAreTheNonSystemRules(init, sr);
    }
  }

  /** Every rule of the template is described by its own name. */
  lemma {:induction false} SecurityRulesAreDescribedByName(rules: seq<MT.NetworkSecurityGroupRule>)
    ensures forall sr :: sr in SecurityRules(rules) ==> sr.description == sr.name
  {
    if rules != [] {
      SecurityRulesAreDescribedByName(rules[..|rules| - 1]);
    }
  }

  // ---------------------------------------------------------------------
  // Routes
  // ---------------------------------------------------------------------

  lemma {:induction false} RoutesArePositionwise(routes: seq<MT.Route>)
    ensures |Routes(routes)| == |routes|
    ensures forall i :: 0 <= i < |routes| ==> Routes(routes)[i] == RouteOf(routes[i])
  {
    if routes != [] {
      RoutesArePositionwise(routes[..|routes| - 1]);
    }
  }

  lemma {:induction false} ArmRoutesArePositionwise(routes: seq<MT.Route>)
    ensures |ArmRoutes(routes)| == |routes|
    ensures forall i :: 0 <= i < |routes| ==> ArmRoutes(routes)[i] == ArmRouteOf(routes[i])
  {
    if routes != [] {
      ArmRoutesArePositionwise(routes[..|routes| - 1]);
    }
  }

  /**
   * Every route of a migration route table keeps its name and prefix; its
   * next-hop type is set exactly for the five classic types, and its next-hop
   * address exactly for a virtual appliance.
   */
  lemma RouteTableTranslatesEveryRoute(table: MT.RouteTable, i: int)
    requires 0 <= i < |table.routes|
    ensures RouteTableResource(table).properties.RouteTableProperties?
    ensures var routes := RouteTableResource(table).properties.routes;
      && |routes| == |table.routes|
      && routes[i].name == table.routes[i].name
      && routes[i].addressPrefix == table.routes[i].addressPrefix
      && (routes[i].nextHopType.Some? <==> table.routes[i].nextHopType in ClassicNextHopTypes)
      && (routes[i].nextHopIpAddress.Some? <==> table.routes[i].nextHopType == "VirtualAppliance")
      && (routes[i].nextHopIpAddress.Some? ==> routes[i].nextHopIpAddress == Some(table.routes[i].nextHopIpAddress))
  {
    RoutesArePositionwise(table.routes);
    NextHopTypeProperties(table.routes[i].nextHopType, table.routes[i].nextHopType);
    NextHopAddressOnlyForAppliance(table.routes[i].nextHopType, table.routes[i].nextHopIpAddress);
  }

  /**
   * A resource-manager route table keeps every next-hop type verbatim and its
   * address exactly for a virtual appliance.
   */
  lemma ArmRouteTableKeepsEveryRoute(table: MT.RouteTable, i: int)
    requires 0 <= i < |table.routes|
    ensures ArmRouteTableResource(table).properties.RouteTableProperties?
    ensures var routes := ArmRouteTableResource(table).properties.routes;
      && |routes| == |table.routes|
      && routes[i].nextHopType == Some(table.routes[i].nextHopType)
      && (routes[i].nextHopIpAddress.Some? <==> table.routes[i].nextHopType == "VirtualAppliance")
  {
    ArmRoutesArePositionwise(table.routes);
  }

  /** The two route builders agree on the types whose classic and resource-manager names coincide. */
  lemma RouteBuildersAgreeOnSharedNames(route: MT.Route)
    requires route.nextHopType in {"VirtualAppliance", "Internet"}
    ensures RouteOf(route) == ArmRouteOf(route)
  {
    if route.nextHopType == "Internet" {
      assert NextHopType("Internet") == Some("Internet");
    } else {
      assert NextHopType("VirtualAppliance") == Some("VirtualAppliance");
    }
  }

  // ---------------------------------------------------------------------
  // Virtual network dependencies
  // ---------------------------------------------------------------------

  /** The subnet refers to the resource with this id, as its NSG or its route table. */
  predicate SubnetRefersTo(subnet: MT.Subnet, id: string) {
    || (subnet.networkSecurityGroup.Some? && id == NetworkSecurityGroupId(subnet.networkSecurityGroup.value.name))
    || (subnet.routeTable.Some? && id == RouteTableId(subnet.routeTable.value.name))
  }

  lemma {:induction false} VirtualNetworkDependsOnHasNoDuplicates(subnets: seq<MT.Subnet>)
    ensures NoDuplicates(VirtualNetworkDependsOn(subnets))
  {
    if subnets != [] {
      VirtualNetworkDependsOnHasNoDuplicates(subnets[..|subnets| - 1]);
    }
  }

  lemma {:induction false} VirtualNetworkDependsOnMembership(subnets: seq<MT.Subnet>, id: string)
    ensures id in VirtualNetworkDependsOn(subnets) <==> exists s :: s in subnets && SubnetRefersTo(s, id)
  {
    if subnets != [] {
      var init, last := subnets[..|subnets| - 1], subnets[|subnets| - 1];
      assert subnets == init + [last];
      VirtualNetworkDependsOnMembership(init, id);
      assert id in VirtualNetworkDependsOn(subnets) <==> id in VirtualNetworkDependsOn(init) || SubnetRefersTo(last, id);
      assert (exists s :: s in subnets && SubnetRefersTo(s, id)) <==>
             (exists s :: s in init && SubnetRefersTo(s, id)) || SubnetRefersTo(last, id);
    }
  }

  /**
   * A virtual network depends on each NSG and route table its subnets refer
   * to, exactly once however many subnets share it, and on nothing else.
   */
  lemma VirtualNetworkDependsOnEachReferenceOnce(vnet: MT.VirtualNetwork, id: string)
    ensures Count(VirtualNetworkResource(vnet).dependsOn, id) ==
              (if exists s :: s in vnet.subnets && SubnetRefersTo(s, id) then 1 else 0)
  {
    VirtualNetworkDependsOnHasNoDuplicates(vnet.subnets);
    VirtualNetworkDependsOnMembership(vnet.subnets, id);
    CountOfNoDuplicates(VirtualNetworkDependsOn(vnet.subnets), id);
  }

  /** Each subnet's NSG and route-table references are among the network's dependencies. */
  lemma SubnetReferencesAreDependencies(vnet: MT.VirtualNetwork, s: MT.Subnet)
    requires s in vnet.subnets
    ensures SubnetOf(s).networkSecurityGroup.Some? ==>
              SubnetOf(s).networkSecurityGroup.value.id in VirtualNetworkResource(vnet).dependsOn
    ensures SubnetOf(s).routeTable.Some? ==>
              SubnetOf(s).routeTable.value.id in VirtualNetworkResource(vnet).dependsOn
  {
    if s.networkSecurityGroup.Some? {
      VirtualNetworkDependsOnMembership(vnet.subnets, NetworkSecurityGroupId(s.networkSecurityGroup.value.name));
    }
    if s.routeTable.Some? {
      VirtualNetworkDependsOnMembership(vnet.subnets, RouteTableId(s.routeTable.value.name));
    }
  }

  // ---------------------------------------------------------------------
  // Gateways
  // ---------------------------------------------------------------------

  predicate HasProvisionedGateway(vnet: MT.VirtualNetwork) {
    vnet.source.AsmSource? && vnet.source.asm.gateway.Some? && vnet.source.asm.gateway.value.isProvisioned
  }

  /** Only a classic network with a provisioned gateway gets gateway resources. */
  lemma GatewaysOnlyForProvisionedClassicGateways(vnet: MT.VirtualNetwork, settings: MT.Settings)
    ensures Gateways(vnet, settings) == Nothing <==> !HasProvisionedGateway(vnet)
    ensures HasProvisionedGateway(vnet) ==>
              && |Gateways(vnet, settings).resources| >= 2
              && Gateways(vnet, settings).resources[0] == GatewayPublicIpResource(vnet, settings)
              && Gateways(vnet, settings).resources[1].name == GatewayName(vnet, settings)
  {
  }

  /**
   * The gateway type follows the first local site: "ExpressRoute" with neither
   * VPN type nor BGP flag when that site is dedicated, otherwise "Vpn" with the
   * classic routing type translated.
   */
  lemma GatewayTypeFollowsFirstLocalSite(vnet: MT.VirtualNetwork, settings: MT.Settings)
    requires HasProvisionedGateway(vnet)
    ensures |Gateways(vnet, settings).resources| >= 2
    ensures var asm := vnet.source.asm;
      var routing := asm.gateway.value.gatewayType;
      var p := Gateways(vnet, settings).resources[1].properties;
      && p.VirtualNetworkGatewayProperties?
      && (p.gatewayType == "ExpressRoute" <==>
            |asm.localNetworkSites| > 0 && asm.localNetworkSites[0].connectionType == "Dedicated")
      && (p.gatewayType == "ExpressRoute" ==> p.vpnType.None? && p.enableBgp.None?)
      && (p.gatewayType != "ExpressRoute" ==>
            && p.gatewayType == "Vpn"
            && (routing == "StaticRouting" ==> p.vpnType == Some("PolicyBased"))
            && (routing == "DynamicRouting" ==> p.vpnType == Some("RouteBased"))
            && (routing !in {"StaticRouting", "DynamicRouting"} ==> p.vpnType == Some(routing)))
  {
    VpnTypeProperties(vnet.source.asm.gateway.value.gatewayType);
  }

  lemma {:induction false} LocalSitesAlertsAreAboutConnections(asm: MT.AsmVirtualNetwork, sites: seq<MT.LocalNetworkSite>, gateway: string)
    ensures forall al :: al in LocalSites(asm, sites, gateway).alerts ==>
              al.message == NoSharedKey(gateway) || al.message == ExpressRouteCircuit(gateway)
  {
    if sites != [] {
      LocalSitesAlertsAreAboutConnections(asm, sites[..|sites| - 1], gateway);
    }
  }

  /** A provisioned gateway is reported exactly when its network lacks the gateway subnet. */
  lemma MissingGatewaySubnetIsReported(vnet: MT.VirtualNetwork, settings: MT.Settings)
    requires HasProvisionedGateway(vnet)
    ensures Alert(Error, NoGatewaySubnet(vnet.name, GatewayName(vnet, settings)), AsmVirtualNetworkSubject(vnet.source.asm.name))
              in Gateways(vnet, settings).alerts
            <==> !vnet.source.asm.hasGatewaySubnet
  {
    var asm := vnet.source.asm;
    var name := GatewayName(vnet, settings);
    var sites := LocalSites(asm, asm.localNetworkSites, name);
    LocalSitesAlertsAreAboutConnections(asm, asm.localNetworkSites, name);
    var own := if asm.hasGatewaySubnet then []
      else [Alert(Error, NoGatewaySubnet(vnet.name, name), AsmVirtualNetworkSubject(asm.name))];
    assert Gateways(vnet, settings).alerts == own + sites.alerts;
    assert Alert(Error, NoGatewaySubnet(vnet.name, name), AsmVirtualNetworkSubject(asm.name)) !in sites.alerts;
  }

  // ---------------------------------------------------------------------
  // Local sites
  // ---------------------------------------------------------------------

  /** A local network gateway's name has no blanks and keeps every other character of the site name. */
  lemma LocalNetworkGatewayNameHasNoBlanks(site: MT.LocalNetworkSite)
    ensures ' ' !in LocalNetworkGatewayName(site)
    ensures forall c :: c != ' ' && c in site.name ==> c in LocalNetworkGatewayName(site)
  {
    Text.ReplaceCharacterByNothing(site.name + "-LocalGateway", ' ');
    assert [' '] == " ";
  }

  /** The connection of a site: named after the gateway and the site, bound to and depending on the gateway. */
  predicate IsConnectionOf(r: ArmResource, gateway: string, site: MT.LocalNetworkSite) {
    && r.name == ConnectionName(gateway, site)
    && GatewayId(gateway) in r.dependsOn
    && r.properties.GatewayConnectionProperties?
    && r.properties.virtualNetworkGateway1 == Ref(GatewayId(gateway))
  }

  lemma {:induction false} EverySiteGetsAConnection(asm: MT.AsmVirtualNetwork, sites: seq<MT.LocalNetworkSite>, gateway: string)
    ensures forall site :: site in sites ==>
              exists r :: r in LocalSites(asm, sites, gateway).resources && IsConnectionOf(r, gateway, site)
  {
    if sites != [] {
      var init, last := sites[..|sites| - 1], sites[|sites| - 1];
      assert sites == init + [last];
      EverySiteGetsAConnection(asm, init, gateway);
      var own := LocalSite(asm, last, gateway).resources;
      assert IsConnectionOf(own[|own| - 1], gateway, last);
    }
  }

  /** No connection carries an empty shared key: a missing key is replaced by the placeholder. */
  lemma {:induction false} SharedKeysAreNeverEmpty(asm: MT.AsmVirtualNetwork, sites: seq<MT.LocalNetworkSite>, gateway: string)
    ensures forall r :: r in LocalSites(asm, sites, gateway).resources && r.properties.GatewayConnectionProperties? ==>
              r.properties.sharedKey != Some("")
  {
    if sites != [] {
      SharedKeysAreNeverEmpty(asm, sites[..|sites| - 1], gateway);
    }
  }

  /** The missing-key alert is raised exactly when some IPsec site has no shared key. */
  lemma {:induction false} MissingSharedKeyIsReported(asm: MT.AsmVirtualNetwork, sites: seq<MT.LocalNetworkSite>, gateway: string)
    ensures (Alert(Error, NoSharedKey(gateway), AsmVirtualNetworkSubject(asm.name)) in LocalSites(asm, sites, gateway).alerts)
              <==> exists site :: site in sites && site.connectionType == "IPsec" && site.sharedKey == ""
  {
    if sites != [] {
      var init, last := sites[..|sites| - 1], sites[|sites| - 1];
      assert sites == init + [last];
      MissingSharedKeyIsReported(asm, init, gateway);
    }
  }

  // ---------------------------------------------------------------------
  // Load balancers
  // ---------------------------------------------------------------------

  lemma {:induction false} FrontEndsArePositionwise(fes: seq<MT.FrontEndIpConfiguration>)
    ensures |FrontEnds(fes)| == |fes|
    ensures forall i :: 0 <= i < |fes| ==> FrontEnds(fes)[i] == FrontEndOf(fes[i])
  {
    if fes != [] {
      FrontEndsArePositionwise(fes[..|fes| - 1]);
    }
  }

  /**
   * Each front end of the template is either public (only a public IP
   * reference) or private (allocation, address and a subnet reference, which
   * is empty unless both the network and the subnet are set).
   */
  lemma FrontEndsArePublicOrPrivate(lb: MT.LoadBalancer, i: int)
    requires 0 <= i < |lb.frontEndIpConfigurations|
    ensures LoadBalancerResource(lb).properties.LoadBalancerProperties?
    ensures |LoadBalancerResource(lb).properties.frontendIPConfigurations| == |lb.frontEndIpConfigurations|
    ensures var fe := lb.frontEndIpConfigurations[i];
      var out := LoadBalancerResource(lb).properties.frontendIPConfigurations[i];
      && out.name == fe.name
      && (out.publicIPAddress.Some? <==> fe.publicIp.Some?)
      && (out.subnet.Some? <==> fe.publicIp.None?)
      && (out.privateIPAddress.Some? <==> fe.publicIp.None?)
      && (out.subnet.Some? ==>
            (out.subnet.value.Ref? <==> (fe.targetVirtualNetwork.Some? && fe.targetSubnet.Some?)))
  {
    FrontEndsArePositionwise(lb.frontEndIpConfigurations);
  }

  /** The front end needs the resource with this id: its public IP, or its network when that is migrated. */
  predicate FrontEndNeeds(fe: MT.FrontEndIpConfiguration, id: string) {
    || (fe.publicIp.Some? && id == PublicIpId(fe.publicIp.value.name))
    || (fe.publicIp.None? && fe.targetVirtualNetwork.Some? && fe.targetVirtualNetwork.value.InMigrationVirtualNetwork?
          && id == VirtualNetworkId(fe.targetVirtualNetwork.value.name))
  }

  lemma {:induction false} LoadBalancerDependsOnMembership(fes: seq<MT.FrontEndIpConfiguration>, id: string)
    ensures id in FrontEndsDependsOn(fes) <==> exists fe :: fe in fes && FrontEndNeeds(fe, id)
  {
    if fes != [] {
      var init, last := fes[..|fes| - 1], fes[|fes| - 1];
      assert fes == init + [last];
      LoadBalancerDependsOnMembership(init, id);
      assert id in FrontEndsDependsOn(fes) <==> id in FrontEndsDependsOn(init) || FrontEndNeeds(last, id);
      assert (exists fe :: fe in fes && FrontEndNeeds(fe, id)) <==>
             (exists fe :: fe in init && FrontEndNeeds(fe, id)) || FrontEndNeeds(last, id);
    }
  }

  /** A load balancer depends exactly on its front ends' public IPs and migrated networks. */
  lemma LoadBalancerDependsOnItsFrontEnds(lb: MT.LoadBalancer, id: string)
    ensures id in LoadBalancerResource(lb).dependsOn <==>
              exists fe :: fe in lb.frontEndIpConfigurations && FrontEndNeeds(fe, id)
  {
    LoadBalancerDependsOnMembership(lb.frontEndIpConfigurations, id);
  }

  lemma {:induction false} FrontEndPublicIpsAreBuilt(fes: seq<MT.FrontEndIpConfiguration>)
    ensures forall fe :: fe in fes && fe.publicIp.Some? ==> PublicIpResource(fe.publicIp.value) in FrontEndsResources(fes)
    ensures forall r :: r in FrontEndsResources(fes) ==> exists fe :: fe in fes && fe.publicIp.Some? && r == PublicIpResource(fe.publicIp.value)
  {
    if fes != [] {
      var init, last := fes[..|fes| - 1], fes[|fes| - 1];
      assert fes == init + [last];
      FrontEndPublicIpsAreBuilt(init);
    }
  }

  /**
   * Every public IP a load balancer's front ends refer to is built just
   * before it, and each of those public IPs comes from one of its front ends.
   */
  lemma LoadBalancerPublicIpsAreBuilt(lb: MT.LoadBalancer, i: int)
    requires 0 <= i < |lb.frontEndIpConfigurations|
    requires lb.frontEndIpConfigurations[i].publicIp.Some?
    ensures |LoadBalancerResource(lb).properties.frontendIPConfigurations| == |lb.frontEndIpConfigurations|
    ensures var out := LoadBalancerResource(lb).properties.frontendIPConfigurations[i];
      exists r :: r in BuildLoadBalancer(lb).resources && out.publicIPAddress == Some(Ref(PublicIpId(r.name)))
               && r.properties.PublicIPAddressProperties?
  {
    var fes := lb.frontEndIpConfigurations;
    FrontEndsArePositionwise(fes);
    FrontEndPublicIpsAreBuilt(fes);
    var r := PublicIpResource(fes[i].publicIp.value);
    assert fes[i] in fes;
    assert r in BuildLoadBalancer(lb).resources;
  }
}
