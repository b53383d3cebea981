/**
 * The small total translations the builders apply to single strings: the
 * legacy virtual-machine size names, the route next-hop types and the
 * classic gateway routing types.
 */
module Mappings {
  import opened Wrappers

  // ---------------------------------------------------------------------
  // GetVMSize
  // ---------------------------------------------------------------------

  /** The twelve legacy (classic) size names, in the order of the size table. */
  const LegacySizeNames: seq<string> :=
    ["ExtraSmall", "Small", "Medium", "Large", "ExtraLarge",
     "A5", "A6", "A7", "A8", "A9", "A10", "A11"]

  /** Their resource-manager equivalents, position by position. */
  const StandardSizeNames: seq<string> :=
    ["Standard_A0", "Standard_A1", "Standard_A2", "Standard_A3", "Standard_A4",
     "Standard_A5", "Standard_A6", "Standard_A7", "Standard_A8", "Standard_A9",
     "Standard_A10", "Standard_A11"]

  /** The dictionary GetVMSize builds on every call. */
  const VMSizeTable: map<string, string> :=
    map["ExtraSmall" := "Standard_A0", "Small" := "Standard_A1", "Medium" := "Standard_A2",
        "Large" := "Standard_A3", "ExtraLarge" := "Standard_A4",
        "A5" := "Standard_A5", "A6" := "Standard_A6", "A7" := "Standard_A7",
        "A8" := "Standard_A8", "A9" := "Standard_A9", "A10" := "Standard_A10",
        "A11" := "Standard_A11"]

  /** A legacy size name becomes its Standard_ equivalent; any other name passes through. */
  function GetVMSize(vmSize: string): (r: string)
  {
    if vmSize in VMSizeTable then VMSizeTable[vmSize] else vmSize
  }

  /** The table is exactly the pairing of the two name lists. */
  lemma VMSizeTableIsThePairing()
    ensures |LegacySizeNames| == |StandardSizeNames| == 12
    ensures forall k :: k in VMSizeTable <==> k in LegacySizeNames
    ensures forall i :: 0 <= i < 12 ==> VMSizeTable[LegacySizeNames[i]] == StandardSizeNames[i]
  {
    forall i | 0 <= i < 12
      ensures LegacySizeNames[i] in VMSizeTable && VMSizeTable[LegacySizeNames[i]] == StandardSizeNames[i]
    {
    }
    forall k | k in VMSizeTable
      ensures k in LegacySizeNames
    {
      assert k in VMSizeTable.Keys;
    }
  }

  /**
   * GetVMSize maps the i-th legacy name to the i-th Standard_ name and leaves
   * every other string unchanged.
   */
  lemma GetVMSizeTranslatesLegacyNames(vmSize: string)
    ensures forall i :: 0 <= i < 12 && vmSize == LegacySizeNames[i] ==> GetVMSize(vmSize) == StandardSizeNames[i]
    ensures vmSize !in LegacySizeNames ==> GetVMSize(vmSize) == vmSize
  {
    VMSizeTableIsThePairing();
  }

  /** A string that starts with "Standard_" is never a legacy name. */
  lemma StandardNamesAreNotLegacy(s: string)
    requires |s| >= 9 && s[..9] == "Standard_"
    ensures s !in VMSizeTable
  {
    assert s[1] == 't';
    forall k | k in VMSizeTable ensures k != s {
      VMSizeTableIsThePairing();
      assert k in LegacySizeNames;
      assert |k| < 2 || k[1] != 't';
    }
  }

  /** GetVMSize changes its input exactly when the input is a legacy name, and then to a Standard_ name. */
  lemma GetVMSizeChangesOnlyLegacyNames(vmSize: string)
    ensures GetVMSize(vmSize) != vmSize <==> vmSize in LegacySizeNames
    ensures GetVMSize(vmSize) != vmSize ==> GetVMSize(vmSize) in StandardSizeNames
  {
    VMSizeTableIsThePairing();
    if vmSize in VMSizeTable {
      var r := VMSizeTable[vmSize];
      assert |r| >= 9 && r[..9] == "Standard_";
      StandardNamesAreNotLegacy(r);
    }
  }

  /** Translating a size a second time changes nothing. */
  lemma {:induction false} GetVMSizeIdempotent(vmSize: string)
    ensures GetVMSize(GetVMSize(vmSize)) == GetVMSize(vmSize)
  {
    if vmSize in VMSizeTable {
      var r := VMSizeTable[vmSize];
      assert |r| >= 9 && r[..9] == "Standard_";
      StandardNamesAreNotLegacy(r);
    }
  }

  /** Two legacy names and a name that is already current. */
  lemma GetVMSizeExamples()
    ensures GetVMSize("ExtraSmall") == "Standard_A0"
    ensures GetVMSize("A11") == "Standard_A11"
    ensures GetVMSize("Standard_D2_v3") == "Standard_D2_v3"
  {
    StandardNamesAreNotLegacy("Standard_D2_v3");
  }

  // ---------------------------------------------------------------------
  // Route next-hop types (the switch in BuildRouteTable)
  // ---------------------------------------------------------------------

  /** The classic next-hop types the switch recognises. */
  const ClassicNextHopTypes: set<string> := {"VirtualAppliance", "VPNGateway", "Internet", "VNETLocal", "Null"}

  /** The resource-manager next-hop type; `None` when the switch has no case (the property stays unset). */
  function NextHopType(classicType: string): (r: Option<string>)
  {
    match classicType
    case "VirtualAppliance" => Some("VirtualAppliance")
    case "VPNGateway" => Some("VirtualNetworkGateway")
    case "Internet" => Some("Internet")
    case "VNETLocal" => Some("VnetLocal")
    case "Null" => Some("None")
    case _ => None
  }

  /** The next-hop IP address is carried over only for a virtual appliance. */
  function NextHopIpAddress(resolvedType: Option<string>, address: string): Option<string>
  {
    if resolvedType == Some("VirtualAppliance") then Some(address) else None
  }

  /**
   * The switch is defined exactly on the five classic types, never merges two
   * of them, and resolves to "VirtualAppliance" only from "VirtualAppliance".
   */
  lemma NextHopTypeProperties(t1: string, t2: string)
    ensures NextHopType(t1).Some? <==> t1 in ClassicNextHopTypes
    ensures NextHopType(t1) == Some("VirtualAppliance") <==> t1 == "VirtualAppliance"
    ensures NextHopType(t1).Some? && NextHopType(t1) == NextHopType(t2) ==> t1 == t2
  {
  }

  /** A classic route keeps its next-hop address if and only if it points at a virtual appliance. */
  lemma NextHopAddressOnlyForAppliance(classicType: string, address: string)
    ensures NextHopIpAddress(NextHopType(classicType), address).Some? <==> classicType == "VirtualAppliance"
    ensures NextHopIpAddress(NextHopType(classicType), address).Some? ==>
              NextHopIpAddress(NextHopType(classicType), address) == Some(address)
  {
    NextHopTypeProperties(classicType, classicType);
  }

  lemma NextHopTypeExamples()
    ensures NextHopType("VPNGateway") == Some("VirtualNetworkGateway")
    ensures NextHopType("Null") == Some("None")
    ensures NextHopType("VNETLocal") == Some("VnetLocal")
    ensures NextHopType("VirtualNetworkGateway") == None
  {
  }

  // ---------------------------------------------------------------------
  // Gateway VPN type (AddGatewaysToVirtualNetwork)
  // ---------------------------------------------------------------------

  /** "StaticRouting" becomes "PolicyBased", "DynamicRouting" "RouteBased"; anything else is kept. */
  function VpnType(gatewayType: string): (r: string)
  {
    if gatewayType == "StaticRouting" then "PolicyBased"
    else if gatewayType == "DynamicRouting" then "RouteBased"
    else gatewayType
  }

  /** The VPN type mapping only rewrites the two classic routing names, and is idempotent. */
  lemma VpnTypeProperties(gatewayType: string)
    ensures VpnType(gatewayType) != gatewayType <==> gatewayType in {"StaticRouting", "DynamicRouting"}
    ensures VpnType(VpnType(gatewayType)) == VpnType(gatewayType)
  {
  }
}
