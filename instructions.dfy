/**
 * The deployment instructions and the output streams of SerializeStreams:
 * the PowerShell switches derived from the target subscription, the
 * resource-group texts, the nine placeholder substitutions in their fixed
 * order, the output paths, and which streams are produced.
 */
module Instructions {
  import opened Wrappers
  import opened ArmTemplate
  import MT = MigrationTarget
  import opened Text

  // ---------------------------------------------------------------------
  // Switches and resource-group texts
  // ---------------------------------------------------------------------

  function SubscriptionSwitch(target: Option<MT.Subscription>): (r: string)
    ensures r == "" <==> target.None?
    ensures target.Some? ==> |r| == 18 + |target.value.subscriptionId| + 1 && r[18..|r| - 1] == target.value.subscriptionId
  {
    if target.Some? then " -SubscriptionId '" + target.value.subscriptionId + "'" else ""
  }

  /** Only a cloud other than the public one needs naming. */
  function EnvironmentSwitch(target: Option<MT.Subscription>): (r: string)
    ensures r == "" <==> target.None? || target.value.azureEnvironment == MT.AzureCloud
    ensures r != "" ==> |r| >= 18 && r[18..] == target.value.azureEnvironment.ToString()
  {
    if target.Some? && target.value.azureEnvironment != MT.AzureCloud
    then " -EnvironmentName " + target.value.azureEnvironment.ToString()
    else ""
  }

  /** Only a tenant other than the empty GUID needs naming. */
  function TenantSwitch(target: Option<MT.Subscription>): (r: string)
    ensures r == "" <==> target.None? || target.value.azureAdTenantId == MT.EmptyGuid
    ensures r != "" ==> |r| == 12 + |target.value.azureAdTenantId| + 1 && r[12..|r| - 1] == target.value.azureAdTenantId
  {
    if target.Some? && target.value.azureAdTenantId != MT.EmptyGuid
    then " -TenantId '" + target.value.azureAdTenantId + "'"
    else ""
  }

  function ResourceGroupNameText(artifacts: Option<MT.ExportArtifacts>): string {
    if artifacts.Some? && artifacts.value.resourceGroup.Some? then artifacts.value.resourceGroup.value.name else ""
  }

  function LocationText(artifacts: Option<MT.ExportArtifacts>): string {
    if artifacts.Some? && artifacts.value.resourceGroup.Some? && artifacts.value.resourceGroup.value.targetLocation.Some?
    then artifacts.value.resourceGroup.value.targetLocation.value
    else ""
  }

  // ---------------------------------------------------------------------
  // Output paths (Path.Combine with a file name that is not rooted)
  // ---------------------------------------------------------------------

  const TemplateFileName: string := "export.json"
  const CopyBlobFileName: string := "copyblobdetails.json"
  const InstructionsFileName: string := "DeployInstructions.html"

  predicate EndsWithSeparator(directory: string) {
    |directory| > 0 && directory[|directory| - 1] in {'\\', '/', ':'}
  }

  /** The directory, a separator unless it already ends with one, and the file name. */
  function PathCombine(directory: string, fileName: string): (r: string)
    ensures |r| >= |fileName| && r[|r| - |fileName|..] == fileName
    ensures |r| >= |directory| && r[..|directory|] == directory
  {
    if directory == "" then fileName
    else if EndsWithSeparator(directory) then directory + fileName
    else directory + "\\" + fileName
  }

  // ---------------------------------------------------------------------
  // Rendering
  // ---------------------------------------------------------------------

  /** The nine values substituted into the instructions template. */
  datatype InstructionValues = InstructionValues(
    environmentSwitch: string, tenantSwitch: string, subscriptionSwitch: string,
    templatePath: string, blobDetailsPath: string,
    resourceGroupName: string, location: string,
    migAzPath: string, migAzMessages: string)

  /**
   * The values SerializeStreams substitutes; the install directory and the
   * messages block come from outside the generator.
   */
  function InstructionValuesOf(artifacts: Option<MT.ExportArtifacts>, target: Option<MT.Subscription>,
                               outputDirectory: string, migAzPath: string, migAzMessages: string): InstructionValues {
    InstructionValues(
      EnvironmentSwitch(target), TenantSwitch(target), SubscriptionSwitch(target),
      PathCombine(outputDirectory, TemplateFileName), PathCombine(outputDirectory, CopyBlobFileName),
      ResourceGroupNameText(artifacts), LocationText(artifacts),
      migAzPath, migAzMessages)
  }

  /** The placeholders are replaced one after the other, in this order. */
  function RenderInstructions(template: string, v: InstructionValues): string {
    var s1 := ReplaceAll(template, "{migAzAzureEnvironmentSwitch}", v.environmentSwitch);
    var s2 := ReplaceAll(s1, "{tenantSwitch}", v.tenantSwitch);
    var s3 := ReplaceAll(s2, "{subscriptionSwitch}", v.subscriptionSwitch);
    var s4 := ReplaceAll(s3, "{templatePath}", v.templatePath);
    var s5 := ReplaceAll(s4, "{blobDetailsPath}", v.blobDetailsPath);
    var s6 := ReplaceAll(s5, "{resourceGroupName}", v.resourceGroupName);
    var s7 := ReplaceAll(s6, "{location}", v.location);
    var s8 := ReplaceAll(s7, "{migAzPath}", v.migAzPath);
    ReplaceAll(s8, "{migAzMessages}", v.migAzMessages)
  }

  // ---------------------------------------------------------------------
  // Streams
  // ---------------------------------------------------------------------

  /** What a stream holds, before serialisation to text. */
  datatype StreamContent =
    | TemplateDocument(resources: seq<ArmResource>, parameters: map<string, Parameter>)
    | CopyBlobManifest(entries: seq<Option<CopyBlobDetail>>)
    | InstructionsDocument(text: string)

  /** The streams SerializeStreams leaves: the template, the manifest only when it has entries, and the instructions. */
  function SerializedStreams(resources: seq<ArmResource>, parameters: map<string, Parameter>,
                             copyBlobs: seq<Option<CopyBlobDetail>>, instructions: string): (r: map<string, StreamContent>)
    ensures r.Keys == {TemplateFileName, InstructionsFileName} + (if |copyBlobs| > 0 then {CopyBlobFileName} else {})
    ensures r[TemplateFileName] == TemplateDocument(resources, parameters)
    ensures r[InstructionsFileName] == InstructionsDocument(instructions)
    ensures CopyBlobFileName in r ==> r[CopyBlobFileName] == CopyBlobManifest(copyBlobs)
  {
    var withTemplate := map[TemplateFileName := TemplateDocument(resources, parameters)];
    var withManifest := if |copyBlobs| > 0 then withTemplate[CopyBlobFileName := CopyBlobManifest(copyBlobs)] else withTemplate;
    withManifest[InstructionsFileName := InstructionsDocument(instructions)]
  }

  // ---------------------------------------------------------------------
  // Properties of the rendering
  // ---------------------------------------------------------------------

  /** A template without any opening brace has no placeholder and is rendered as it is. */
  lemma TemplateWithoutPlaceholdersIsUnchanged(template: string, v: InstructionValues)
    requires '{' !in template
    ensures RenderInstructions(template, v) == template
  {
    PlaceholderAbsentWithoutBrace(template, "{migAzAzureEnvironmentSwitch}", v.environmentSwitch);
    PlaceholderAbsentWithoutBrace(template, "{tenantSwitch}", v.tenantSwitch);
    PlaceholderAbsentWithoutBrace(template, "{subscriptionSwitch}", v.subscriptionSwitch);
    PlaceholderAbsentWithoutBrace(template, "{templatePath}", v.templatePath);
    PlaceholderAbsentWithoutBrace(template, "{blobDetailsPath}", v.blobDetailsPath);
    PlaceholderAbsentWithoutBrace(template, "{resourceGroupName}", v.resourceGroupName);
    PlaceholderAbsentWithoutBrace(template, "{location}", v.location);
    PlaceholderAbsentWithoutBrace(template, "{migAzPath}", v.migAzPath);
    PlaceholderAbsentWithoutBrace(template, "{migAzMessages}", v.migAzMessages);
  }

  /**
   * The location placeholder, among text without braces, becomes the
   * location: the placeholders replaced before it differ from it in their
   * second character, and those replaced after it cannot occur once no brace
   * is left.
   */
  lemma LocationPlaceholderIsReplaced(pre: string, post: string, v: InstructionValues)
    requires '{' !in pre && '{' !in post && '{' !in v.location
    ensures RenderInstructions(pre + "{location}" + post, v) == pre + v.location + post
  {
    var s := pre + "{location}" + post;
    OtherPlaceholderIsKept(pre, "{location}", post, "{migAzAzureEnvironmentSwitch}", v.environmentSwitch);
    OtherPlaceholderIsKept(pre, "{location}", post, "{tenantSwitch}", v.tenantSwitch);
    OtherPlaceholderIsKept(pre, "{location}", post, "{subscriptionSwitch}", v.subscriptionSwitch);
    OtherPlaceholderIsKept(pre, "{location}", post, "{templatePath}", v.templatePath);
    OtherPlaceholderIsKept(pre, "{location}", post, "{blobDetailsPath}", v.blobDetailsPath);
    OtherPlaceholderIsKept(pre, "{location}", post, "{resourceGroupName}", v.resourceGroupName);
    PlaceholderReplacedOnce(pre, "{location}", post, v.location);
    var r := pre + v.location + post;
    assert '{' !in r;
    PlaceholderAbsentWithoutBrace(r, "{migAzPath}", v.migAzPath);
    PlaceholderAbsentWithoutBrace(r, "{migAzMessages}", v.migAzMessages);
  }
}
