/**
 * The multi-environment component demo: one web-server component per entry
 * of a fixed environment table, a per-environment details export, optional
 * production extras, a deployment summary, a cost analysis, quick-access
 * URLs, a tagging strategy and a deployment report.
 *
 * A Python dict is an association list here: its entries in insertion
 * order, with distinct keys. Exporting a key twice keeps the later value.
 */
module DemoComponents {
  import opened Wrappers
  import opened PyText
  import opened Resources
  import opened Dicts
  import Cidr


  // ---------------------------------------------------------------------
  // The environment table
  // ---------------------------------------------------------------------

  datatype EnvConfig = EnvConfig(
    vpcCidr: string,
    subnetCidr: string,
    instanceType: string,
    keyName: string,
    environment: string)

  type Table = seq<(string, EnvConfig)>

  const KeyName: string := "aws-365-keypair"

  const Environments: Table := [
    ("development", EnvConfig("10.0.0.0/16", "10.0.1.0/24", "t3.micro", KeyName, "development")),
    ("staging", EnvConfig("10.1.0.0/16", "10.1.1.0/24", "t3.small", KeyName, "staging")),
    ("production", EnvConfig("10.2.0.0/16", "10.2.1.0/24", "t3.medium", KeyName, "production"))]

  /** The VPC of table entry `i` is 10.i.0.0/16 and its subnet 10.i.1.0/24. */
  function VpcBlock(i: nat): Cidr.Block {
    Cidr.Block(10, i, 0, 0, 16)
  }

  function SubnetBlock(i: nat): Cidr.Block {
    Cidr.Block(10, i, 1, 0, 24)
  }

  /** The keys the script exports besides the environment names. */
  const LaterKeys: set<string> := {"deployment_summary", "cost_analysis", "quick_access", "tagging_strategy", "deployment_report"}
  const ReservedKeys: set<string> := {"production_extras"} + LaterKeys

  /** Proof aid: a name outside the reserved keys is neither the production extras nor a later export. */
  lemma UnreservedKey(k: string)
    requires k !in ReservedKeys
    ensures k != "production_extras" && k !in LaterKeys
  {
  }

  /** Proof aid: the production extras are not one of the five later exports. */
  lemma ExtrasKeyNotLater()
    ensures "production_extras" !in LaterKeys
  {
    assert "production_extras"[0] == 'p';
  }

  /**
   * The table has three entries with distinct names, none of them an export
   * key of its own; each names its own environment and the shared key pair,
   * and its address texts are those of the blocks above.
   */
  lemma EnvironmentTable()
    ensures |Environments| == 3 && DistinctKeys(Environments)
    ensures forall i :: 0 <= i < |Environments| ==> Environments[i].0 !in ReservedKeys
    ensures forall i :: 0 <= i < |Environments| ==>
      Environments[i].1.environment == Environments[i].0 && Environments[i].1.keyName == KeyName
  {
    assert Environments[0].0[0] == 'd' && Environments[1].0[0] == 's' && Environments[2].0[0] == 'p';
  }

  /** Proof aid: `NatToString` on the two-digit numbers the address texts use. */
  lemma TwoDigitTexts()
    ensures NatToString(10) == "10" && NatToString(16) == "16" && NatToString(24) == "24"
  {
    assert NatToString(1) == "1" && NatToString(2) == "2";
  }

  /** Proof aid for EnvironmentAddresses: the dotted texts of table entry 0's blocks. */
  lemma EntryTexts0()
    ensures Cidr.Format(VpcBlock(0)) == "10.0.0.0/16"
    ensures Cidr.Format(SubnetBlock(0)) == "10.0.1.0/24"
  {
    TwoDigitTexts();
  }

  /** Proof aid for EnvironmentAddresses: the dotted texts of table entry 1's blocks. */
  lemma EntryTexts1()
    ensures Cidr.Format(VpcBlock(1)) == "10.1.0.0/16"
    ensures Cidr.Format(SubnetBlock(1)) == "10.1.1.0/24"
  {
    TwoDigitTexts();
  }

  /** Proof aid for EnvironmentAddresses: the dotted texts of table entry 2's blocks. */
  lemma EntryTexts2()
    ensures Cidr.Format(VpcBlock(2)) == "10.2.0.0/16"
    ensures Cidr.Format(SubnetBlock(2)) == "10.2.1.0/24"
  {
    TwoDigitTexts();
  }

  /** Each entry's address texts are those of its VPC and subnet blocks. */
  lemma EnvironmentAddresses(i: nat)
    requires i < |Environments|
    ensures Environments[i].1.vpcCidr == Cidr.Format(VpcBlock(i))
    ensures Environments[i].1.subnetCidr == Cidr.Format(SubnetBlock(i))
  {
    if i == 0 {
      EntryTexts0();
    } else if i == 1 {
      EntryTexts1();
    } else {
      EntryTexts2();
    }
  }

  /**
   * Each environment's subnet lies in its own VPC, and the VPCs of two
   * entries of the table share no address.
   */
  lemma EnvironmentsIsolated(i: nat, j: nat)
    requires i < |Environments| && j < |Environments| && i != j
    ensures Cidr.Valid(VpcBlock(i)) && Cidr.Valid(SubnetBlock(i))
    ensures Cidr.StrictlyContains(VpcBlock(i), SubnetBlock(i))
    ensures Cidr.Disjoint(VpcBlock(i), VpcBlock(j))
  {
    Cidr.Slash24InsideSlash16(10, i, 1);
    Cidr.Slash16sDisjoint(10, i, j);
  }

  // ---------------------------------------------------------------------
  // Components and the first loop
  // ---------------------------------------------------------------------

  /** A web-server component: its logical name and the configuration it was given. */
  datatype Component = Component(name: string, config: EnvConfig)

  /** The component's VPC and instance are declared as `{name}-vpc` and `{name}-instance`. */
  function VpcRef(c: Component): Ref {
    Ref(c.name + "-vpc")
  }

  function InstanceRef(c: Component): Ref {
    Ref(c.name + "-instance")
  }

  function ComponentFor(envName: string, config: EnvConfig): (c: Component)
    ensures c.name == envName + "-webserver" && c.config == config
  {
    Component(envName + "-webserver", config)
  }

  /** Distinct environments get components, VPCs and instances with distinct names. */
  lemma ComponentNamesDistinct(a: string, b: string, config: EnvConfig)
    requires a != b
    ensures ComponentFor(a, config).name != ComponentFor(b, config).name
    ensures VpcRef(ComponentFor(a, config)) != VpcRef(ComponentFor(b, config))
    ensures InstanceRef(ComponentFor(a, config)) != InstanceRef(ComponentFor(b, config))
    ensures VpcRef(ComponentFor(a, config)) != InstanceRef(ComponentFor(b, config))
  {
    var ca, cb := ComponentFor(a, config).name, ComponentFor(b, config).name;
    if ca == cb {
      CancelSuffix(a, b, "-webserver");
    }
    if ca + "-vpc" == cb + "-vpc" {
      CancelSuffix(ca, cb, "-vpc");
      CancelSuffix(a, b, "-webserver");
    }
    if ca + "-instance" == cb + "-instance" {
      CancelSuffix(ca, cb, "-instance");
      CancelSuffix(a, b, "-webserver");
    }
    var v, n := ca + "-vpc", cb + "-instance";
    if |v| == |n| {
      assert v[|v| - 1] == 'c' && n[|n| - 1] == 'e';
    }
  }

  /** The details exported for one environment. */
  function EnvironmentDetails(c: Component): (v: Value)
    ensures v.Object? && v.fields.Keys == {"website_url", "ssh_command", "vpc_id", "instance_id", "instance_type", "vpc_cidr"}
    ensures v.fields["instance_type"] == Str(c.config.instanceType) && v.fields["vpc_cidr"] == Str(c.config.vpcCidr)
    ensures forall k :: k in v.fields && v.fields[k].Later? ==>
      v.fields[k].o.source == InstanceRef(c) || v.fields[k].o.source == VpcRef(c)
  {
    Object(map[
      "website_url" := Later(Output(InstanceRef(c), "public_ip", "http://", "")),
      "ssh_command" := Later(Output(InstanceRef(c), "public_ip", "ssh -i " + c.config.keyName + ".pem ec2-user@", "")),
      "vpc_id" := Later(Output(VpcRef(c), "id", "", "")),
      "instance_id" := Later(Output(InstanceRef(c), "id", "", "")),
      "instance_type" := Str(c.config.instanceType),
      "vpc_cidr" := Str(c.config.vpcCidr)])
  }

  /** The `servers` dict: each environment's component under its name, in table order. */
  function ServersOf(envs: Table): (servers: seq<(string, Component)>)
    ensures |servers| == |envs|
    ensures forall i :: 0 <= i < |envs| ==> servers[i] == (envs[i].0, ComponentFor(envs[i].0, envs[i].1))
  {
    seq(|envs|, i requires 0 <= i < |envs| => (envs[i].0, ComponentFor(envs[i].0, envs[i].1)))
  }

  /** The `environment_details` dict: each environment's details under its name, in table order. */
  function DetailsOf(envs: Table): (details: seq<(string, Value)>)
    ensures |details| == |envs|
    ensures forall i :: 0 <= i < |envs| ==>
      details[i] == (envs[i].0, EnvironmentDetails(ComponentFor(envs[i].0, envs[i].1)))
  {
    seq(|envs|, i requires 0 <= i < |envs| => (envs[i].0, EnvironmentDetails(ComponentFor(envs[i].0, envs[i].1))))
  }

  /** The environment-details dict: every environment keyed by its own name. */
  function DetailsTable(envs: Table): (m: map<string, Value>)
    requires DistinctKeys(envs)
    ensures m.Keys == KeysOf(envs)
  {
    var details := DetailsOf(envs);
    assert DistinctKeys(details);
    SameKeys(details, envs);
    ToMap(details)
  }

  /** Environment i's entry in the details dict is its own component's details. */
  lemma DetailsTableEntry(envs: Table, i: nat)
    requires DistinctKeys(envs) && i < |envs|
    ensures envs[i].0 in DetailsTable(envs)
    ensures DetailsTable(envs)[envs[i].0] == EnvironmentDetails(ComponentFor(envs[i].0, envs[i].1))
  {
    var details := DetailsOf(envs);
    assert DistinctKeys(details);
    assert details[i] == (envs[i].0, EnvironmentDetails(ComponentFor(envs[i].0, envs[i].1)));
  }

  /** The first loop: one component per table entry and its details, both under the environment's name. */
  method CreateEnvironments(envs: Table) returns (servers: seq<(string, Component)>, details: seq<(string, Value)>)
    ensures servers == ServersOf(envs) && details == DetailsOf(envs)
  {
    servers, details := [], [];
    var i := 0;
    while i < |envs|
      invariant 0 <= i <= |envs|
      invariant servers == ServersOf(envs)[..i] && details == DetailsOf(envs)[..i]
    {
      var (envName, config) := envs[i];
      var server := ComponentFor(envName, config);
      assert ServersOf(envs)[..i + 1] == ServersOf(envs)[..i] + [(envName, server)];
      assert DetailsOf(envs)[..i + 1] == DetailsOf(envs)[..i] + [(envName, EnvironmentDetails(server))];
      servers := servers + [(envName, server)];
      details := details + [(envName, EnvironmentDetails(server))];
      i := i + 1;
    }
    assert ServersOf(envs)[..i] == ServersOf(envs) && DetailsOf(envs)[..i] == DetailsOf(envs);
  }

  // ---------------------------------------------------------------------
  // Summary and cost classification
  // ---------------------------------------------------------------------

  const ResourcesPerEnvironment: nat := 7

  /** `total_environments * total_resources_per_env`. */
  function TotalResources(environmentCount: nat): (n: nat)
    ensures n == ResourcesPerEnvironment * environmentCount
  {
    environmentCount * 7
  }

  /** The summary's category, read off the instance type. */
  function CostCategory(instanceType: string): (c: string)
    ensures c == "low" <==> instanceType == "t3.micro"
    ensures c == "medium" <==> instanceType == "t3.small"
    ensures c == "high" <==> instanceType != "t3.micro" && instanceType != "t3.small"
  {
    if instanceType == "t3.micro" then "low" else if instanceType == "t3.small" then "medium" else "high"
  }

  function SummaryEntry(envName: string, config: EnvConfig): Value {
    Object(map[
      "name" := Str(envName),
      "instance_type" := Str(config.instanceType),
      "vpc_cidr" := Str(config.vpcCidr),
      "cost_category" := Str(CostCategory(config.instanceType))])
  }

  /** The `environment_summary` comprehension: one entry per environment, in table order. */
  function EnvironmentSummary(envs: Table): (summary: seq<Value>)
    ensures |summary| == |envs|
    ensures forall i :: 0 <= i < |envs| ==> summary[i] == SummaryEntry(envs[i].0, envs[i].1)
  {
    seq(|envs|, i requires 0 <= i < |envs| => SummaryEntry(envs[i].0, envs[i].1))
  }

  const Advantages: seq<Value> := [
    Str("Single component definition for multiple environments"),
    Str("Type-safe configuration passing"),
    Str("Complex logic and conditionals"),
    Str("Dynamic resource creation with loops"),
    Str("Rich data structures in outputs")]

  const VersusTerraform: seq<Value> := [
    Str("No need for separate modules and complex variable passing"),
    Str("Real programming constructs (loops, conditionals, functions)"),
    Str("Better error handling and validation"),
    Str("IDE support with IntelliSense and debugging")]

  function DeploymentSummary(envs: Table): (summary: Value)
    ensures summary.Object? && "total_environments_deployed" in summary.fields && "total_resources_created" in summary.fields
    ensures summary.fields["total_environments_deployed"] == Int(|envs|)
    ensures summary.fields["total_resources_created"] == Int(ResourcesPerEnvironment * |envs|)
  {
    Object(map[
      "total_environments_deployed" := Int(|envs|),
      "total_resources_created" := Int(TotalResources(|envs|)),
      "deployment_method" := Str("Pulumi ComponentResource"),
      "reusability_factor" := Str("100% - Same component, different configurations"),
      "environments" := List(EnvironmentSummary(envs)),
      "pulumi_advantages" := List(Advantages),
      "vs_terraform" := List(VersusTerraform)])
  }

  /**
   * Hourly prices in ten-thousandths of a dollar; an unknown type costs 0.
   * The products below are exact, and none of them lies near a category
   * threshold or a rounding tie.
   */
  function HourlyCost(instanceType: string): (c: nat)
    ensures c > 0 <==> instanceType in {"t3.micro", "t3.small", "t3.medium"}
    ensures c <= 416
  {
    if instanceType == "t3.micro" then 104
    else if instanceType == "t3.small" then 208
    else if instanceType == "t3.medium" then 416
    else 0
  }

  /** `hourly * 24 * 30`, in ten-thousandths of a dollar. */
  function MonthlyCost(instanceType: string): (c: nat)
    ensures c == 720 * HourlyCost(instanceType)
    ensures c < 500000
  {
    HourlyCost(instanceType) * 24 * 30
  }

  /** `round(x, 2)` of an amount in ten-thousandths, as whole cents (ties to even, as Python rounds). */
  function RoundToCents(amount: nat): (cents: nat)
    ensures 100 * cents <= amount + 50 && amount <= 100 * cents + 50
  {
    var q, r := amount / 100, amount % 100;
    if r > 50 || (r == 50 && q % 2 == 1) then q + 1 else q
  }

  /** The analysis's category: below 20 dollars low, below 50 medium, else high. */
  function MonthlyCostCategory(amount: nat): (c: string)
    ensures c == "low" <==> amount < 200000
    ensures c == "medium" <==> 200000 <= amount < 500000
    ensures c == "high" <==> amount >= 500000
  {
    if amount < 200000 then "low" else if amount < 500000 then "medium" else "high"
  }

  function CostEntry(instanceType: string): Value {
    Object(map[
      "instance_type" := Str(instanceType),
      "estimated_monthly_cost_usd" := Fixed(RoundToCents(MonthlyCost(instanceType)), 2),
      "cost_category" := Str(MonthlyCostCategory(MonthlyCost(instanceType)))])
  }

  /** The `cost_analysis` dict: each environment's estimate under its name, in table order. */
  function CostsOf(envs: Table): (entries: seq<(string, Value)>)
    ensures |entries| == |envs|
    ensures forall i :: 0 <= i < |envs| ==> entries[i] == (envs[i].0, CostEntry(envs[i].1.instanceType))
  {
    seq(|envs|, i requires 0 <= i < |envs| => (envs[i].0, CostEntry(envs[i].1.instanceType)))
  }

  /** The cost-analysis dict: every environment's estimate under its own name. */
  function CostTable(envs: Table): (m: map<string, Value>)
    requires DistinctKeys(envs)
    ensures m.Keys == KeysOf(envs)
  {
    var costs := CostsOf(envs);
    assert DistinctKeys(costs);
    SameKeys(costs, envs);
    ToMap(costs)
  }

  /** Environment i's estimate is the one for its own instance type. */
  lemma CostTableEntry(envs: Table, i: nat)
    requires DistinctKeys(envs) && i < |envs|
    ensures envs[i].0 in CostTable(envs)
    ensures CostTable(envs)[envs[i].0] == CostEntry(envs[i].1.instanceType)
  {
    var costs := CostsOf(envs);
    assert DistinctKeys(costs);
    assert costs[i] == (envs[i].0, CostEntry(envs[i].1.instanceType));
  }

  /** The cost-analysis loop. */
  method CostAnalysis(envs: Table) returns (entries: seq<(string, Value)>)
    ensures entries == CostsOf(envs)
  {
    entries := [];
    var i := 0;
    while i < |envs|
      invariant 0 <= i <= |envs| && entries == CostsOf(envs)[..i]
    {
      assert CostsOf(envs)[..i + 1] == CostsOf(envs)[..i] + [(envs[i].0, CostEntry(envs[i].1.instanceType))];
      entries := entries + [(envs[i].0, CostEntry(envs[i].1.instanceType))];
      i := i + 1;
    }
    assert CostsOf(envs)[..i] == CostsOf(envs);
  }

  /**
   * The two classifications disagree: by price no known type reaches
   * "high", and t3.small, "medium" in the summary, is "low" by price.
   */
  lemma CostCategoriesDisagree(instanceType: string)
    ensures MonthlyCostCategory(MonthlyCost(instanceType)) != "high"
    ensures MonthlyCostCategory(MonthlyCost(instanceType)) == "medium" <==> instanceType == "t3.medium"
    ensures instanceType == "t3.small" ==>
      CostCategory(instanceType) == "medium" && MonthlyCostCategory(MonthlyCost(instanceType)) == "low"
  {
    assert HourlyCost(instanceType) <= 416;
  }

  /** The estimates for the three known types: 7.49, 14.98 and 29.95 dollars. */
  lemma KnownMonthlyCosts()
    ensures RoundToCents(MonthlyCost("t3.micro")) == 749
    ensures RoundToCents(MonthlyCost("t3.small")) == 1498
    ensures RoundToCents(MonthlyCost("t3.medium")) == 2995
  {
  }

  // ---------------------------------------------------------------------
  // Quick access and tagging
  // ---------------------------------------------------------------------

  function QuickAccessEntry(c: Component): Value {
    Object(map[
      "website" := Later(Output(InstanceRef(c), "public_ip", "http://", "")),
      "health_check" := Later(Output(InstanceRef(c), "public_ip", "curl -I http://", "")),
      "ssh_access" := Later(Output(InstanceRef(c), "public_ip", "ssh -i aws-365-keypair.pem ec2-user@", ""))])
  }

  /** The `quick_access` dict: each server's addresses under `{env}_urls`, in table order. */
  function QuickOf(servers: seq<(string, Component)>): (entries: seq<(string, Value)>)
    ensures |entries| == |servers|
    ensures forall i :: 0 <= i < |servers| ==> entries[i] == (servers[i].0 + "_urls", QuickAccessEntry(servers[i].1))
  {
    seq(|servers|, i requires 0 <= i < |servers| => (servers[i].0 + "_urls", QuickAccessEntry(servers[i].1)))
  }

  /** The quick-access loop, over the environments' names and their servers. */
  method QuickAccess(servers: seq<(string, Component)>) returns (entries: seq<(string, Value)>)
    ensures entries == QuickOf(servers)
  {
    entries := [];
    var i := 0;
    while i < |servers|
      invariant 0 <= i <= |servers| && entries == QuickOf(servers)[..i]
    {
      assert QuickOf(servers)[..i + 1] == QuickOf(servers)[..i] + [(servers[i].0 + "_urls", QuickAccessEntry(servers[i].1))];
      entries := entries + [(servers[i].0 + "_urls", QuickAccessEntry(servers[i].1))];
      i := i + 1;
    }
    assert QuickOf(servers)[..i] == QuickOf(servers);
  }

  /** Distinct environments get distinct quick-access keys. */
  lemma QuickAccessKeysDistinct(servers: seq<(string, Component)>)
    requires DistinctKeys(servers)
    ensures DistinctKeys(QuickOf(servers))
  {
    var entries := QuickOf(servers);
    forall i, j | 0 <= i < j < |entries|
      ensures entries[i].0 != entries[j].0
    {
      if servers[i].0 + "_urls" == servers[j].0 + "_urls" {
        CancelSuffix(servers[i].0, servers[j].0, "_urls");
      }
    }
  }

  /** The quick-access dict: every environment's addresses under `{env}_urls`. */
  function QuickTable(envs: Table): (m: map<string, Value>)
    requires DistinctKeys(envs)
    ensures |m| == |envs|
  {
    var servers := ServersOf(envs);
    assert DistinctKeys(servers);
    QuickAccessKeysDistinct(servers);
    var quick := QuickOf(servers);
    DistinctKeysCount(quick);
    ToMap(quick)
  }

  /** Environment i's addresses are listed under `{env}_urls`. */
  lemma QuickTableEntry(envs: Table, i: nat)
    requires DistinctKeys(envs) && i < |envs|
    ensures envs[i].0 + "_urls" in QuickTable(envs)
    ensures QuickTable(envs)[envs[i].0 + "_urls"] == QuickAccessEntry(ComponentFor(envs[i].0, envs[i].1))
  {
    var servers := ServersOf(envs);
    assert DistinctKeys(servers);
    QuickAccessKeysDistinct(servers);
    var quick := QuickOf(servers);
    assert quick[i] == (envs[i].0 + "_urls", QuickAccessEntry(ComponentFor(envs[i].0, envs[i].1)));
  }

  /** `f"CC-{env_name.upper()}"`. */
  function CostCenter(envName: string): (tag: string)
    ensures |tag| == |envName| + 3 && tag[..3] == "CC-"
    ensures forall i :: 0 <= i < |envName| ==> tag[i + 3] == UpperChar(envName[i])
  {
    "CC-" + Upper(envName)
  }

  /** Cost-centre tags are already upper case, so upper-casing them again changes nothing. */
  lemma CostCenterIsUpper(envName: string)
    ensures Upper(CostCenter(envName)) == CostCenter(envName)
  {
    UpperConcat("CC-", Upper(envName));
    UpperIdempotent(envName);
    assert Upper("CC-") == "CC-";
  }

  const CommonTags: Value := Object(map[
    "ManagedBy" := Str("Pulumi"),
    "Project" := Str("WebServer-Demo"),
    "Owner" := Str("DevOps-Team"),
    "DeploymentMethod" := Str("ComponentResource")])

  function EnvironmentTags(envName: string, config: EnvConfig): (v: Value)
    ensures v.Object? && v.fields.Keys == {"Environment", "CostCenter", "InstanceType"}
    ensures v.fields["Environment"] == Str(config.environment) && v.fields["CostCenter"] == Str(CostCenter(envName))
    ensures v.fields["InstanceType"] == Str(config.instanceType)
  {
    Object(map[
      "Environment" := Str(config.environment),
      "CostCenter" := Str(CostCenter(envName)),
      "InstanceType" := Str(config.instanceType)])
  }

  /** The dict comprehension over the table: one tag set per environment name. */
  function EnvironmentSpecificTags(envs: Table): (entries: seq<(string, Value)>)
    ensures |entries| == |envs|
    ensures forall i :: 0 <= i < |envs| ==> entries[i] == (envs[i].0, EnvironmentTags(envs[i].0, envs[i].1))
  {
    seq(|envs|, i requires 0 <= i < |envs| => (envs[i].0, EnvironmentTags(envs[i].0, envs[i].1)))
  }

  /** The `tagging_strategy` export: the common tags, and one tag set per environment under its name. */
  function TaggingStrategy(envs: Table): (v: Value)
    requires DistinctKeys(envs)
    ensures v.Object? && v.fields.Keys == {"common_tags", "environment_specific_tags"} && v.fields["common_tags"] == CommonTags
    ensures var specific := v.fields["environment_specific_tags"];
      && specific.Object? && specific.fields.Keys == KeysOf(envs)
      && forall i :: 0 <= i < |envs| ==> envs[i].0 in specific.fields && specific.fields[envs[i].0] == EnvironmentTags(envs[i].0, envs[i].1)
  {
    SameKeys(EnvironmentSpecificTags(envs), envs);
    assert DistinctKeys(EnvironmentSpecificTags(envs));
    Object(map[
      "common_tags" := CommonTags,
      "environment_specific_tags" := Object(ToMap(EnvironmentSpecificTags(envs)))])
  }
}
