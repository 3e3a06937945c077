/**
 * The second half of the component demo: the report, the exports the
 * program makes in order, and what each exported key ends up holding.
 */
module DemoReport {
  import opened Wrappers
  import opened PyText
  import opened Resources
  import opened Dicts
  import opened DemoComponents

  // ---------------------------------------------------------------------
  // The report and the whole program
  // ---------------------------------------------------------------------

  const ProductionExtras: Value := Object(map[
    "monitoring_enabled" := Bool(true),
    "backup_enabled" := Bool(true),
    "multi_az" := Bool(true)])

  const NextSteps: seq<Value> := [
    Str("Test each environment using the exported URLs"),
    Str("SSH into instances using the provided SSH commands"),
    Str("Scale environments by modifying the environments dictionary"),
    Str("Add monitoring or other components as needed")]

  const FeaturesDemonstrated: seq<Value> := [
    Str("ComponentResource pattern for reusability"),
    Str("Dynamic resource creation with loops"),
    Str("Complex conditional logic"),
    Str("Rich output data structures"),
    Str("Configuration-driven deployments"),
    Str("Cost analysis with programming logic")]

  /** The report; `timestamp` is what the engine's clock returns. */
  function DeploymentReport(timestamp: Value, environmentCount: nat): (v: Value)
    ensures v.Object? && v.fields.Keys == {"deployment_timestamp", "deployment_summary", "next_steps", "pulumi_features_demonstrated"}
    ensures v.fields["deployment_timestamp"] == timestamp
    ensures v.fields["deployment_summary"] == Str("Successfully deployed " + NatToString(environmentCount)
                                                  + " environments using Pulumi ComponentResources")
    ensures v.fields["next_steps"] == List(NextSteps) && |NextSteps| == 4
    ensures v.fields["pulumi_features_demonstrated"] == List(FeaturesDemonstrated) && |FeaturesDemonstrated| == 6
  {
    Object(map[
      "deployment_timestamp" := timestamp,
      "deployment_summary" := Str("Successfully deployed " + IntToString(environmentCount)
                                  + " environments using Pulumi ComponentResources"),
      "next_steps" := List(NextSteps),
      "pulumi_features_demonstrated" := List(FeaturesDemonstrated)])
  }

  /** The five summaries under their keys, in the order the script exports them. */
  function SummaryExports(summary: Value, costs: Value, quick: Value, tags: Value, report: Value): (m: map<string, Value>)
    ensures m.Keys == LaterKeys
    ensures m["deployment_summary"] == summary && m["cost_analysis"] == costs && m["quick_access"] == quick
    ensures m["tagging_strategy"] == tags && m["deployment_report"] == report
  {
    map[
      "deployment_summary" := summary,
      "cost_analysis" := costs,
      "quick_access" := quick,
      "tagging_strategy" := tags,
      "deployment_report" := report]
  }

  /** The five exports after the optional production extras. */
  function LaterExports(envs: Table, timestamp: Value): (m: map<string, Value>)
    requires DistinctKeys(envs)
    ensures m.Keys == LaterKeys
  {
    SummaryExports(DeploymentSummary(envs), Object(CostTable(envs)), Object(QuickTable(envs)),
      TaggingStrategy(envs), DeploymentReport(timestamp, |envs|))
  }

  /** `production_extras` is exported only when `deploy_production` is set, and set to true. */
  function ProductionExports(deployProduction: Option<bool>): (m: map<string, Value>)
    ensures m.Keys == if deployProduction == Some(true) then {"production_extras"} else {}
    ensures deployProduction == Some(true) ==> m["production_extras"] == ProductionExtras
  {
    if deployProduction.GetOr(false) then map["production_extras" := ProductionExtras] else map[]
  }

  /**
   * Everything the program exports, in order: each environment's details,
   * the production extras when enabled, then the five summaries; a later
   * export under a key already exported replaces it.
   */
  function ExportsOf(envs: Table, deployProduction: Option<bool>, timestamp: Value): (m: map<string, Value>)
    requires DistinctKeys(envs)
    ensures m.Keys == KeysOf(envs) + ProductionExports(deployProduction).Keys + LaterKeys
    ensures forall k :: k in LaterKeys ==> m[k] == LaterExports(envs, timestamp)[k]
    ensures forall k :: k in KeysOf(envs) && k !in ReservedKeys ==> m[k] == DetailsTable(envs)[k]
  {
    DetailsTable(envs) + ProductionExports(deployProduction) + LaterExports(envs, timestamp)
  }

  /** The export loop: each environment's details under its name. */
  method ExportDetails(details: seq<(string, Value)>) returns (exports: map<string, Value>)
    requires DistinctKeys(details)
    ensures exports == ToMap(details)
  {
    exports := map[];
    var i := 0;
    while i < |details|
      invariant 0 <= i <= |details|
      invariant DistinctKeys(details[..i]) && exports == ToMap(details[..i])
    {
      assert details[..i + 1] == details[..i] + [details[i]];
      ToMapAppend(details[..i], details[i].0, details[i].1);
      exports := exports[details[i].0 := details[i].1];
      i := i + 1;
    }
    assert details[..i] == details;
  }

  datatype ComponentsDeployment = ComponentsDeployment(
    servers: seq<(string, Component)>,
    exports: map<string, Value>)

  /** The cost-analysis and quick-access loops, and the dicts they fill. */
  method CostsAndAddresses(envs: Table, servers: seq<(string, Component)>)
    returns (costs: map<string, Value>, quick: map<string, Value>)
    requires DistinctKeys(envs) && servers == ServersOf(envs)
    ensures costs == CostTable(envs) && quick == QuickTable(envs)
  {
    var costEntries := CostAnalysis(envs);
    var quickEntries := QuickAccess(servers);
    assert DistinctKeys(costEntries) && DistinctKeys(servers);
    QuickAccessKeysDistinct(servers);
    costs, quick := ToMap(costEntries), ToMap(quickEntries);
  }

  /** The five summaries, assembled from the cost and quick-access loops. */
  method Summaries(envs: Table, servers: seq<(string, Component)>, timestamp: Value) returns (later: map<string, Value>)
    requires DistinctKeys(envs) && servers == ServersOf(envs)
    ensures later == LaterExports(envs, timestamp)
  {
    var costs, quick := CostsAndAddresses(envs, servers);
    LaterFromTables(envs, timestamp, costs, quick);
    later := SummaryExports(DeploymentSummary(envs), Object(costs), Object(quick),
      TaggingStrategy(envs), DeploymentReport(timestamp, |envs|));
  }

  /** The later exports are the summaries over the cost and quick-access dicts the loops built. */
  lemma LaterFromTables(envs: Table, timestamp: Value, costs: map<string, Value>, quick: map<string, Value>)
    requires DistinctKeys(envs) && costs == CostTable(envs) && quick == QuickTable(envs)
    ensures LaterExports(envs, timestamp) == SummaryExports(DeploymentSummary(envs), Object(costs), Object(quick),
      TaggingStrategy(envs), DeploymentReport(timestamp, |envs|))
  {
  }

  /** The first loop and the export of each environment's details, then the optional production extras. */
  method ExportEnvironments(envs: Table, deployProduction: Option<bool>)
    returns (servers: seq<(string, Component)>, exports: map<string, Value>)
    requires DistinctKeys(envs)
    ensures servers == ServersOf(envs)
    ensures exports == DetailsTable(envs) + ProductionExports(deployProduction)
  {
    var details;
    servers, details := CreateEnvironments(envs);
    assert DistinctKeys(details);
    exports := ExportDetails(details);
    assert exports == DetailsTable(envs);
    UpdateIsMerge(exports, "production_extras", ProductionExtras);
    if deployProduction.GetOr(false) {
      exports := exports["production_extras" := ProductionExtras];
    }
  }

  /** The program over an environment dict; `deploy_production` unset counts as false. */
  method Deploy(envs: Table, deployProduction: Option<bool>, timestamp: Value) returns (d: ComponentsDeployment)
    requires DistinctKeys(envs)
    ensures d.servers == ServersOf(envs)
    ensures d.exports == ExportsOf(envs, deployProduction, timestamp)
  {
    var servers, exports := ExportEnvironments(envs, deployProduction);
    var later := Summaries(envs, servers, timestamp);
    d := ComponentsDeployment(servers, exports + later);
  }

  // ---------------------------------------------------------------------
  // What the exports hold
  // ---------------------------------------------------------------------

  /** The exported keys: every environment's name, the production extras when enabled, and the five summaries. */
  lemma ExportKeys(envs: Table, deployProduction: Option<bool>, timestamp: Value)
    requires DistinctKeys(envs)
    ensures ExportsOf(envs, deployProduction, timestamp).Keys ==
      KeysOf(envs) + (if deployProduction == Some(true) then {"production_extras"} else {}) + LaterKeys
  {
    var details, prod, later := DetailsTable(envs), ProductionExports(deployProduction), LaterExports(envs, timestamp);
    MergeKeys(details, prod, later);
  }

  /**
   * Each environment is exported with its own component's details unless a
   * later export of the same name replaces them.
   */
  lemma ExportedDetails(envs: Table, deployProduction: Option<bool>, timestamp: Value, i: nat)
    requires DistinctKeys(envs) && i < |envs| && envs[i].0 !in ReservedKeys
    ensures envs[i].0 in ExportsOf(envs, deployProduction, timestamp)
    ensures ExportsOf(envs, deployProduction, timestamp)[envs[i].0] == EnvironmentDetails(ComponentFor(envs[i].0, envs[i].1))
  {
    var details, prod, later := DetailsTable(envs), ProductionExports(deployProduction), LaterExports(envs, timestamp);
    var k := envs[i].0;
    DetailsTableEntry(envs, i);
    UnreservedKey(k);
    LookupFirst(details, prod, later, k);
  }

  /** `production_extras` is exported when, and only when, `deploy_production` is set to true. */
  lemma ProductionExtrasGated(envs: Table, deployProduction: Option<bool>, timestamp: Value)
    requires DistinctKeys(envs) && "production_extras" !in KeysOf(envs)
    ensures "production_extras" in ExportsOf(envs, deployProduction, timestamp) <==> deployProduction == Some(true)
    ensures deployProduction == Some(true) ==> ExportsOf(envs, deployProduction, timestamp)["production_extras"] == ProductionExtras
  {
    var details, prod, later := DetailsTable(envs), ProductionExports(deployProduction), LaterExports(envs, timestamp);
    ExtrasKeyNotLater();
    LookupMiddle(details, prod, later, "production_extras");
  }

  /** Every environment has its cost estimate and its quick-access entry, none lost to a repeated key. */
  lemma ExportedCostsAndUrls(envs: Table, deployProduction: Option<bool>, timestamp: Value, i: nat)
    requires DistinctKeys(envs) && i < |envs|
    ensures var m := ExportsOf(envs, deployProduction, timestamp);
      && m["cost_analysis"] == Object(CostTable(envs))
      && envs[i].0 in CostTable(envs)
      && CostTable(envs)[envs[i].0] == CostEntry(envs[i].1.instanceType)
    ensures var m := ExportsOf(envs, deployProduction, timestamp);
      && m["quick_access"] == Object(QuickTable(envs))
      && envs[i].0 + "_urls" in QuickTable(envs)
      && QuickTable(envs)[envs[i].0 + "_urls"] == QuickAccessEntry(ComponentFor(envs[i].0, envs[i].1))
  {
    var details, prod, later := DetailsTable(envs), ProductionExports(deployProduction), LaterExports(envs, timestamp);
    LookupLast(details, prod, later, "cost_analysis");
    LookupLast(details, prod, later, "quick_access");
    CostTableEntry(envs, i);
    QuickTableEntry(envs, i);
  }

  /** The summary counts the environments and seven resources for each. */
  lemma SummaryTotals(envs: Table, deployProduction: Option<bool>, timestamp: Value)
    requires DistinctKeys(envs)
    ensures var m := ExportsOf(envs, deployProduction, timestamp);
      && m["deployment_summary"] == DeploymentSummary(envs)
      && DeploymentSummary(envs).fields["total_environments_deployed"] == Int(|envs|)
      && DeploymentSummary(envs).fields["total_resources_created"] == Int(7 * |envs|)
      && m["deployment_report"] == DeploymentReport(timestamp, |envs|)
  {
    var details, prod, later := DetailsTable(envs), ProductionExports(deployProduction), LaterExports(envs, timestamp);
    LookupLast(details, prod, later, "deployment_summary");
    LookupLast(details, prod, later, "deployment_report");
  }
}
