/**
 * The planning layer of the advanced multi-AZ demo: configuration with
 * defaults, the per-environment profile with its cost-optimisation step,
 * availability-zone selection and subnet CIDRs, routes, the security rule
 * list and its conversion to ingress rules, and the round-robin placement of
 * instances on subnets.
 */
module AdvancedDemo {
  import opened Wrappers
  import opened PyText
  import opened Resources
  import Cidr
  import RoundRobin

  // ---------------------------------------------------------------------------
  // Configuration
  // ---------------------------------------------------------------------------

  /** The raw configuration reads; None is an unset key. */
  datatype RawConfig = RawConfig(
    environment: Option<string>,
    instanceCount: Option<int>,
    enableMonitoring: Option<bool>,
    enableBackup: Option<bool>,
    costOptimization: Option<bool>)

  datatype Settings = Settings(
    environment: string,
    instanceCount: int,
    enableMonitoring: bool,
    enableBackup: bool,
    costOptimization: bool)

  /** Python `read or fallback` on a bool read: an unset key and False both give `fallback`. */
  function OrBool(read: Option<bool>, fallback: bool): (b: bool)
    ensures b == (read == Some(true) || fallback)
  {
    if read == Some(true) then true else fallback
  }

  /** The configuration as the script reads it, each read followed by `or <default>`. */
  function ResolveSettingsAsWritten(raw: RawConfig): (s: Settings)
    ensures s.environment == if raw.environment.None? || raw.environment == Some("") then "demo" else raw.environment.value
    ensures s.instanceCount == if raw.instanceCount.None? || raw.instanceCount == Some(0) then 3 else raw.instanceCount.value
    ensures s.enableBackup == (raw.enableBackup == Some(true))
  {
    Settings(
      if raw.environment.None? || raw.environment == Some("") then "demo" else raw.environment.value,
      if raw.instanceCount.None? || raw.instanceCount == Some(0) then 3 else raw.instanceCount.value,
      OrBool(raw.enableMonitoring, true),
      OrBool(raw.enableBackup, false),
      OrBool(raw.costOptimization, true))
  }

  /** As written, `or True` makes monitoring and cost optimisation impossible to switch off. */
  lemma AsWrittenFlagsAlwaysOn(raw: RawConfig)
    ensures ResolveSettingsAsWritten(raw).enableMonitoring
    ensures ResolveSettingsAsWritten(raw).costOptimization
  {
  }

  /** The configuration with the flags defaulting to True only when unset. */
  function ResolveSettings(raw: RawConfig): (s: Settings)
    ensures s.enableMonitoring == raw.enableMonitoring.GetOr(true)
    ensures s.costOptimization == raw.costOptimization.GetOr(true)
    ensures s.enableBackup == raw.enableBackup.GetOr(false)
    ensures s.environment == ResolveSettingsAsWritten(raw).environment
    ensures s.instanceCount == ResolveSettingsAsWritten(raw).instanceCount
  {
    ResolveSettingsAsWritten(raw).(
      enableMonitoring := raw.enableMonitoring.GetOr(true),
      costOptimization := raw.costOptimization.GetOr(true))
  }

  /** The corrected reading honours an explicit False and otherwise agrees with the script. */
  lemma ResolveSettingsHonoursFalse(raw: RawConfig)
    ensures raw.enableMonitoring == Some(false) ==> !ResolveSettings(raw).enableMonitoring
    ensures raw.costOptimization == Some(false) ==> !ResolveSettings(raw).costOptimization
    ensures raw.enableMonitoring != Some(false) && raw.costOptimization != Some(false)
            ==> ResolveSettings(raw) == ResolveSettingsAsWritten(raw)
  {
  }

  // ---------------------------------------------------------------------------
  // Environment profiles
  // ---------------------------------------------------------------------------

  datatype EnvProfile = EnvProfile(
    instanceType: string,
    minSize: nat,
    maxSize: nat,
    detailedMonitoring: bool,
    backupRetention: nat,
    multiAz: bool,
    allowedCidr: string,
    costOptimized: bool)

  /**
   * The profile table, built afresh by each lookup. Its entries carry no
   * cost-optimisation marker yet; `costOptimized` is false until the lookup sets it.
   */
  function ProfileTable(): (t: map<string, EnvProfile>)
    ensures t.Keys == {"dev", "staging", "production"}
    ensures forall e :: e in t ==> !t[e].costOptimized && 1 <= t[e].minSize <= t[e].maxSize <= 10
    ensures forall e :: e in t ==> (t[e].multiAz <==> e != "dev") && (t[e].allowedCidr == AnyIpv4 <==> e == "dev")
  {
    map[
      "dev" := EnvProfile("t3.micro", 1, 2, false, 7, false, "0.0.0.0/0", false),
      "staging" := EnvProfile("t3.small", 2, 4, true, 14, true, "10.0.0.0/8", false),
      "production" := EnvProfile("t3.medium", 3, 10, true, 30, true, "10.0.0.0/8", false)]
  }

  /** `configs.get(env, configs["dev"])`. */
  function ProfileFor(env: string): (p: EnvProfile)
    ensures env in ProfileTable() ==> p == ProfileTable()[env]
    ensures env !in ProfileTable() ==> p == ProfileTable()["dev"]
  {
    var table := ProfileTable();
    if env in table then table[env] else table["dev"]
  }

  /** One size down: medium to small, small to micro, anything else unchanged. */
  function StepDown(instanceType: string): (smaller: string)
    ensures SizeRank(instanceType) > 0 ==> SizeRank(smaller) == SizeRank(instanceType) - 1
    ensures SizeRank(instanceType) == 0 ==> smaller == instanceType
  {
    if instanceType == "t3.medium" then "t3.small"
    else if instanceType == "t3.small" then "t3.micro"
    else instanceType
  }

  /** Position of a size on the t3 ladder. */
  function SizeRank(instanceType: string): nat {
    if instanceType == "t3.medium" then 2 else if instanceType == "t3.small" then 1 else 0
  }

  /** `get_environment_config(env)` under the given cost-optimisation switch. */
  function EnvironmentConfig(env: string, costOptimization: bool): (p: EnvProfile)
    ensures p.costOptimized == (costOptimization && env != "production")
    ensures p.instanceType == if p.costOptimized then StepDown(ProfileFor(env).instanceType)
                              else ProfileFor(env).instanceType
    ensures p.(instanceType := ProfileFor(env).instanceType, costOptimized := false) == ProfileFor(env)
  {
    var config := ProfileFor(env);
    if costOptimization && env != "production" then
      config.(instanceType := StepDown(config.instanceType), costOptimized := true)
    else
      config.(costOptimized := false)
  }

  /** A label outside the table resolves exactly as "dev" does. */
  lemma UnknownEnvironmentIsDev(env: string, costOptimization: bool)
    requires env !in {"dev", "staging", "production"}
    ensures EnvironmentConfig(env, costOptimization) == EnvironmentConfig("dev", costOptimization)
  {
  }

  /** Production keeps its medium instances and is never marked cost-optimised. */
  lemma ProductionNeverCostOptimized(costOptimization: bool)
    ensures EnvironmentConfig("production", costOptimization).instanceType == "t3.medium"
    ensures !EnvironmentConfig("production", costOptimization).costOptimized
  {
  }

  /** Cost optimisation lowers the size by exactly one step, stopping at micro. */
  lemma CostOptimizationStepsDownOnce(env: string)
    requires env != "production"
    ensures var before := EnvironmentConfig(env, false);
      var after := EnvironmentConfig(env, true);
      && after.costOptimized && !before.costOptimized
      && SizeRank(after.instanceType) == (if SizeRank(before.instanceType) == 0 then 0 else SizeRank(before.instanceType) - 1)
      && after.(instanceType := before.instanceType, costOptimized := false) == before
  {
  }

  /** Every profile sizes its group within [1, 10] with min below max. */
  lemma ProfileSizesBounded(env: string, costOptimization: bool)
    ensures var p := EnvironmentConfig(env, costOptimization);
      1 <= p.minSize <= p.maxSize <= 10
  {
  }

  /** The `environment_comparison` export: each known label's profile. */
  function EnvironmentComparison(costOptimization: bool): (m: map<string, EnvProfile>)
    ensures m.Keys == {"dev", "staging", "production"}
    ensures forall env :: env in m ==> m[env] == EnvironmentConfig(env, costOptimization)
  {
    map env | env in {"dev", "staging", "production"} :: EnvironmentConfig(env, costOptimization)
  }

  /**
   * Since the table is rebuilt on each call, the comparison export shows, for
   * the deployed label, the same profile the deployment used.
   */
  lemma ComparisonAgreesWithDeployment(s: Settings)
    requires s.environment in {"dev", "staging", "production"}
    ensures EnvironmentComparison(s.costOptimization)[s.environment]
            == EnvironmentConfig(s.environment, s.costOptimization)
  {
  }

  // ---------------------------------------------------------------------------
  // Network layout
  // ---------------------------------------------------------------------------

  const VpcBlock: Cidr.Block := Cidr.Block(10, 100, 0, 0, 16)

  function VpcDecl(s: Settings, profile: EnvProfile, region: string, account: string): (v: Vpc)
    ensures v.resourceName == "advanced-demo-vpc" && v.cidrBlock == "10.100.0.0/16"
    ensures HasTag(v.tags, "Name", "advanced-demo-vpc-" + s.environment)
    ensures HasTag(v.tags, "CostOptimized", BoolToString(profile.costOptimized))
    ensures HasTag(v.tags, "Environment", s.environment) && HasTag(v.tags, "ManagedBy", "Pulumi-Advanced-Demo")
    ensures HasTag(v.tags, "Region", region) && HasTag(v.tags, "Account", account)
    ensures v.tags.Keys == {"Name", "Environment", "ManagedBy", "CostOptimized", "Region", "Account"}
  {
    Vpc("advanced-demo-vpc", "10.100.0.0/16",
      map[
        "Name" := "advanced-demo-vpc-" + s.environment,
        "Environment" := s.environment,
        "ManagedBy" := "Pulumi-Advanced-Demo",
        "CostOptimized" := BoolToString(profile.costOptimized),
        "Region" := region,
        "Account" := account])
  }

  /** The zones subnets go in: the first three when multi-AZ, else only the first. */
  function SelectAzs(names: seq<string>, multiAz: bool): (r: Result<seq<string>, PyError>)
    ensures r.Err? <==> !multiAz && names == []
    ensures r.Err? ==> r.error == IndexError
    ensures r.Ok? ==> |r.value| == (if !multiAz then 1 else if |names| < 3 then |names| else 3)
    ensures r.Ok? ==> r.value == names[..|r.value|]
  {
    if multiAz then Ok(if |names| <= 3 then names else names[..3])
    else if names == [] then Err(IndexError)
    else Ok([names[0]])
  }

  /** Subnet i's block, `10.100.{i+1}.0/24`. */
  function SubnetBlock(i: nat): Cidr.Block {
    Cidr.Block(10, 100, i + 1, 0, 24)
  }

  function SubnetCidr(i: nat): (cidr: string)
    ensures cidr == "10.100." + NatToString(i + 1) + ".0/24"
  {
    assert NatToString(10) == "10" && NatToString(100) == "100";
    assert NatToString(0) == "0" && NatToString(24) == "24";
    Cidr.Format(SubnetBlock(i))
  }

  /** The subnet declared for zone `az` at position i. */
  function SubnetDecl(i: nat, az: string, environment: string): (sn: Subnet)
    ensures sn.resourceName == "advanced-subnet-" + NatToString(i)
    ensures sn.vpc == Ref("advanced-demo-vpc") && sn.availabilityZone == az && sn.mapPublicIp
    ensures sn.cidrBlock == SubnetCidr(i) && HasTag(sn.tags, "CIDR", sn.cidrBlock)
    ensures HasTag(sn.tags, "Name", "advanced-subnet-" + NatToString(i) + "-" + az) && HasTag(sn.tags, "AZ", az)
  {
    var cidr := SubnetCidr(i);
    Subnet("advanced-subnet-" + NatToString(i), Ref("advanced-demo-vpc"), cidr, az, true,
      map[
        "Name" := "advanced-subnet-" + NatToString(i) + "-" + az,
        "Environment" := environment,
        "AZ" := az,
        "SubnetType" := "Public",
        "CIDR" := cidr])
  }

  /** The subnet loop: one subnet per selected zone, in zone order. */
  method PlanSubnets(azs: seq<string>, environment: string) returns (subnets: seq<Subnet>)
    ensures |subnets| == |azs|
    ensures forall i :: 0 <= i < |azs| ==> subnets[i] == SubnetDecl(i, azs[i], environment)
  {
    subnets := [];
    var i := 0;
    while i < |azs|
      invariant 0 <= i <= |azs|
      invariant |subnets| == i
      invariant forall k :: 0 <= k < i ==> subnets[k] == SubnetDecl(k, azs[k], environment)
    {
      subnets := subnets + [SubnetDecl(i, azs[i], environment)];
      i := i + 1;
    }
  }

  /** Every subnet block the plan can declare lies strictly inside the VPC block. */
  lemma SubnetInsideVpc(i: nat)
    requires i < 255
    ensures Cidr.Valid(SubnetBlock(i))
    ensures Cidr.StrictlyContains(VpcBlock, SubnetBlock(i))
  {
    Cidr.Slash24InsideSlash16(10, 100, i + 1);
  }

  /** Distinct subnet positions get blocks with no address in common. */
  lemma SubnetsDisjoint(i: nat, j: nat)
    requires i != j
    ensures Cidr.Disjoint(SubnetBlock(i), SubnetBlock(j))
  {
    Cidr.Slash24sDisjoint(10, 100, i + 1, j + 1);
  }

  function GatewayDecl(environment: string): (g: InternetGateway)
    ensures g.resourceName == "advanced-igw" && g.vpc == Ref("advanced-demo-vpc")
    ensures HasTag(g.tags, "Name", "advanced-igw-" + environment)
  {
    InternetGateway("advanced-igw", Ref("advanced-demo-vpc"),
      map["Name" := "advanced-igw-" + environment, "Environment" := environment])
  }

  /** The route list: a default route through the gateway, plus 192.168.0.0/16 in production. */
  function Routes(environment: string, igw: Ref): (routes: seq<Route>)
    ensures |routes| == if environment == "production" then 2 else 1
    ensures routes[0] == Route(AnyIpv4, igw)
    ensures environment == "production" ==> routes[1] == Route("192.168.0.0/16", igw)
  {
    var routes := [Route(AnyIpv4, igw)];
    if environment == "production" then routes + [Route("192.168.0.0/16", igw)] else routes
  }

  /** The route table; its RouteCount tag is the number of its routes. */
  function RouteTableDecl(environment: string): (rt: RouteTable)
    ensures rt.resourceName == "advanced-rt" && rt.vpc == Ref("advanced-demo-vpc")
    ensures HasTag(rt.tags, "Name", "advanced-rt-" + environment) && HasTag(rt.tags, "Environment", environment)
    ensures rt.routes == Routes(environment, Ref("advanced-igw"))
    ensures HasTag(rt.tags, "RouteCount", NatToString(|rt.routes|))
    ensures HasTag(rt.tags, "RouteCount", if environment == "production" then "2" else "1")
  {
    var routes := Routes(environment, Ref("advanced-igw"));
    RouteTable("advanced-rt", Ref("advanced-demo-vpc"), routes,
      map[
        "Name" := "advanced-rt-" + environment,
        "Environment" := environment,
        "RouteCount" := NatToString(|routes|)])
  }

  /** Association i: subnet i tied to the route table under `advanced-rt-assoc-{i}`. */
  function AssociationFor(i: nat, subnet: Subnet, routeTable: Ref): (a: RouteTableAssociation)
    ensures a.resourceName == "advanced-rt-assoc-" + NatToString(i)
    ensures a.subnet == Ref(subnet.resourceName) && a.routeTable == routeTable
  {
    RouteTableAssociation("advanced-rt-assoc-" + NatToString(i), Ref(subnet.resourceName), routeTable)
  }

  /** The association loop: one association per subnet, in subnet order. */
  method PlanAssociations(subnets: seq<Subnet>, routeTable: Ref) returns (assocs: seq<RouteTableAssociation>)
    ensures |assocs| == |subnets|
    ensures forall i :: 0 <= i < |subnets| ==> assocs[i] == AssociationFor(i, subnets[i], routeTable)
  {
    assocs := [];
    var i := 0;
    while i < |subnets|
      invariant 0 <= i <= |subnets|
      invariant |assocs| == i
      invariant forall k :: 0 <= k < i ==> assocs[k] == AssociationFor(k, subnets[k], routeTable)
    {
      assocs := assocs + [AssociationFor(i, subnets[i], routeTable)];
      i := i + 1;
    }
  }

  // ---------------------------------------------------------------------------
  // Security rules
  // ---------------------------------------------------------------------------

  /** An entry of `base_security_rules`; only SSH names its own source blocks. */
  datatype SecurityRule = SecurityRule(port: int, protocol: string, description: string, cidrBlocks: Option<seq<string>>)

  const Http := SecurityRule(80, "tcp", "HTTP", None)
  const Https := SecurityRule(443, "tcp", "HTTPS", None)
  const Prometheus := SecurityRule(9090, "tcp", "Prometheus", None)
  const Grafana := SecurityRule(3000, "tcp", "Grafana", None)
  const HealthCheck := SecurityRule(8080, "tcp", "App Load Balancer Health Check", None)

  function Ssh(allowedCidr: string): SecurityRule {
    SecurityRule(22, "tcp", "SSH", Some([allowedCidr]))
  }

  /** The rule list the script ends with, step by step: base, SSH, monitoring, health check. */
  function SecurityRules(allowedCidr: string, enableMonitoring: bool, instanceCount: int): (rules: seq<SecurityRule>)
    ensures |rules| == 3 + (if enableMonitoring then 2 else 0) + (if instanceCount > 2 then 1 else 0)
    ensures rules[..3] == [Http, Https, Ssh(allowedCidr)]
    ensures forall i :: 0 <= i < |rules| ==> (rules[i].cidrBlocks.Some? <==> rules[i].port == 22)
    ensures forall i :: 0 <= i < |rules| && rules[i].cidrBlocks.Some? ==> rules[i].cidrBlocks == Some([allowedCidr])
  {
    [Http, Https, Ssh(allowedCidr)]
    + (if enableMonitoring then [Prometheus, Grafana] else [])
    + (if instanceCount > 2 then [HealthCheck] else [])
  }

  /** The appends of the script, in order, on one growing list. */
  method BuildSecurityRules(allowedCidr: string, enableMonitoring: bool, instanceCount: int)
    returns (rules: seq<SecurityRule>)
    ensures rules == SecurityRules(allowedCidr, enableMonitoring, instanceCount)
    ensures rules[..3] == [Http, Https, Ssh(allowedCidr)]
  {
    rules := [Http, Https];
    rules := rules + [Ssh(allowedCidr)];
    if enableMonitoring {
      rules := rules + [Prometheus, Grafana];
    }
    if instanceCount > 2 {
      rules := rules + [HealthCheck];
    }
  }

  /** The ports, in order: 80, 443, 22, then 9090 and 3000 with monitoring, then 8080 past two instances. */
  lemma SecurityRulePorts(allowedCidr: string, enableMonitoring: bool, instanceCount: int)
    ensures var rules := SecurityRules(allowedCidr, enableMonitoring, instanceCount);
      && |rules| == 3 + (if enableMonitoring then 2 else 0) + (if instanceCount > 2 then 1 else 0)
      && rules[0].port == 80 && rules[1].port == 443 && rules[2] == Ssh(allowedCidr)
      && (enableMonitoring ==> rules[3].port == 9090 && rules[4].port == 3000)
      && (instanceCount > 2 ==> rules[|rules| - 1].port == 8080)
  {
  }

  /**
   * Switching a flag on only adds rules: every rule of the weaker settings is
   * still there, and the rules before the last optional step form a prefix.
   */
  lemma SecurityRulesMonotone(allowedCidr: string, m1: bool, c1: int, m2: bool, c2: int)
    requires m1 ==> m2
    requires c1 > 2 ==> c2 > 2
    ensures forall r :: r in SecurityRules(allowedCidr, m1, c1) ==> r in SecurityRules(allowedCidr, m2, c2)
    ensures SecurityRules(allowedCidr, m1, 0) <= SecurityRules(allowedCidr, m1, c2)
    ensures SecurityRules(allowedCidr, false, 0) <= SecurityRules(allowedCidr, m2, c2)
  {
  }

  /** One `base_security_rules` entry as an ingress rule; no own sources means anywhere. */
  function ToIngress(rule: SecurityRule): (r: Rule)
    ensures r.fromPort == rule.port && r.toPort == rule.port && r.protocol == rule.protocol
    ensures r.cidrBlocks == if rule.cidrBlocks.Some? then rule.cidrBlocks.value else [AnyIpv4]
    ensures r.securityGroups == [] && r.description == Some(rule.description)
  {
    Rule(rule.protocol, rule.port, rule.port, rule.cidrBlocks.GetOr([AnyIpv4]), [], Some(rule.description))
  }

  /** The ingress comprehension: one rule per entry, in order. */
  function IngressFrom(rules: seq<SecurityRule>): (ingress: seq<Rule>)
    ensures |ingress| == |rules|
    ensures forall i :: 0 <= i < |rules| ==> ingress[i] == ToIngress(rules[i])
  {
    seq(|rules|, i requires 0 <= i < |rules| => ToIngress(rules[i]))
  }

  /** Only SSH is narrowed to the profile's block; every other port is open to anywhere. */
  lemma IngressSources(allowedCidr: string, enableMonitoring: bool, instanceCount: int)
    ensures var ingress := IngressFrom(SecurityRules(allowedCidr, enableMonitoring, instanceCount));
      forall i :: 0 <= i < |ingress| ==>
        ingress[i].cidrBlocks == if ingress[i].fromPort == 22 then [allowedCidr] else [AnyIpv4]
  {
  }

  function SecurityGroupDecl(environment: string, rules: seq<SecurityRule>, enableMonitoring: bool): (sg: SecurityGroup)
    ensures sg.resourceName == "advanced-sg" && sg.vpc == Some(Ref("advanced-demo-vpc"))
    ensures sg.ingress == IngressFrom(rules) && sg.egress == [AllowAllEgress]
    ensures HasTag(sg.tags, "RuleCount", NatToString(|rules|))
    ensures HasTag(sg.tags, "MonitoringEnabled", BoolToString(enableMonitoring))
  {
    SecurityGroup("advanced-sg", None, "Advanced demo security group with dynamic rules",
      Some(Ref("advanced-demo-vpc")), IngressFrom(rules), [AllowAllEgress],
      map[
        "Name" := "advanced-sg-" + environment,
        "Environment" := environment,
        "RuleCount" := NatToString(|rules|),
        "MonitoringEnabled" := BoolToString(enableMonitoring)])
  }

  // ---------------------------------------------------------------------------
  // Instances
  // ---------------------------------------------------------------------------

  /** Instance i on the given subnet and zone with the profile's size. */
  function InstanceDecl(i: nat, subnet: Subnet, az: string, environment: string, profile: EnvProfile,
                        enableMonitoring: bool): (inst: Instance)
    ensures inst.resourceName == "advanced-instance-" + NatToString(i)
    ensures inst.instanceType == profile.instanceType && inst.subnet == Ref(subnet.resourceName)
    ensures inst.securityGroups == [Ref("advanced-sg")] && inst.keyName == Some("aws-365-keypair")
    ensures inst.monitoring == Some(enableMonitoring && profile.detailedMonitoring)
    ensures HasTag(inst.tags, "Name", inst.resourceName) && HasTag(inst.tags, "InstanceNumber", NatToString(i + 1))
    ensures HasTag(inst.tags, "AZ", az)
  {
    var monitoring := enableMonitoring && profile.detailedMonitoring;
    Instance("advanced-instance-" + NatToString(i), profile.instanceType, Ref(subnet.resourceName),
      [Ref("advanced-sg")], Some("aws-365-keypair"), Some(monitoring),
      map[
        "Name" := "advanced-instance-" + NatToString(i),
        "Environment" := environment,
        "InstanceNumber" := NatToString(i + 1),
        "AZ" := az,
        "ManagedBy" := "Pulumi",
        "InstanceType" := profile.instanceType,
        "MonitoringEnabled" := BoolToString(monitoring),
        "CostOptimized" := BoolToString(profile.costOptimized)])
  }

  /**
   * The instance loop: instance i goes on subnet `i mod len(subnets)` and the
   * zone at that same index; with no subnets the first modulo raises.
   */
  method PlanInstances(count: int, subnets: seq<Subnet>, azs: seq<string>, environment: string,
                       profile: EnvProfile, enableMonitoring: bool)
    returns (r: Result<seq<Instance>, PyError>)
    requires |azs| == |subnets|
    ensures r.Err? <==> count > 0 && subnets == []
    ensures r.Err? ==> r.error == ZeroDivisionError
    ensures r.Ok? ==> |r.value| == (if count > 0 then count else 0)
    ensures r.Ok? ==> forall i :: 0 <= i < |r.value| ==>
      r.value[i] == InstanceDecl(i, subnets[i % |subnets|], azs[i % |subnets|], environment, profile, enableMonitoring)
  {
    var instances: seq<Instance> := [];
    var i := 0;
    while i < count
      invariant 0 <= i <= (if count > 0 then count else 0)
      invariant |instances| == i
      invariant i > 0 ==> subnets != []
      invariant forall k :: 0 <= k < i ==>
        subnets != [] &&
        instances[k] == InstanceDecl(k, subnets[k % |subnets|], azs[k % |subnets|], environment, profile, enableMonitoring)
    {
      if |subnets| == 0 {
        return Err(ZeroDivisionError);
      }
      var subnetIndex := i % |subnets|;
      instances := instances + [InstanceDecl(i, subnets[subnetIndex], azs[subnetIndex], environment, profile, enableMonitoring)];
      i := i + 1;
    }
    r := Ok(instances);
  }

  /** The subnets of the plan have distinct names, hence distinct references. */
  lemma SubnetRefsDistinct(subnets: seq<Subnet>, azs: seq<string>, environment: string)
    requires |subnets| == |azs|
    requires forall i :: 0 <= i < |azs| ==> subnets[i] == SubnetDecl(i, azs[i], environment)
    ensures RoundRobin.Distinct(SubnetRefs(subnets))
  {
    forall i, j | 0 <= i < j < |subnets|
      ensures SubnetRefs(subnets)[i] != SubnetRefs(subnets)[j]
    {
      OrdinalNamesDistinct("advanced-subnet-", i, j);
    }
  }

  /**
   * Instances are spread evenly over the subnets: with n instances and m
   * subnets, subnet k receives n / m of them, one more when k < n mod m.
   */
  lemma InstancesSpreadEvenly(d: Deployment, s: Settings, profile: EnvProfile, k: nat)
    requires NetworkDeployed(d, s.environment, d.selectedAzs) && InstancesDeployed(d, s, profile)
    requires k < |d.subnets|
    ensures RoundRobin.CountOf(SubnetsOf(d.instances), Ref(d.subnets[k].resourceName))
         == |d.instances| / |d.subnets| + (if k < |d.instances| % |d.subnets| then 1 else 0)
  {
    var placed, targets := SubnetsOf(d.instances), SubnetRefs(d.subnets);
    forall i | 0 <= i < |placed|
      ensures placed[i] == targets[i % |targets|]
    {
      assert d.instances[i] == InstanceDecl(i, d.subnets[i % |d.subnets|], d.selectedAzs[i % |d.subnets|], s.environment,
                                            profile, s.enableMonitoring);
    }
    SubnetRefsDistinct(d.subnets, d.selectedAzs, s.environment);
    RoundRobin.SpreadEvenly(placed, targets, k);
  }

  /** The ordinal names of the instances never collide. */
  lemma InstanceNamesDistinct(i: nat, j: nat, sn1: Subnet, sn2: Subnet, az1: string, az2: string,
                              environment: string, profile: EnvProfile, enableMonitoring: bool)
    requires i != j
    ensures InstanceDecl(i, sn1, az1, environment, profile, enableMonitoring).resourceName
         != InstanceDecl(j, sn2, az2, environment, profile, enableMonitoring).resourceName
  {
    OrdinalNamesDistinct("advanced-instance-", i, j);
  }

  // ---------------------------------------------------------------------------
  // Load balancer and exports
  // ---------------------------------------------------------------------------

  datatype TargetAttachment = TargetAttachment(resourceName: string, targetGroup: Ref, target: Ref, port: int)

  /** Attachment i registers instance i with the target group on port 80. */
  function AttachmentFor(i: nat, instance: Instance): (a: TargetAttachment)
    ensures a.resourceName == "advanced-tg-attachment-" + NatToString(i)
    ensures a.targetGroup == Ref("advanced-tg") && a.target == Ref(instance.resourceName) && a.port == 80
  {
    TargetAttachment("advanced-tg-attachment-" + NatToString(i), Ref("advanced-tg"), Ref(instance.resourceName), 80)
  }

  /** The attachment loop over `enumerate(instances)`: one attachment per instance, in instance order. */
  method PlanTargetAttachments(instances: seq<Instance>) returns (attachments: seq<TargetAttachment>)
    ensures |attachments| == |instances|
    ensures forall i :: 0 <= i < |instances| ==> attachments[i] == AttachmentFor(i, instances[i])
  {
    attachments := [];
    var i := 0;
    while i < |instances|
      invariant 0 <= i <= |instances| && |attachments| == i
      invariant forall k :: 0 <= k < i ==> attachments[k] == AttachmentFor(k, instances[k])
    {
      attachments := attachments + [AttachmentFor(i, instances[i])];
      i := i + 1;
    }
  }

  /** `[subnet.id for subnet in subnets]`. */
  function SubnetRefs(subnets: seq<Subnet>): (refs: seq<Ref>)
    ensures |refs| == |subnets|
    ensures forall i :: 0 <= i < |subnets| ==> refs[i] == Ref(subnets[i].resourceName)
  {
    seq(|subnets|, i requires 0 <= i < |subnets| => Ref(subnets[i].resourceName))
  }

  /** The load balancer's subnets, its registered targets and the exported target count. */
  datatype LoadBalancing = LoadBalancing(subnets: seq<Ref>, attachments: seq<TargetAttachment>, targetCount: nat)

  /** One entry of the `instance_details` export. */
  datatype InstanceDetail = InstanceDetail(
    instanceNumber: nat,
    name: string,
    publicIp: Output,
    instanceId: Output,
    availabilityZone: string,
    subnetCidr: string,
    monitoringEnabled: bool,
    website: Output,
    ssh: Output)

  /** The export entry of instance i, placed at subnet index `k`. */
  function DetailAt(i: nat, instance: Instance, az: string, k: nat, monitoring: bool): (d: InstanceDetail)
    ensures d.instanceNumber == i + 1 && d.name == "advanced-instance-" + NatToString(i)
    ensures d.publicIp == Output(Ref(instance.resourceName), "public_ip", "", "")
    ensures d.instanceId == Output(Ref(instance.resourceName), "id", "", "")
    ensures d.availabilityZone == az && d.subnetCidr == SubnetCidr(k) && d.monitoringEnabled == monitoring
    ensures d.website == PublicIpText(instance, "http://", "")
    ensures d.ssh == PublicIpText(instance, "ssh -i aws-365-keypair.pem ec2-user@", "")
  {
    InstanceDetail(i + 1, "advanced-instance-" + NatToString(i),
      Output(Ref(instance.resourceName), "public_ip", "", ""), Output(Ref(instance.resourceName), "id", "", ""),
      az, SubnetCidr(k), monitoring,
      PublicIpText(instance, "http://", ""),
      PublicIpText(instance, "ssh -i aws-365-keypair.pem ec2-user@", ""))
  }

  /**
   * The `instance_details` comprehension: the zone is read at `i mod len(zones)`
   * and the block at `i mod len(subnets)`.
   */
  function InstanceDetails(instances: seq<Instance>, azs: seq<string>, nSubnets: nat, profile: EnvProfile,
                           enableMonitoring: bool): (details: seq<InstanceDetail>)
    requires instances != [] ==> |azs| > 0 && nSubnets > 0
    ensures |details| == |instances|
    ensures forall i :: 0 <= i < |instances| ==>
      details[i] == DetailAt(i, instances[i], azs[i % |azs|], i % nSubnets, enableMonitoring && profile.detailedMonitoring)
  {
    seq(|instances|, i requires 0 <= i < |instances| =>
      DetailAt(i, instances[i], azs[i % |azs|], i % nSubnets, enableMonitoring && profile.detailedMonitoring))
  }

  /** The deployment summary's statistics. */
  datatype Stats = Stats(totalInstances: int, totalSubnets: nat, totalAvailabilityZones: nat,
                         totalResourcesCreated: nat, securityGroupRules: nat)

  /** The `deployment_metadata` block; `timestamp` is what the engine's clock returns. */
  datatype Metadata = Metadata(timestamp: string, environment: string, region: string, account: string,
                               pulumiVersion: string)

  /** The `configuration` block of the deployment summary. */
  datatype ConfigurationBlock = ConfigurationBlock(
    environmentConfig: EnvProfile,
    monitoringEnabled: bool,
    backupEnabled: bool,
    costOptimization: bool,
    multiAzDeployment: bool)

  /** The `estimated_costs` block, without `monthly_estimate_usd`. */
  datatype CostBlock = CostBlock(instanceType: string, costOptimized: bool)

  function MetadataFor(timestamp: string, s: Settings, region: string, account: string): (m: Metadata)
    ensures m.timestamp == timestamp && m.environment == s.environment && m.region == region && m.account == account
    ensures m.pulumiVersion == "3.x"
  {
    Metadata(timestamp, s.environment, region, account, "3.x")
  }

  /** The settings and the profile in use, as the summary reports them. */
  function ConfigurationFor(s: Settings, profile: EnvProfile): (c: ConfigurationBlock)
    ensures c.environmentConfig == profile && c.multiAzDeployment == profile.multiAz
    ensures c.monitoringEnabled == s.enableMonitoring && c.backupEnabled == s.enableBackup
    ensures c.costOptimization == s.costOptimization
  {
    ConfigurationBlock(profile, s.enableMonitoring, s.enableBackup, s.costOptimization, profile.multiAz)
  }

  function EstimatedCosts(profile: EnvProfile): (c: CostBlock)
    ensures c.instanceType == profile.instanceType && c.costOptimized == profile.costOptimized
  {
    CostBlock(profile.instanceType, profile.costOptimized)
  }

  /** The last three key achievements, which quote nothing. */
  const FixedAchievements: seq<string> :=
    ["Generated complex user data with conditional features", "Implemented cost optimization logic",
     "Demonstrated programming constructs impossible in HCL"]

  /** `demo_summary["key_achievements"]`: the first three lines quote the count, the zones, the environment and the rules. */
  function KeyAchievements(instanceCount: int, nAzs: nat, environment: string, nRules: nat): (k: seq<string>)
    ensures |k| == 6
    ensures k[0] == "Deployed " + IntToString(instanceCount) + " instances across " + NatToString(nAzs)
                    + " availability zones"
    ensures k[1] == "Applied environment-specific configuration for " + environment
    ensures k[2] == "Created " + NatToString(nRules) + " dynamic security group rules"
    ensures k[3..] == FixedAchievements
  {
    ["Deployed " + IntToString(instanceCount) + " instances across " + NatToString(nAzs) + " availability zones",
     "Applied environment-specific configuration for " + environment,
     "Created " + NatToString(nRules) + " dynamic security group rules"] + FixedAchievements
  }

  /** The summary blocks that restate the settings and the statistics. */
  datatype Report = Report(metadata: Metadata, configuration: ConfigurationBlock, estimatedCosts: CostBlock,
                           keyAchievements: seq<string>)

  /** The report for settings `s` and profile `profile` over `nAzs` zones and `nRules` rules. */
  function ReportFor(metadata: Metadata, s: Settings, profile: EnvProfile, nAzs: nat, nRules: nat): (rep: Report)
    ensures rep.metadata == metadata
    ensures rep.configuration == ConfigurationFor(s, profile) && rep.estimatedCosts == EstimatedCosts(profile)
    ensures rep.keyAchievements == KeyAchievements(s.instanceCount, nAzs, s.environment, nRules)
  {
    Report(metadata, ConfigurationFor(s, profile), EstimatedCosts(profile),
           KeyAchievements(s.instanceCount, nAzs, s.environment, nRules))
  }

  /** Everything the corrected script declares and exports. */
  datatype Deployment = Deployment(
    envConfig: EnvProfile,
    vpc: Vpc,
    selectedAzs: seq<string>,
    subnets: seq<Subnet>,
    gateway: InternetGateway,
    routeTable: RouteTable,
    associations: seq<RouteTableAssociation>,
    rules: seq<SecurityRule>,
    securityGroup: SecurityGroup,
    instances: seq<Instance>,
    loadBalancing: Option<LoadBalancing>,
    stats: Stats,
    report: Report,
    instanceDetails: seq<InstanceDetail>,
    comparison: map<string, EnvProfile>)

  /** One subnet per zone, the gateway, the route table and one association per subnet. */
  predicate NetworkDeployed(d: Deployment, environment: string, azs: seq<string>) {
    NetworkPlanned(azs, environment, d.subnets, d.gateway, d.routeTable, d.associations)
  }

  /** One subnet and one association per zone, with the gateway and route table, as `PlanNetwork` declares them. */
  predicate NetworkPlanned(azs: seq<string>, environment: string, subnets: seq<Subnet>, gateway: InternetGateway,
                           routeTable: RouteTable, associations: seq<RouteTableAssociation>) {
    && |subnets| == |azs| == |associations|
    && (forall i :: 0 <= i < |azs| ==> subnets[i] == SubnetDecl(i, azs[i], environment))
    && gateway == GatewayDecl(environment) && routeTable == RouteTableDecl(environment)
    && (forall i :: 0 <= i < |azs| ==> associations[i] == AssociationFor(i, subnets[i], Ref(routeTable.resourceName)))
  }

  /** The rule list and the group built from it. */
  predicate SecurityDeployed(d: Deployment, s: Settings, profile: EnvProfile) {
    && d.rules == SecurityRules(profile.allowedCidr, s.enableMonitoring, s.instanceCount)
    && d.securityGroup == SecurityGroupDecl(s.environment, d.rules, s.enableMonitoring)
  }

  /** The instances, placed round-robin on the subnets and their zones. */
  predicate InstancesDeployed(d: Deployment, s: Settings, profile: EnvProfile) {
    && |d.instances| == (if s.instanceCount > 0 then s.instanceCount else 0)
    && (d.instances != [] ==> |d.subnets| > 0)
    && |d.selectedAzs| == |d.subnets|
    && (forall i :: 0 <= i < |d.instances| ==>
          d.instances[i] == InstanceDecl(i, d.subnets[i % |d.subnets|], d.selectedAzs[i % |d.subnets|], s.environment,
                                         profile, s.enableMonitoring))
  }

  /** The load balancer past one instance, with every instance registered in order. */
  predicate LoadBalancingDeployed(d: Deployment, s: Settings) {
    && (d.loadBalancing.Some? <==> s.instanceCount > 1)
    && (d.loadBalancing.Some? ==>
          && d.loadBalancing.value.subnets == SubnetRefs(d.subnets)
          && |d.loadBalancing.value.attachments| == |d.instances| == d.loadBalancing.value.targetCount
          && forall i :: 0 <= i < |d.instances| ==> d.loadBalancing.value.attachments[i] == AttachmentFor(i, d.instances[i]))
  }

  /** The summary statistics, the per-instance export and the environment comparison. */
  predicate SummaryDeployed(d: Deployment, s: Settings, profile: EnvProfile) {
    && d.stats == Stats(s.instanceCount, |d.subnets|, |d.selectedAzs|, |d.instances| + 2 * |d.subnets| + 4, |d.rules|)
    && (d.instances != [] ==> |d.selectedAzs| > 0 && |d.subnets| > 0)
    && d.instanceDetails == InstanceDetails(d.instances, d.selectedAzs, |d.subnets|, profile, s.enableMonitoring)
    && d.comparison == EnvironmentComparison(s.costOptimization)
  }

  /** The configuration, estimated-costs and key-achievements blocks of the summary. */
  predicate ReportDeployed(d: Deployment, s: Settings, profile: EnvProfile) {
    d.report == ReportFor(d.report.metadata, s, profile, |d.selectedAzs|, |d.rules|)
  }

  /**
   * `d` is what the script declares and exports for settings `s` and profile
   * `profile`, once the VPC `vpc` exists and the zones `azs` are selected.
   */
  predicate DeployedInZones(d: Deployment, s: Settings, profile: EnvProfile, vpc: Vpc, azs: seq<string>) {
    && d.envConfig == profile && d.vpc == vpc && d.selectedAzs == azs
    && NetworkDeployed(d, s.environment, azs)
    && SecurityDeployed(d, s, profile)
    && InstancesDeployed(d, s, profile)
    && LoadBalancingDeployed(d, s)
    && SummaryDeployed(d, s, profile)
  }

  /**
   * The script run top to bottom with its helpers defined before their first
   * use. `azNames`, `region` and `account` are what the data sources return.
   */
  method Deploy(s: Settings, azNames: seq<string>, region: string, account: string, timestamp: string)
    returns (r: Result<Deployment, PyError>)
    ensures var profile := EnvironmentConfig(s.environment, s.costOptimization);
      r.Err? <==> azNames == [] && (!profile.multiAz || s.instanceCount > 0)
    ensures azNames != [] ==> r.Ok?
    ensures r.Err? ==> r.error == if azNames == [] && !EnvironmentConfig(s.environment, s.costOptimization).multiAz
                                  then IndexError else ZeroDivisionError
    ensures r.Ok? ==> SelectAzs(azNames, EnvironmentConfig(s.environment, s.costOptimization).multiAz) == Ok(r.value.selectedAzs)
    ensures r.Ok? ==> |r.value.selectedAzs| <= 3
    ensures r.Ok? ==> DeployedInZones(r.value, s, EnvironmentConfig(s.environment, s.costOptimization),
                                      VpcDecl(s, EnvironmentConfig(s.environment, s.costOptimization), region, account),
                                      r.value.selectedAzs)
    ensures r.Ok? ==> ReportDeployed(r.value, s, EnvironmentConfig(s.environment, s.costOptimization))
    ensures r.Ok? ==> r.value.report.metadata == MetadataFor(timestamp, s, region, account)
  {
    var profile := EnvironmentConfig(s.environment, s.costOptimization);
    var vpc := VpcDecl(s, profile, region, account);
    var selected := SelectAzs(azNames, profile.multiAz);
    if selected.Err? {
      return Err(selected.error);
    }
    var azs := selected.value;
    assert |azs| <= 3;
    var nRules := |SecurityRules(profile.allowedCidr, s.enableMonitoring, s.instanceCount)|;
    var report := ReportFor(MetadataFor(timestamp, s, region, account), s, profile, |azs|, nRules);
    r := DeployInZones(s, profile, vpc, azs, report);
    assert r.Ok? ==> r.value.selectedAzs == azs && r.value.report == report;
  }

  /** Everything after the zone selection: subnets, routing, the security group, instances and summaries. */
  method DeployInZones(s: Settings, profile: EnvProfile, vpc: Vpc, azs: seq<string>, report: Report)
    returns (r: Result<Deployment, PyError>)
    ensures r.Err? <==> azs == [] && s.instanceCount > 0
    ensures r.Err? ==> r.error == ZeroDivisionError
    ensures r.Ok? ==> DeployedInZones(r.value, s, profile, vpc, azs) && r.value.report == report
  {
    var subnets, gateway, routeTable, associations := PlanNetwork(azs, s.environment);
    var rules, sg := PlanSecurity(s, profile);
    r := DeployInstances(s, profile, vpc, azs, subnets, gateway, routeTable, associations, rules, sg, report);
  }

  /** The rest of `DeployInZones` once the network and the security group are declared. */
  method DeployInstances(s: Settings, profile: EnvProfile, vpc: Vpc, azs: seq<string>, subnets: seq<Subnet>,
                         gateway: InternetGateway, routeTable: RouteTable, associations: seq<RouteTableAssociation>,
                         rules: seq<SecurityRule>, sg: SecurityGroup, report: Report)
    returns (r: Result<Deployment, PyError>)
    requires NetworkPlanned(azs, s.environment, subnets, gateway, routeTable, associations)
    requires rules == SecurityRules(profile.allowedCidr, s.enableMonitoring, s.instanceCount)
    requires sg == SecurityGroupDecl(s.environment, rules, s.enableMonitoring)
    ensures r.Err? <==> azs == [] && s.instanceCount > 0
    ensures r.Err? ==> r.error == ZeroDivisionError
    ensures r.Ok? ==> DeployedInZones(r.value, s, profile, vpc, azs) && r.value.report == report
  {
    var placed := PlanInstances(s.instanceCount, subnets, azs, s.environment, profile, s.enableMonitoring);
    if placed.Err? {
      return Err(placed.error);
    }
    var instances := placed.value;
    var loadBalancing, stats, details := Summarise(s, azs, subnets, |associations|, |rules|, instances, profile);
    var d := Deployment(profile, vpc, azs, subnets, gateway, routeTable, associations, rules, sg, instances,
                        loadBalancing, stats, report, details,
                        EnvironmentComparison(s.costOptimization));
    r := Ok(d);
  }

  /** A subnet per selected zone, the gateway, the route table and one association per subnet. */
  method PlanNetwork(azs: seq<string>, environment: string)
    returns (subnets: seq<Subnet>, gateway: InternetGateway, routeTable: RouteTable,
             associations: seq<RouteTableAssociation>)
    ensures |subnets| == |azs| == |associations|
    ensures forall i :: 0 <= i < |azs| ==> subnets[i] == SubnetDecl(i, azs[i], environment)
    ensures gateway == GatewayDecl(environment) && routeTable == RouteTableDecl(environment)
    ensures forall i :: 0 <= i < |azs| ==> associations[i] == AssociationFor(i, subnets[i], Ref(routeTable.resourceName))
  {
    subnets := PlanSubnets(azs, environment);
    gateway := GatewayDecl(environment);
    routeTable := RouteTableDecl(environment);
    associations := PlanAssociations(subnets, Ref(routeTable.resourceName));
  }

  /** The rule list and the group built from it. */
  method PlanSecurity(s: Settings, profile: EnvProfile) returns (rules: seq<SecurityRule>, sg: SecurityGroup)
    ensures rules == SecurityRules(profile.allowedCidr, s.enableMonitoring, s.instanceCount)
    ensures sg == SecurityGroupDecl(s.environment, rules, s.enableMonitoring)
  {
    rules := BuildSecurityRules(profile.allowedCidr, s.enableMonitoring, s.instanceCount);
    sg := SecurityGroupDecl(s.environment, rules, s.enableMonitoring);
  }

  /** The load balancer (past one instance), the statistics and the per-instance export. */
  method Summarise(s: Settings, azs: seq<string>, subnets: seq<Subnet>, nAssociations: nat, nRules: nat,
                   instances: seq<Instance>, profile: EnvProfile)
    returns (loadBalancing: Option<LoadBalancing>, stats: Stats, details: seq<InstanceDetail>)
    requires instances != [] ==> |azs| > 0 && |subnets| > 0
    ensures loadBalancing.Some? <==> s.instanceCount > 1
    ensures loadBalancing.Some? ==> loadBalancing.value.subnets == SubnetRefs(subnets)
    ensures loadBalancing.Some? ==> |loadBalancing.value.attachments| == |instances| == loadBalancing.value.targetCount
    ensures loadBalancing.Some? ==> forall i :: 0 <= i < |instances| ==>
      loadBalancing.value.attachments[i] == AttachmentFor(i, instances[i])
    ensures stats == Stats(s.instanceCount, |subnets|, |azs|, |instances| + |subnets| + nAssociations + 4, nRules)
    ensures details == InstanceDetails(instances, azs, |subnets|, profile, s.enableMonitoring)
  {
    loadBalancing := None;
    if s.instanceCount > 1 {
      var attachments := PlanTargetAttachments(instances);
      loadBalancing := Some(LoadBalancing(SubnetRefs(subnets), attachments, |attachments|));
    }
    stats := Stats(s.instanceCount, |subnets|, |azs|, |instances| + |subnets| + nAssociations + 4, nRules);
    details := InstanceDetails(instances, azs, |subnets|, profile, s.enableMonitoring);
  }

  /**
   * The summary's blocks agree with what was deployed: the configuration block
   * holds the profile in use, the estimated costs name the type every instance
   * runs, and the key achievements quote the summary's own statistics.
   */
  lemma SummaryAgreesWithDeployment(d: Deployment, s: Settings, profile: EnvProfile, vpc: Vpc, azs: seq<string>)
    requires DeployedInZones(d, s, profile, vpc, azs) && ReportDeployed(d, s, profile)
    ensures d.report.configuration.environmentConfig == d.envConfig && d.report.configuration.multiAzDeployment == d.envConfig.multiAz
    ensures d.report.estimatedCosts.costOptimized == d.envConfig.costOptimized
    ensures forall i :: 0 <= i < |d.instances| ==> d.instances[i].instanceType == d.report.estimatedCosts.instanceType
    ensures d.report.keyAchievements[0] == "Deployed " + IntToString(d.stats.totalInstances) + " instances across "
                                    + NatToString(d.stats.totalAvailabilityZones) + " availability zones"
    ensures d.report.keyAchievements[2] == "Created " + NatToString(d.stats.securityGroupRules) + " dynamic security group rules"
  {
    assert InstancesDeployed(d, s, profile) && SummaryDeployed(d, s, profile);
  }

  /**
   * The export's zone and subnet block of instance i are those of the subnet
   * the instance was placed on.
   */
  lemma DetailsMatchPlacement(instances: seq<Instance>, azs: seq<string>, subnets: seq<Subnet>,
                              environment: string, profile: EnvProfile, enableMonitoring: bool, i: nat)
    requires |azs| == |subnets| > 0 && i < |instances|
    requires forall k :: 0 <= k < |subnets| ==> subnets[k] == SubnetDecl(k, azs[k], environment)
    requires forall k :: 0 <= k < |instances| ==>
      instances[k] == InstanceDecl(k, subnets[k % |subnets|], azs[k % |subnets|], environment, profile, enableMonitoring)
    ensures var d := InstanceDetails(instances, azs, |subnets|, profile, enableMonitoring)[i];
      var placedOn := subnets[i % |subnets|];
      && instances[i].subnet == Ref(placedOn.resourceName)
      && d.availabilityZone == placedOn.availabilityZone
      && HasTag(instances[i].tags, "AZ", d.availabilityZone)
      && d.subnetCidr == placedOn.cidrBlock
  {
    var k := i % |subnets|;
    assert subnets[k] == SubnetDecl(k, azs[k], environment);
    assert instances[i] == InstanceDecl(i, subnets[k], azs[k], environment, profile, enableMonitoring);
  }

  /**
   * The script exactly as written: `generate_advanced_user_data` and
   * `calculate_monthly_cost` are defined below their first use, so the run
   * stops with a NameError at the first instance, or at the cost estimate
   * when no instance is requested. Earlier failures come first.
   */
  function RunAsWritten(s: Settings, azNames: seq<string>): (r: Result<Deployment, PyError>)
    ensures r.Err?
  {
    var profile := EnvironmentConfig(s.environment, s.costOptimization);
    var selected := SelectAzs(azNames, profile.multiAz);
    if selected.Err? then Err(selected.error)
    else if s.instanceCount > 0 && selected.value == [] then Err(ZeroDivisionError)
    else if s.instanceCount > 0 then Err(NameError("generate_advanced_user_data"))
    else Err(NameError("calculate_monthly_cost"))
  }

  /** With at least one zone available the written script always dies of a NameError. */
  lemma AsWrittenFailsWithNameError(s: Settings, azNames: seq<string>)
    requires azNames != []
    ensures RunAsWritten(s, azNames).Err? && RunAsWritten(s, azNames).error.NameError?
  {
  }
}
