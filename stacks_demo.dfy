/**
 * The stacks demo: one program text, three stack profiles. The stack name
 * picks a profile (unknown stacks fall back to the dev profile), every
 * resource is named and tagged after the stack, and the instance loop
 * declares as many servers as the profile asks for.
 */
module StacksDemo {
  import opened Wrappers
  import opened PyText
  import opened Resources

  // ---------------------------------------------------------------------------
  // Stack profiles
  // ---------------------------------------------------------------------------

  datatype StackConfig = StackConfig(
    instanceType: string,
    instanceCount: int,
    environment: string,
    enableMonitoring: bool)

  const DevConfig := StackConfig("t2.micro", 1, "development", false)
  const StagingConfig := StackConfig("t3.small", 2, "staging", true)
  const ProdConfig := StackConfig("t3.medium", 3, "production", true)

  /** The `stack_configs` table. */
  function StackConfigs(): (t: map<string, StackConfig>)
    ensures t.Keys == {"dev", "staging", "prod"}
    ensures forall k :: k in t ==> 1 <= t[k].instanceCount <= 3 && (t[k].enableMonitoring <==> t[k].environment != "development")
    ensures t["dev"] == StackConfig("t2.micro", 1, "development", false)
    ensures t["staging"] == StackConfig("t3.small", 2, "staging", true)
    ensures t["prod"] == StackConfig("t3.medium", 3, "production", true)
  {
    map["dev" := DevConfig, "staging" := StagingConfig, "prod" := ProdConfig]
  }

  /** `stack_configs.get(stack, stack_configs["dev"])`. */
  function ConfigFor(stack: string): (c: StackConfig)
    ensures stack in StackConfigs() ==> c == StackConfigs()[stack]
    ensures stack !in StackConfigs() ==> c == DevConfig
  {
    if stack in StackConfigs() then StackConfigs()[stack] else DevConfig
  }

  /** Only the three named stacks have a profile of their own; every other name deploys as dev. */
  lemma UnknownStackDeploysAsDev(stack: string)
    requires stack != "dev" && stack != "staging" && stack != "prod"
    ensures ConfigFor(stack) == ConfigFor("dev")
  {
  }

  /** Larger stacks get more servers, and monitoring is off exactly in the dev profile. */
  lemma ProfilesScaleWithStack(stack: string)
    ensures 1 <= ConfigFor(stack).instanceCount <= 3
    ensures ConfigFor("dev").instanceCount < ConfigFor("staging").instanceCount < ConfigFor("prod").instanceCount
    ensures ConfigFor(stack).enableMonitoring <==> ConfigFor(stack).environment != "development"
  {
  }

  // ---------------------------------------------------------------------------
  // Network and security group
  // ---------------------------------------------------------------------------

  /** `{stack}-<suffix>`: the naming scheme of every resource of the stack. */
  function Named(stack: string, suffix: string): (name: string)
    ensures name == stack + "-" + suffix
    ensures |name| == |stack| + 1 + |suffix| && name[..|stack|] == stack
  {
    stack + "-" + suffix
  }

  function VpcDecl(stack: string, config: StackConfig): (v: Vpc)
    ensures v.resourceName == Named(stack, "vpc") && v.cidrBlock == "10.0.0.0/16"
    ensures HasTag(v.tags, "Name", v.resourceName) && HasTag(v.tags, "Stack", stack)
    ensures HasTag(v.tags, "Environment", config.environment) && HasTag(v.tags, "ManagedBy", "Pulumi-Stacks-Demo")
  {
    Vpc(Named(stack, "vpc"), "10.0.0.0/16",
      map["Name" := Named(stack, "vpc"), "Environment" := config.environment, "Stack" := stack,
          "ManagedBy" := "Pulumi-Stacks-Demo"])
  }

  function GatewayDecl(stack: string): (g: InternetGateway)
    ensures g.resourceName == Named(stack, "igw") && g.vpc == Ref(Named(stack, "vpc"))
    ensures HasTag(g.tags, "Name", g.resourceName) && HasTag(g.tags, "Stack", stack)
  {
    InternetGateway(Named(stack, "igw"), Ref(Named(stack, "vpc")),
      map["Name" := Named(stack, "igw"), "Stack" := stack])
  }

  /** The one subnet, in the first zone the region reports; no zone at all raises IndexError. */
  function SubnetDecl(stack: string, azNames: seq<string>): (r: Result<Subnet, PyError>)
    ensures r.Err? <==> azNames == []
    ensures r.Err? ==> r.error == IndexError
    ensures r.Ok? ==> r.value.resourceName == Named(stack, "subnet") && r.value.vpc == Ref(Named(stack, "vpc"))
    ensures r.Ok? ==> r.value.cidrBlock == "10.0.1.0/24" && r.value.availabilityZone == azNames[0]
    ensures r.Ok? ==> r.value.mapPublicIp
    ensures r.Ok? ==> HasTag(r.value.tags, "Name", r.value.resourceName) && HasTag(r.value.tags, "Stack", stack)
  {
    if azNames == [] then Err(IndexError)
    else Ok(Subnet(Named(stack, "subnet"), Ref(Named(stack, "vpc")), "10.0.1.0/24", azNames[0], true,
              map["Name" := Named(stack, "subnet"), "Stack" := stack]))
  }

  /** The route table: the default route through the stack's gateway. */
  function RouteTableDecl(stack: string): (rt: RouteTable)
    ensures rt.resourceName == Named(stack, "rt") && rt.vpc == Ref(Named(stack, "vpc"))
    ensures rt.routes == [Route(AnyIpv4, Ref(Named(stack, "igw")))]
    ensures HasTag(rt.tags, "Name", rt.resourceName) && HasTag(rt.tags, "Stack", stack)
  {
    RouteTable(Named(stack, "rt"), Ref(Named(stack, "vpc")), [Route(AnyIpv4, Ref(Named(stack, "igw")))],
      map["Name" := Named(stack, "rt"), "Stack" := stack])
  }

  function AssociationDecl(stack: string): (a: RouteTableAssociation)
    ensures a.resourceName == Named(stack, "rt-assoc")
    ensures a.subnet == Ref(Named(stack, "subnet")) && a.routeTable == Ref(Named(stack, "rt"))
  {
    RouteTableAssociation(Named(stack, "rt-assoc"), Ref(Named(stack, "subnet")), Ref(Named(stack, "rt")))
  }

  /** The same two open ports, HTTP then SSH, on every stack; only names and tags differ. */
  function SecurityGroupDecl(stack: string): (sg: SecurityGroup)
    ensures sg.resourceName == Named(stack, "sg") && sg.name.None? && sg.vpc == Some(Ref(Named(stack, "vpc")))
    ensures sg.description == "Security group for " + stack + " environment"
    ensures Ports(sg.ingress) == [80, 22]
    ensures forall k :: 0 <= k < |sg.ingress| ==> sg.ingress[k] == TcpRule(sg.ingress[k].fromPort, [AnyIpv4], None)
    ensures sg.egress == []
    ensures HasTag(sg.tags, "Name", sg.resourceName) && HasTag(sg.tags, "Stack", stack)
  {
    SecurityGroup(Named(stack, "sg"), None, "Security group for " + stack + " environment",
      Some(Ref(Named(stack, "vpc"))),
      [TcpRule(80, [AnyIpv4], None), TcpRule(22, [AnyIpv4], None)], [],
      map["Name" := Named(stack, "sg"), "Stack" := stack])
  }

  // ---------------------------------------------------------------------------
  // Instances
  // ---------------------------------------------------------------------------

  /** Instance i (from 0) of the loop; its name and InstanceNumber tag count from 1. */
  function InstanceDecl(stack: string, config: StackConfig, i: nat): (inst: Instance)
    ensures inst.resourceName == Named(stack, "instance-" + NatToString(i + 1))
    ensures inst.instanceType == config.instanceType && inst.subnet == Ref(Named(stack, "subnet"))
    ensures inst.securityGroups == [Ref(Named(stack, "sg"))] && inst.keyName.None? && inst.monitoring.None?
    ensures HasTag(inst.tags, "Name", inst.resourceName) && HasTag(inst.tags, "Stack", stack)
    ensures HasTag(inst.tags, "Environment", config.environment)
    ensures HasTag(inst.tags, "InstanceNumber", NatToString(i + 1))
  {
    var name := Named(stack, "instance-" + NatToString(i + 1));
    Instance(name, config.instanceType, Ref(Named(stack, "subnet")), [Ref(Named(stack, "sg"))], None, None,
      map["Name" := name, "Environment" := config.environment, "Stack" := stack,
          "InstanceNumber" := NatToString(i + 1)])
  }

  /** `for i in range(instance_count)`: one instance per iteration, appended in order. */
  method PlanInstances(stack: string, config: StackConfig) returns (instances: seq<Instance>)
    ensures |instances| == if config.instanceCount > 0 then config.instanceCount else 0
    ensures forall i :: 0 <= i < |instances| ==> instances[i] == InstanceDecl(stack, config, i)
  {
    instances := [];
    var i := 0;
    while i < config.instanceCount
      invariant 0 <= i <= (if config.instanceCount > 0 then config.instanceCount else 0)
      invariant |instances| == i
      invariant forall k :: 0 <= k < i ==> instances[k] == InstanceDecl(stack, config, k)
    {
      instances := instances + [InstanceDecl(stack, config, i)];
      i := i + 1;
    }
  }

  /** Distinct loop positions give distinct instance names. */
  lemma InstanceNamesDistinct(stack: string, config: StackConfig, i: nat, j: nat)
    requires i != j
    ensures InstanceDecl(stack, config, i).resourceName != InstanceDecl(stack, config, j).resourceName
  {
    OrdinalNamesDistinct(stack + "-instance-", i + 1, j + 1);
    assert Named(stack, "instance-" + NatToString(i + 1)) == (stack + "-instance-") + NatToString(i + 1);
    assert Named(stack, "instance-" + NatToString(j + 1)) == (stack + "-instance-") + NatToString(j + 1);
  }

  /** No instance shares its logical name with one of the stack's network resources. */
  lemma InstanceNamesAvoidNetwork(stack: string, config: StackConfig, i: nat, suffix: string)
    requires suffix in ["vpc", "igw", "subnet", "rt", "rt-assoc", "sg"]
    ensures InstanceDecl(stack, config, i).resourceName != Named(stack, suffix)
  {
    var p := stack + "-";
    var name := InstanceDecl(stack, config, i).resourceName;
    assert name == p + ("instance-" + NatToString(i + 1));
    assert name[|p| + 1] == 'n';
    assert |suffix| >= 2 && suffix[1] != 'n';
    assert Named(stack, suffix) == p + suffix;
  }

  // ---------------------------------------------------------------------------
  // Exports
  // ---------------------------------------------------------------------------

  /** One deferred URL per instance, in instance order. */
  function InstanceUrls(instances: seq<Instance>): (urls: seq<Output>)
    ensures |urls| == |instances|
    ensures forall i :: 0 <= i < |instances| ==> urls[i] == PublicIpText(instances[i], "http://", "")
  {
    seq(|instances|, i requires 0 <= i < |instances| => PublicIpText(instances[i], "http://", ""))
  }

  /** One deferred SSH command per instance, in instance order. */
  function SshCommands(instances: seq<Instance>): (commands: seq<Output>)
    ensures |commands| == |instances|
    ensures forall i :: 0 <= i < |instances| ==>
      commands[i] == PublicIpText(instances[i], "ssh -i your-key.pem ec2-user@", "")
  {
    seq(|instances|, i requires 0 <= i < |instances| =>
      PublicIpText(instances[i], "ssh -i your-key.pem ec2-user@", ""))
  }

  function LaterAll(outputs: seq<Output>): (values: seq<Value>)
    ensures |values| == |outputs|
    ensures forall i :: 0 <= i < |outputs| ==> values[i] == Later(outputs[i])
  {
    seq(|outputs|, i requires 0 <= i < |outputs| => Later(outputs[i]))
  }

  /** The stack outputs. */
  function Exports(stack: string, config: StackConfig, instances: seq<Instance>): (m: map<string, Value>)
    ensures m.Keys == {"stack_name", "environment", "instance_count", "instance_type", "instance_urls", "ssh_commands"}
    ensures m["stack_name"] == Str(stack) && m["environment"] == Str(config.environment)
    ensures m["instance_count"] == Int(config.instanceCount) && m["instance_type"] == Str(config.instanceType)
    ensures m["instance_urls"] == List(LaterAll(InstanceUrls(instances)))
    ensures m["ssh_commands"] == List(LaterAll(SshCommands(instances)))
  {
    map[
      "stack_name" := Str(stack),
      "environment" := Str(config.environment),
      "instance_count" := Int(config.instanceCount),
      "instance_type" := Str(config.instanceType),
      "instance_urls" := List(LaterAll(InstanceUrls(instances))),
      "ssh_commands" := List(LaterAll(SshCommands(instances)))]
  }

  // ---------------------------------------------------------------------------
  // The whole program
  // ---------------------------------------------------------------------------

  datatype StackDeployment = StackDeployment(
    config: StackConfig,
    vpc: Vpc,
    gateway: InternetGateway,
    subnet: Subnet,
    routeTable: RouteTable,
    association: RouteTableAssociation,
    securityGroup: SecurityGroup,
    instances: seq<Instance>,
    exports: map<string, Value>)

  /**
   * The program for stack `stack`; `azNames` is what the zone lookup returns.
   * With no zone the subnet's `names[0]` raises and nothing after it happens.
   */
  method Deploy(stack: string, azNames: seq<string>) returns (r: Result<StackDeployment, PyError>)
    ensures r.Err? <==> azNames == []
    ensures r.Err? ==> r.error == IndexError
    ensures r.Ok? ==> r.value.config == ConfigFor(stack)
    ensures r.Ok? ==> r.value.vpc == VpcDecl(stack, ConfigFor(stack)) && r.value.gateway == GatewayDecl(stack)
    ensures r.Ok? ==> r.value.subnet == SubnetDecl(stack, azNames).value
    ensures r.Ok? ==> r.value.subnet.availabilityZone == azNames[0]
    ensures r.Ok? ==> r.value.routeTable == RouteTableDecl(stack) && r.value.association == AssociationDecl(stack)
    ensures r.Ok? ==> r.value.securityGroup == SecurityGroupDecl(stack)
    ensures r.Ok? ==> |r.value.instances| == ConfigFor(stack).instanceCount
    ensures r.Ok? ==> forall i :: 0 <= i < |r.value.instances| ==>
      r.value.instances[i] == InstanceDecl(stack, ConfigFor(stack), i)
    ensures r.Ok? ==> r.value.exports == Exports(stack, ConfigFor(stack), r.value.instances)
  {
    var config := ConfigFor(stack);
    var vpc := VpcDecl(stack, config);
    var gateway := GatewayDecl(stack);
    var subnet := SubnetDecl(stack, azNames);
    if subnet.Err? {
      return Err(subnet.error);
    }
    var routeTable := RouteTableDecl(stack);
    var association := AssociationDecl(stack);
    var sg := SecurityGroupDecl(stack);
    ProfilesScaleWithStack(stack);
    var instances := PlanInstances(stack, config);
    r := Ok(StackDeployment(config, vpc, gateway, subnet.value, routeTable, association, sg, instances,
                            Exports(stack, config, instances)));
  }

  /** Every resource the stack declares carries the stack's name in its Stack tag. */
  lemma EveryResourceTaggedWithStack(stack: string, azNames: seq<string>, i: nat)
    requires azNames != []
    ensures HasTag(VpcDecl(stack, ConfigFor(stack)).tags, "Stack", stack)
    ensures HasTag(GatewayDecl(stack).tags, "Stack", stack)
    ensures HasTag(SubnetDecl(stack, azNames).value.tags, "Stack", stack)
    ensures HasTag(RouteTableDecl(stack).tags, "Stack", stack)
    ensures HasTag(SecurityGroupDecl(stack).tags, "Stack", stack)
    ensures HasTag(InstanceDecl(stack, ConfigFor(stack), i).tags, "Stack", stack)
  {
  }

  /** Two stacks with different names never declare the same kind of resource under the same name. */
  lemma StacksDoNotShareNames(a: string, b: string, suffix: string)
    requires a != b
    ensures Named(a, suffix) != Named(b, suffix)
  {
    var na, nb := Named(a, suffix), Named(b, suffix);
    if |a| == |b| {
      assert na[..|a|] != nb[..|b|];
    } else {
      assert |na| != |nb|;
    }
  }
}
