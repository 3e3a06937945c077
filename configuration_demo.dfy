/**
 * The configuration demo: required and optional configuration keys with
 * their defaults, two secrets, three environment variables, validation of
 * the count and the environment, and infrastructure whose names, rules and
 * instance count come from the resolved configuration. The secrets reach only
 * the instances' user data, never a resource name, a tag or an export.
 */
module ConfigurationDemo {
  import opened Wrappers
  import opened PyText
  import opened Resources

  // ---------------------------------------------------------------------------
  // Reading configuration, secrets and environment variables
  // ---------------------------------------------------------------------------

  /** The stack configuration as stored; None is an unset key. */
  datatype ConfigStore = ConfigStore(
    appName: Option<string>,
    instanceCount: Option<int>,
    enableHttps: Option<bool>,
    allowedCidrs: Option<string>,
    dbPassword: Option<string>,
    apiKey: Option<string>)

  /** The process environment; None is an unset variable. */
  datatype EnvVars = EnvVars(environment: Option<string>, awsRegion: Option<string>, deploymentMode: Option<string>)

  datatype Settings = Settings(
    appName: string,
    instanceCount: int,
    enableHttps: bool,
    cidrList: seq<string>,
    dbPassword: string,
    apiKey: string,
    environment: string,
    awsRegion: string,
    deploymentMode: string)

  /** The `allowed_cidrs` default as written, and the list it parses to (`DefaultCidrsParse`). */
  const DefaultCidrs: string := "10.0.0.0/8,172.16.0.0/12"
  const DefaultCidrList: seq<string> := ["10.0.0.0/8", "172.16.0.0/12"]

  /** `[cidr.strip() for cidr in allowed.split(",")]`. */
  function ParseCidrs(allowed: string): (cidrs: seq<string>)
    ensures |cidrs| == |Split(allowed, ',')| >= 1
    ensures forall i :: 0 <= i < |cidrs| ==> cidrs[i] == Strip(Split(allowed, ',')[i])
  {
    var pieces := Split(allowed, ',');
    seq(|pieces|, i requires 0 <= i < |pieces| => Strip(pieces[i]))
  }

  /** A comma-joined list of comma-free entries without blank ends parses back to the list. */
  lemma ParseCidrsOfJoin(cidrs: seq<string>)
    requires |cidrs| >= 1
    requires forall i :: 0 <= i < |cidrs| ==> ',' !in cidrs[i]
    requires forall i :: 0 <= i < |cidrs| ==> Trimmed(cidrs[i])
    ensures ParseCidrs(Join(cidrs, ',')) == cidrs
  {
    SplitJoin(cidrs, ',');
    var parsed := ParseCidrs(Join(cidrs, ','));
    forall i | 0 <= i < |cidrs|
      ensures parsed[i] == cidrs[i]
    {
      StripUnchanged(cidrs[i]);
    }
  }

  /** Blanks around the commas do not change the parsed list. */
  lemma ParseCidrsIgnoresPadding(cidrs: seq<string>, padded: seq<string>)
    requires |padded| == |cidrs| >= 1
    requires forall i :: 0 <= i < |cidrs| ==> ',' !in padded[i] && Strip(padded[i]) == cidrs[i]
    ensures ParseCidrs(Join(padded, ',')) == cidrs
  {
    SplitJoin(padded, ',');
    var parsed := ParseCidrs(Join(padded, ','));
    assert forall i :: 0 <= i < |cidrs| ==> parsed[i] == Strip(padded[i]);
  }

  /** The default setting parses to the two private ranges. */
  lemma DefaultCidrsParse()
    ensures ParseCidrs(DefaultCidrs) == DefaultCidrList
  {
    assert Join(DefaultCidrList, ',') == DefaultCidrs;
    ParseCidrsOfJoin(DefaultCidrList);
  }

  /**
   * Every read with its fallback: `require` on a missing app name falls back
   * to "DefaultApp", `get_int`/`get_bool`/`get` and `os.environ.get` use
   * their defaults only for unset keys.
   */
  function Resolve(store: ConfigStore, env: EnvVars): (s: Settings)
    ensures s.appName == if store.appName.Some? then store.appName.value else "DefaultApp"
    ensures s.instanceCount == if store.instanceCount.Some? then store.instanceCount.value else 1
    ensures s.enableHttps == (store.enableHttps == Some(true))
    ensures store.allowedCidrs.Some? ==> s.cidrList == ParseCidrs(store.allowedCidrs.value)
    ensures store.allowedCidrs.None? ==> s.cidrList == DefaultCidrList
    ensures s.dbPassword == if store.dbPassword.Some? then store.dbPassword.value else "default-insecure-password"
    ensures s.apiKey == if store.apiKey.Some? then store.apiKey.value else "default-api-key"
    ensures s.environment == if env.environment.Some? then env.environment.value else "development"
    ensures s.awsRegion == if env.awsRegion.Some? then env.awsRegion.value else "us-east-1"
    ensures s.deploymentMode == if env.deploymentMode.Some? then env.deploymentMode.value else "standard"
  {
    // The default string is not re-parsed here: DefaultCidrsParse shows it parses to DefaultCidrList.
    var cidrs := if store.allowedCidrs.Some? then ParseCidrs(store.allowedCidrs.value) else DefaultCidrList;
    Settings(
      store.appName.GetOr("DefaultApp"),
      store.instanceCount.GetOr(1),
      store.enableHttps.GetOr(false),
      cidrs,
      store.dbPassword.GetOr("default-insecure-password"),
      store.apiKey.GetOr("default-api-key"),
      env.environment.GetOr("development"),
      env.awsRegion.GetOr("us-east-1"),
      env.deploymentMode.GetOr("standard"))
  }

  /** With nothing set, the program uses one instance, no HTTPS and the two default ranges. */
  lemma EmptyConfigurationDefaults()
    ensures var s := Resolve(ConfigStore(None, None, None, None, None, None), EnvVars(None, None, None));
      && s.appName == "DefaultApp" && s.instanceCount == 1 && !s.enableHttps
      && s.cidrList == ["10.0.0.0/8", "172.16.0.0/12"] && s.environment == "development"
  {
  }

  // ---------------------------------------------------------------------------
  // Validation
  // ---------------------------------------------------------------------------

  const ValidEnvironments: seq<string> := ["development", "staging", "production", "demo"]

  /** The count is checked first, then the environment; the first failure raises ValueError. */
  function Validate(s: Settings): (r: Result<Settings, PyError>)
    ensures r.Ok? <==> 1 <= s.instanceCount <= 10 && s.environment in ValidEnvironments
    ensures r.Ok? ==> r.value == s
    ensures !(1 <= s.instanceCount <= 10) ==>
      r == Err(ValueError("instance_count must be between 1 and 10, got " + IntToString(s.instanceCount)))
    ensures 1 <= s.instanceCount <= 10 && s.environment !in ValidEnvironments ==>
      r == Err(ValueError("Environment must be one of ['development', 'staging', 'production', 'demo'], got "
                          + s.environment))
  {
    if s.instanceCount < 1 || s.instanceCount > 10 then
      Err(ValueError("instance_count must be between 1 and 10, got " + IntToString(s.instanceCount)))
    else if s.environment !in ValidEnvironments then
      Err(ValueError("Environment must be one of ['development', 'staging', 'production', 'demo'], got "
                     + s.environment))
    else
      Ok(s)
  }

  /** With everything unset the configuration passes validation. */
  lemma DefaultsAreValid()
    ensures Validate(Resolve(ConfigStore(None, None, None, None, None, None), EnvVars(None, None, None))).Ok?
  {
  }

  // ---------------------------------------------------------------------------
  // Network
  // ---------------------------------------------------------------------------

  /** `{app_name}-{environment}-<suffix>`: the name of every resource. */
  function Named(s: Settings, suffix: string): (name: string)
    ensures name == s.appName + "-" + s.environment + "-" + suffix
  {
    s.appName + "-" + s.environment + "-" + suffix
  }

  /** The Name, Application and Environment tags every tagged resource carries. */
  function BaseTags(s: Settings, name: string): (tags: Tags)
    ensures HasTag(tags, "Name", name) && HasTag(tags, "Application", s.appName)
    ensures HasTag(tags, "Environment", s.environment)
  {
    map["Name" := name, "Application" := s.appName, "Environment" := s.environment]
  }

  function VpcDecl(s: Settings): (v: Vpc)
    ensures v.resourceName == Named(s, "vpc") && v.cidrBlock == "10.0.0.0/16"
    ensures v.tags == BaseTags(s, v.resourceName)["ManagedBy" := "Pulumi-Config-Demo"]
  {
    Vpc(Named(s, "vpc"), "10.0.0.0/16", BaseTags(s, Named(s, "vpc"))["ManagedBy" := "Pulumi-Config-Demo"])
  }

  function GatewayDecl(s: Settings): (g: InternetGateway)
    ensures g.resourceName == Named(s, "igw") && g.vpc == Ref(Named(s, "vpc"))
    ensures g.tags == BaseTags(s, g.resourceName)
  {
    InternetGateway(Named(s, "igw"), Ref(Named(s, "vpc")), BaseTags(s, Named(s, "igw")))
  }

  /** The subnet in the first zone of the region; an empty zone list raises IndexError. */
  function SubnetDecl(s: Settings, azNames: seq<string>): (r: Result<Subnet, PyError>)
    ensures r.Err? <==> azNames == []
    ensures r.Err? ==> r.error == IndexError
    ensures r.Ok? ==> r.value.resourceName == Named(s, "subnet") && r.value.vpc == Ref(Named(s, "vpc"))
    ensures r.Ok? ==> r.value.cidrBlock == "10.0.1.0/24" && r.value.availabilityZone == azNames[0]
    ensures r.Ok? ==> r.value.mapPublicIp && r.value.tags == BaseTags(s, r.value.resourceName)
  {
    if azNames == [] then Err(IndexError)
    else Ok(Subnet(Named(s, "subnet"), Ref(Named(s, "vpc")), "10.0.1.0/24", azNames[0], true,
              BaseTags(s, Named(s, "subnet"))))
  }

  function RouteTableDecl(s: Settings): (rt: RouteTable)
    ensures rt.resourceName == Named(s, "rt") && rt.vpc == Ref(Named(s, "vpc"))
    ensures rt.routes == [Route(AnyIpv4, Ref(Named(s, "igw")))]
    ensures rt.tags == BaseTags(s, rt.resourceName)
  {
    RouteTable(Named(s, "rt"), Ref(Named(s, "vpc")), [Route(AnyIpv4, Ref(Named(s, "igw")))], BaseTags(s, Named(s, "rt")))
  }

  function AssociationDecl(s: Settings): (a: RouteTableAssociation)
    ensures a.resourceName == Named(s, "rt-assoc")
    ensures a.subnet == Ref(Named(s, "subnet")) && a.routeTable == Ref(Named(s, "rt"))
  {
    RouteTableAssociation(Named(s, "rt-assoc"), Ref(Named(s, "subnet")), Ref(Named(s, "rt")))
  }

  // ---------------------------------------------------------------------------
  // Security group
  // ---------------------------------------------------------------------------

  /** The ingress list: SSH from the configured ranges, HTTP from anywhere, HTTPS from anywhere when enabled. */
  function IngressRules(cidrList: seq<string>, enableHttps: bool): (rules: seq<Rule>)
    ensures Ports(rules) == if enableHttps then [22, 80, 443] else [22, 80]
    ensures rules[0].cidrBlocks == cidrList
    ensures forall i :: 1 <= i < |rules| ==> rules[i].cidrBlocks == [AnyIpv4]
    ensures forall i :: 0 <= i < |rules| ==> rules[i] == TcpRule(Ports(rules)[i], rules[i].cidrBlocks, rules[i].description)
    ensures rules[0].description == Some("SSH") && rules[1].description == Some("HTTP")
    ensures enableHttps ==> rules[2].description == Some("HTTPS")
  {
    [TcpRule(22, cidrList, Some("SSH")), TcpRule(80, [AnyIpv4], Some("HTTP"))]
      + (if enableHttps then [TcpRule(443, [AnyIpv4], Some("HTTPS"))] else [])
  }

  /** `sg_ingress` built as the program builds it: SSH, then HTTP appended, then HTTPS when enabled. */
  method BuildIngress(cidrList: seq<string>, enableHttps: bool) returns (ingress: seq<Rule>)
    ensures ingress == IngressRules(cidrList, enableHttps)
  {
    ingress := [TcpRule(22, cidrList, Some("SSH"))];
    ingress := ingress + [TcpRule(80, [AnyIpv4], Some("HTTP"))];
    if enableHttps {
      ingress := ingress + [TcpRule(443, [AnyIpv4], Some("HTTPS"))];
    }
  }

  /**
   * SSH is the only port restricted to the configured ranges, HTTP is always
   * open, and port 443 is open exactly when HTTPS is enabled.
   */
  lemma IngressPolicy(cidrList: seq<string>, enableHttps: bool)
    ensures var ingress := IngressRules(cidrList, enableHttps);
      && Ports(ingress) == (if enableHttps then [22, 80, 443] else [22, 80])
      && ingress[0].cidrBlocks == cidrList
      && (forall k :: 1 <= k < |ingress| ==> ingress[k].cidrBlocks == [AnyIpv4])
      && (443 in Ports(ingress) <==> enableHttps)
  {
    var ingress := IngressRules(cidrList, enableHttps);
    assert Ports(ingress)[0] == 22 && Ports(ingress)[1] == 80;
    if enableHttps {
      assert Ports(ingress)[2] == 443;
    }
  }

  function SecurityGroupDecl(s: Settings, ingress: seq<Rule>): (sg: SecurityGroup)
    ensures sg.resourceName == Named(s, "sg") && sg.name == Some(Named(s, "sg"))
    ensures sg.description == "Security group for " + s.appName + " " + s.environment
    ensures sg.vpc == Some(Ref(Named(s, "vpc"))) && sg.ingress == ingress && sg.egress == [AllowAllEgress]
    ensures sg.tags == BaseTags(s, sg.resourceName)
  {
    SecurityGroup(Named(s, "sg"), Some(Named(s, "sg")), "Security group for " + s.appName + " " + s.environment,
      Some(Ref(Named(s, "vpc"))), ingress, [AllowAllEgress], BaseTags(s, Named(s, "sg")))
  }

  // ---------------------------------------------------------------------------
  // Instances
  // ---------------------------------------------------------------------------

  /** Instance i (from 0); the name and InstanceNumber count from 1. */
  function InstanceDecl(s: Settings, i: nat): (inst: Instance)
    ensures inst.resourceName == Named(s, "instance-" + NatToString(i + 1)) && inst.instanceType == "t2.micro"
    ensures inst.subnet == Ref(Named(s, "subnet")) && inst.securityGroups == [Ref(Named(s, "sg"))]
    ensures inst.keyName.None? && inst.monitoring.None?
    ensures inst.tags == BaseTags(s, inst.resourceName)["InstanceNumber" := NatToString(i + 1)]["ConfigDemo" := "true"]
  {
    var name := Named(s, "instance-" + NatToString(i + 1));
    Instance(name, "t2.micro", Ref(Named(s, "subnet")), [Ref(Named(s, "sg"))], None, None,
      BaseTags(s, name)["InstanceNumber" := NatToString(i + 1)]["ConfigDemo" := "true"])
  }

  /**
   * The user data of an instance: the script template filled in from both
   * secrets and from the plain settings it prints. Only the values the
   * template interpolates are kept; the fixed text around them is not.
   */
  datatype UserData = UserData(
    dbPassword: string,
    apiKey: string,
    appName: string,
    environment: string,
    instanceNumber: int,
    instanceCount: int,
    enableHttps: bool,
    allowedCidrs: seq<string>,
    awsRegion: string,
    deploymentMode: string)

  /** The template filled in for instance i (from 0), numbered i+1 as its page intends. */
  function UserDataFor(s: Settings, i: nat): (u: UserData)
    ensures u.dbPassword == s.dbPassword && u.apiKey == s.apiKey
    ensures u.instanceNumber == i + 1 && NatToString(i + 1) == InstanceDecl(s, i).tags["InstanceNumber"]
    ensures u.appName == s.appName && u.environment == s.environment && u.instanceCount == s.instanceCount
    ensures u.enableHttps == s.enableHttps && u.allowedCidrs == s.cidrList
    ensures u.awsRegion == s.awsRegion && u.deploymentMode == s.deploymentMode
  {
    UserData(s.dbPassword, s.apiKey, s.appName, s.environment, i + 1, s.instanceCount, s.enableHttps, s.cidrList,
             s.awsRegion, s.deploymentMode)
  }

  /**
   * The template as the program fills it in. The lambda passed to `apply`
   * runs only after the module body has finished, when the loop variable
   * `i` holds its last value, `instance_count - 1`; so every instance's page
   * gets the number `instance_count`, whatever its position.
   */
  function UserDataAsWritten(s: Settings, i: nat): (u: UserData)
    ensures u == UserDataFor(s, i).(instanceNumber := s.instanceCount)
  {
    UserData(s.dbPassword, s.apiKey, s.appName, s.environment, s.instanceCount, s.instanceCount, s.enableHttps,
             s.cidrList, s.awsRegion, s.deploymentMode)
  }

  /**
   * As written, with two or more instances every page is the same and the
   * first instance's page shows a number other than its InstanceNumber tag.
   */
  lemma AsWrittenUserDataMisnumbered(s: Settings)
    requires s.instanceCount >= 2
    ensures UserDataAsWritten(s, 0) == UserDataAsWritten(s, 1)
    ensures NatToString(UserDataAsWritten(s, 0).instanceNumber) != InstanceDecl(s, 0).tags["InstanceNumber"]
  {
    NatToStringInjective(s.instanceCount, 1);
  }

  /** The instance loop over `range(instance_count)`, each instance with its user data. */
  method PlanInstances(s: Settings) returns (instances: seq<Instance>, userData: seq<UserData>)
    ensures |instances| == |userData| == if s.instanceCount > 0 then s.instanceCount else 0
    ensures forall i :: 0 <= i < |instances| ==> instances[i] == InstanceDecl(s, i)
    ensures forall i :: 0 <= i < |userData| ==> userData[i] == UserDataFor(s, i)
  {
    instances, userData := [], [];
    var i := 0;
    while i < s.instanceCount
      invariant 0 <= i <= (if s.instanceCount > 0 then s.instanceCount else 0)
      invariant |instances| == |userData| == i
      invariant forall k :: 0 <= k < i ==> instances[k] == InstanceDecl(s, k)
      invariant forall k :: 0 <= k < i ==> userData[k] == UserDataFor(s, k)
    {
      userData := userData + [UserDataFor(s, i)];
      instances := instances + [InstanceDecl(s, i)];
      i := i + 1;
    }
  }

  // ---------------------------------------------------------------------------
  // Exports
  // ---------------------------------------------------------------------------

  function StrList(items: seq<string>): (values: seq<Value>)
    ensures |values| == |items|
    ensures forall i :: 0 <= i < |items| ==> values[i] == Str(items[i])
  {
    seq(|items|, i requires 0 <= i < |items| => Str(items[i]))
  }

  /** Attribute `attribute` of every instance, optionally wrapped as a URL, in instance order. */
  function InstanceOutputs(instances: seq<Instance>, attribute: string, prefix: string): (values: seq<Value>)
    ensures |values| == |instances|
    ensures forall i :: 0 <= i < |instances| ==>
      values[i] == Later(Output(Ref(instances[i].resourceName), attribute, prefix, ""))
  {
    seq(|instances|, i requires 0 <= i < |instances| =>
      Later(Output(Ref(instances[i].resourceName), attribute, prefix, "")))
  }

  /** The non-secret configuration that was used. */
  function ConfigurationUsed(s: Settings): (m: map<string, Value>)
    ensures m.Keys == {"app_name", "environment", "instance_count", "enable_https", "allowed_cidrs",
                       "aws_region", "deployment_mode"}
    ensures m["app_name"] == Str(s.appName) && m["environment"] == Str(s.environment)
    ensures m["instance_count"] == Int(s.instanceCount) && m["enable_https"] == Bool(s.enableHttps)
    ensures m["allowed_cidrs"] == List(StrList(s.cidrList))
    ensures m["aws_region"] == Str(s.awsRegion) && m["deployment_mode"] == Str(s.deploymentMode)
  {
    map[
      "app_name" := Str(s.appName),
      "environment" := Str(s.environment),
      "instance_count" := Int(s.instanceCount),
      "enable_https" := Bool(s.enableHttps),
      "allowed_cidrs" := List(StrList(s.cidrList)),
      "aws_region" := Str(s.awsRegion),
      "deployment_mode" := Str(s.deploymentMode)]
  }

  /** The secrets export says only that the secrets are set, never what they are. */
  const SecretsConfigured: map<string, Value> := map[
    "db_password_configured" := Bool(true),
    "api_key_configured" := Bool(true),
    "note" := Str("Secret values are encrypted and not shown in outputs")]

  const DemoCommands: map<string, Value> := map[
    "view_config" := Str("pulumi config"),
    "set_regular_config" := Str("pulumi config set app_name 'MyNewApp'"),
    "set_secret_config" := Str("pulumi config set --secret db_password 'new-secret'"),
    "remove_config" := Str("pulumi config rm app_name"),
    "copy_config" := Str("pulumi config cp <source-stack> <target-stack>")]

  function Exports(s: Settings, instances: seq<Instance>): (m: map<string, Value>)
    ensures m.Keys == {"demo_type", "configuration_used", "secrets_configured", "instances", "demo_commands"}
    ensures m["demo_type"] == Str("Configuration Demo")
    ensures m["configuration_used"] == Object(ConfigurationUsed(s))
    ensures m["secrets_configured"] == Object(SecretsConfigured)
    ensures m["instances"] == Object(map[
      "count" := Int(|instances|),
      "instance_ids" := List(InstanceOutputs(instances, "id", "")),
      "public_ips" := List(InstanceOutputs(instances, "public_ip", "")),
      "urls" := List(InstanceOutputs(instances, "public_ip", "http://"))])
    ensures m["demo_commands"] == Object(DemoCommands)
  {
    map[
      "demo_type" := Str("Configuration Demo"),
      "configuration_used" := Object(ConfigurationUsed(s)),
      "secrets_configured" := Object(SecretsConfigured),
      "instances" := Object(map[
        "count" := Int(|instances|),
        "instance_ids" := List(InstanceOutputs(instances, "id", "")),
        "public_ips" := List(InstanceOutputs(instances, "public_ip", "")),
        "urls" := List(InstanceOutputs(instances, "public_ip", "http://"))]),
      "demo_commands" := Object(DemoCommands)]
  }

  // ---------------------------------------------------------------------------
  // The whole program
  // ---------------------------------------------------------------------------

  datatype ConfigDeployment = ConfigDeployment(
    settings: Settings,
    vpc: Vpc,
    gateway: InternetGateway,
    subnet: Subnet,
    routeTable: RouteTable,
    association: RouteTableAssociation,
    securityGroup: SecurityGroup,
    instances: seq<Instance>,
    userData: seq<UserData>,  // userData[i] is the user data of instances[i]
    exports: map<string, Value>)

  /**
   * The program: resolve, validate (aborting with ValueError), then declare
   * the network, the security group and the instances. `azNames` is what the
   * zone lookup returns.
   */
  method Deploy(store: ConfigStore, env: EnvVars, azNames: seq<string>) returns (r: Result<ConfigDeployment, PyError>)
    ensures Validate(Resolve(store, env)).Err? ==> r == Err(Validate(Resolve(store, env)).error)
    ensures r.Ok? <==> Validate(Resolve(store, env)).Ok? && azNames != []
    ensures Validate(Resolve(store, env)).Ok? && azNames == [] ==> r == Err(IndexError)
    ensures r.Ok? ==> r.value.settings == Resolve(store, env)
    ensures r.Ok? ==> r.value.vpc == VpcDecl(r.value.settings) && r.value.gateway == GatewayDecl(r.value.settings)
    ensures r.Ok? ==> r.value.subnet == SubnetDecl(r.value.settings, azNames).value
    ensures r.Ok? ==> r.value.routeTable == RouteTableDecl(r.value.settings)
    ensures r.Ok? ==> r.value.association == AssociationDecl(r.value.settings)
    ensures r.Ok? ==>
      r.value.securityGroup == SecurityGroupDecl(r.value.settings, IngressRules(r.value.settings.cidrList, r.value.settings.enableHttps))
    ensures r.Ok? ==> 1 <= |r.value.instances| == |r.value.userData| == r.value.settings.instanceCount <= 10
    ensures r.Ok? ==> forall i :: 0 <= i < |r.value.instances| ==> r.value.instances[i] == InstanceDecl(r.value.settings, i)
    ensures r.Ok? ==> forall i :: 0 <= i < |r.value.userData| ==> r.value.userData[i] == UserDataFor(r.value.settings, i)
    ensures r.Ok? ==> r.value.exports == Exports(r.value.settings, r.value.instances)
  {
    var validated := Validate(Resolve(store, env));
    if validated.Err? {
      return Err(validated.error);
    }
    var s := validated.value;
    var vpc := VpcDecl(s);
    var gateway := GatewayDecl(s);
    var subnet := SubnetDecl(s, azNames);
    if subnet.Err? {
      return Err(subnet.error);
    }
    var routeTable := RouteTableDecl(s);
    var association := AssociationDecl(s);
    var ingress := BuildIngress(s.cidrList, s.enableHttps);
    var sg := SecurityGroupDecl(s, ingress);
    var instances, userData := PlanInstances(s);
    r := Ok(ConfigDeployment(s, vpc, gateway, subnet.value, routeTable, association, sg, instances, userData,
                             Exports(s, instances)));
  }

  /** `s` and `t` agree on everything except, possibly, the two secrets. */
  predicate SameButSecrets(s: Settings, t: Settings) {
    s.(dbPassword := t.dbPassword, apiKey := t.apiKey) == t
  }

  /** Settings that differ in their secrets at most agree on every other field. */
  lemma SameButSecretsFields(s: Settings, t: Settings)
    requires SameButSecrets(s, t)
    ensures s.appName == t.appName && s.environment == t.environment && s.instanceCount == t.instanceCount
    ensures s.enableHttps == t.enableHttps && s.cidrList == t.cidrList && s.awsRegion == t.awsRegion
    ensures s.deploymentMode == t.deploymentMode
  {
  }

  /** The secrets do not decide whether the settings validate. */
  lemma SecretsDoNotReachValidation(s: Settings, t: Settings)
    requires SameButSecrets(s, t)
    ensures Validate(s).Ok? == Validate(t).Ok?
  {
    SameButSecretsFields(s, t);
  }

  /**
   * The secrets reach no resource field except the user data: every network
   * resource, the group and each instance record are the same, and the user
   * data differs in the two secrets and nothing else.
   */
  lemma SecretsDoNotReachResources(s: Settings, t: Settings, azNames: seq<string>, i: nat, ingress: seq<Rule>)
    requires SameButSecrets(s, t)
    ensures VpcDecl(s) == VpcDecl(t) && GatewayDecl(s) == GatewayDecl(t) && SubnetDecl(s, azNames) == SubnetDecl(t, azNames)
    ensures RouteTableDecl(s) == RouteTableDecl(t) && AssociationDecl(s) == AssociationDecl(t)
    ensures SecurityGroupDecl(s, ingress) == SecurityGroupDecl(t, ingress)
    ensures InstanceDecl(s, i) == InstanceDecl(t, i)
    ensures UserDataFor(s, i).(dbPassword := t.dbPassword, apiKey := t.apiKey) == UserDataFor(t, i)
  {
    SameButSecretsFields(s, t);
    assert Named(s, "vpc") == Named(t, "vpc") && Named(s, "sg") == Named(t, "sg");
  }

  /** The secrets reach no export. */
  lemma SecretsDoNotReachExports(s: Settings, t: Settings)
    requires SameButSecrets(s, t)
    ensures forall instances: seq<Instance> :: Exports(s, instances) == Exports(t, instances)
  {
    SameButSecretsFields(s, t);
    assert ConfigurationUsed(s) == ConfigurationUsed(t);
  }

  /**
   * The secrets flow into the user data and into nothing the program names,
   * tags, exports or validates: both reach every instance's user data, and
   * changing them changes no other resource field and no export.
   */
  lemma SecretsReachOnlyUserData(s: Settings, t: Settings, azNames: seq<string>, i: nat, ingress: seq<Rule>)
    requires SameButSecrets(s, t)
    ensures UserDataFor(s, i).dbPassword == s.dbPassword && UserDataFor(s, i).apiKey == s.apiKey
    ensures UserDataFor(s, i).(dbPassword := t.dbPassword, apiKey := t.apiKey) == UserDataFor(t, i)
    ensures Validate(s).Ok? == Validate(t).Ok?
    ensures VpcDecl(s) == VpcDecl(t) && GatewayDecl(s) == GatewayDecl(t) && SubnetDecl(s, azNames) == SubnetDecl(t, azNames)
    ensures RouteTableDecl(s) == RouteTableDecl(t) && AssociationDecl(s) == AssociationDecl(t)
    ensures SecurityGroupDecl(s, ingress) == SecurityGroupDecl(t, ingress)
    ensures InstanceDecl(s, i) == InstanceDecl(t, i)
    ensures forall instances: seq<Instance> :: Exports(s, instances) == Exports(t, instances)
  {
    SecretsDoNotReachValidation(s, t);
    SecretsDoNotReachResources(s, t, azNames, i, ingress);
    SecretsDoNotReachExports(s, t);
  }
}
