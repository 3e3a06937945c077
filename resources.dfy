/**
 * Records for the cloud resources the scripts declare. Each constructor call of
 * the provisioning SDK becomes a plain value; a reference to another resource's
 * identifier (`x.id`) is a `Ref` naming that resource's logical name, and an
 * attribute the engine only knows after provisioning is an `Output`.
 */
module Resources {
  import opened Wrappers

  /** The identifier of the resource declared under logical name `name`. */
  datatype Ref = Ref(name: string)

  type Tags = map<string, string>

  /** The tag set carries `key` with exactly `value`. */
  predicate HasTag(tags: Tags, key: string, value: string) {
    key in tags && tags[key] == value
  }

  /** The block that stands for every IPv4 address. */
  const AnyIpv4: string := "0.0.0.0/0"

  /** One security-group rule: protocol, port range and the sources it admits. */
  datatype Rule = Rule(
    protocol: string,
    fromPort: int,
    toPort: int,
    cidrBlocks: seq<string>,
    securityGroups: seq<Ref>,
    description: Option<string>)

  /** A tcp rule for one port from the given address blocks. */
  function TcpRule(port: int, cidrs: seq<string>, description: Option<string>): (r: Rule)
    ensures r.protocol == "tcp" && r.fromPort == port && r.toPort == port
    ensures r.cidrBlocks == cidrs && r.securityGroups == [] && r.description == description
  {
    Rule("tcp", port, port, cidrs, [], description)
  }

  /** The allow-everything egress rule every security group of the scripts carries. */
  const AllowAllEgress: Rule := Rule("-1", 0, 0, [AnyIpv4], [], None)

  /** The single ports of a list of one-port rules, in order. */
  function Ports(rules: seq<Rule>): (ports: seq<int>)
    ensures |ports| == |rules|
    ensures forall i :: 0 <= i < |rules| ==> ports[i] == rules[i].fromPort
  {
    seq(|rules|, i requires 0 <= i < |rules| => rules[i].fromPort)
  }

  datatype Vpc = Vpc(resourceName: string, cidrBlock: string, tags: Tags)

  datatype Subnet = Subnet(
    resourceName: string,
    vpc: Ref,
    cidrBlock: string,
    availabilityZone: string,
    mapPublicIp: bool,
    tags: Tags)

  datatype InternetGateway = InternetGateway(resourceName: string, vpc: Ref, tags: Tags)

  datatype Route = Route(cidrBlock: string, gateway: Ref)

  datatype RouteTable = RouteTable(resourceName: string, vpc: Ref, routes: seq<Route>, tags: Tags)

  datatype RouteTableAssociation = RouteTableAssociation(resourceName: string, subnet: Ref, routeTable: Ref)

  datatype SecurityGroup = SecurityGroup(
    resourceName: string,
    name: Option<string>,
    description: string,
    vpc: Option<Ref>,
    ingress: seq<Rule>,
    egress: seq<Rule>,
    tags: Tags)

  /** A compute instance; `monitoring` is None when the script leaves the SDK default. */
  datatype Instance = Instance(
    resourceName: string,
    instanceType: string,
    subnet: Ref,
    securityGroups: seq<Ref>,
    keyName: Option<string>,
    monitoring: Option<bool>,
    tags: Tags)

  /** The subnet of each instance, in instance order. */
  function SubnetsOf(instances: seq<Instance>): (refs: seq<Ref>)
    ensures |refs| == |instances|
    ensures forall i :: 0 <= i < |instances| ==> refs[i] == instances[i].subnet
  {
    seq(|instances|, i requires 0 <= i < |instances| => instances[i].subnet)
  }

  /**
   * A deferred value: `prefix`, then attribute `attribute` of resource `source`
   * once the engine knows it, then `suffix` (an `.apply(lambda v: f"...{v}...")`).
   */
  datatype Output = Output(source: Ref, attribute: string, prefix: string, suffix: string)

  /** The public address of an instance wrapped in fixed text. */
  function PublicIpText(instance: Instance, prefix: string, suffix: string): (o: Output)
    ensures o.source == Ref(instance.resourceName) && o.attribute == "public_ip"
    ensures o.prefix == prefix && o.suffix == suffix
  {
    Output(Ref(instance.resourceName), "public_ip", prefix, suffix)
  }

  /** A value in an export map. */
  datatype Value =
    | Str(s: string)
    | Int(i: int)
    | Fixed(units: int, places: nat)  // the decimal number units / 10^places
    | Bool(b: bool)
    | List(items: seq<Value>)
    | Later(o: Output)
    | Object(fields: map<string, Value>)

  /** The Python exceptions that abort a run. */
  datatype PyError =
    | ValueError(message: string)
    | IndexError
    | ZeroDivisionError
    | NameError(name: string)
}
