/**
 * The entry point of the modular project: one network (a VPC, a public web
 * subnet, a private database subnet, a gateway and public routing), the web
 * and database security groups, and a compute layer chosen by stack name —
 * one web server for `dev` and unknown stacks, two or three web servers plus
 * a database server for `staging` and `prod`.
 */
module ModularityMain {
  import opened Wrappers
  import opened PyText
  import opened Resources
  import Cidr
  import opened Compute
  import opened SecurityGroups

  // ---------------------------------------------------------------------
  // The networking module
  // ---------------------------------------------------------------------

  /** `create_vpc`: the VPC `{name}-vpc`, tagged with that name. */
  function CreateVpc(name: string, cidr: string): (v: Vpc)
    ensures v.resourceName == name + "-vpc" && v.cidrBlock == cidr
    ensures v.tags == map["Name" := v.resourceName]
  {
    Vpc(name + "-vpc", cidr, map["Name" := name + "-vpc"])
  }

  /** `create_internet_gateway`: `{name}-igw` attached to the VPC. */
  function CreateInternetGateway(name: string, vpc: Ref): (g: InternetGateway)
    ensures g.resourceName == name + "-igw" && g.vpc == vpc
    ensures g.tags == map["Name" := g.resourceName]
  {
    InternetGateway(name + "-igw", vpc, map["Name" := name + "-igw"])
  }

  /** `create_public_subnet` and `create_private_subnet` differ in suffix, address mapping and Type tag. */
  function CreateSubnet(name: string, vpc: Ref, cidr: string, az: string, public: bool): (s: Subnet)
    ensures s.resourceName == name + (if public then "-public" else "-private")
    ensures s.vpc == vpc && s.cidrBlock == cidr && s.availabilityZone == az
    ensures s.mapPublicIp == public
    ensures s.tags == map["Name" := s.resourceName, "Type" := if public then "Public" else "Private"]
  {
    var resourceName := name + (if public then "-public" else "-private");
    Subnet(resourceName, vpc, cidr, az, public,
      map["Name" := resourceName, "Type" := if public then "Public" else "Private"])
  }

  /** A route declared as a resource of its own, inside an existing route table. */
  datatype RouteEntry = RouteEntry(resourceName: string, routeTable: Ref, route: Route)

  datatype Routing = Routing(table: RouteTable, defaultRoute: RouteEntry, association: RouteTableAssociation)

  /**
   * `setup_public_routing`: an empty route table, a separate route sending
   * every address to the gateway, and the table's association with the subnet.
   */
  function SetupPublicRouting(name: string, vpc: Ref, gateway: Ref, subnet: Ref): (r: Routing)
    ensures r.table.resourceName == name + "-public-rt" && r.table.vpc == vpc && r.table.routes == []
    ensures r.table.tags == map["Name" := r.table.resourceName]
    ensures r.defaultRoute == RouteEntry(name + "-internet-route", Ref(r.table.resourceName), Route(AnyIpv4, gateway))
    ensures r.association == RouteTableAssociation(name + "-public-rta", subnet, Ref(r.table.resourceName))
  {
    var table := RouteTable(name + "-public-rt", vpc, [], map["Name" := name + "-public-rt"]);
    Routing(table,
      RouteEntry(name + "-internet-route", Ref(table.resourceName), Route(AnyIpv4, gateway)),
      RouteTableAssociation(name + "-public-rta", subnet, Ref(table.resourceName)))
  }

  // ---------------------------------------------------------------------
  // The address plan
  // ---------------------------------------------------------------------

  const VpcBlock: Cidr.Block := Cidr.Block(10, 0, 0, 0, 16)
  const WebBlock: Cidr.Block := Cidr.Block(10, 0, 1, 0, 24)
  const DatabaseBlock: Cidr.Block := Cidr.Block(10, 0, 2, 0, 24)

  /** Proof aid for NetworkLayout: the texts the entry point passes are those of the three blocks. */
  lemma BlockTexts()
    ensures Cidr.Format(VpcBlock) == "10.0.0.0/16"
    ensures Cidr.Format(WebBlock) == "10.0.1.0/24"
    ensures Cidr.Format(DatabaseBlock) == "10.0.2.0/24"
  {
    assert NatToString(10) == "10" by { assert NatToString(1) == "1"; }
    assert NatToString(16) == "16" by { assert NatToString(1) == "1"; }
    assert NatToString(24) == "24" by { assert NatToString(2) == "2"; }
  }

  // ---------------------------------------------------------------------
  // The program
  // ---------------------------------------------------------------------

  /** `f"simple-demo-{stack_name}"`. */
  function ProjectName(stack: string): (name: string)
    ensures |name| == 12 + |stack| && name[..12] == "simple-demo-" && name[12..] == stack
  {
    "simple-demo-" + stack
  }

  /** The stacks that get a fan-out of web servers and a database. */
  function WebServerCount(stack: string): (n: nat)
    ensures 1 <= n <= 3
    ensures n > 1 <==> stack == "staging" || stack == "prod"
    ensures stack == "staging" ==> n == 2
    ensures stack == "prod" ==> n == 3
  {
    if stack == "staging" then 2 else if stack == "prod" then 3 else 1
  }

  /** The resources every stack declares the same way. */
  datatype Network = Network(
    vpc: Vpc,
    gateway: InternetGateway,
    webSubnet: Subnet,
    databaseSubnet: Subnet,
    routing: Routing,
    webGroup: SecurityGroup,
    databaseGroup: SecurityGroup)

  /** The networking and security-group calls of the entry point, in order. */
  function NetworkFor(project: string): (n: Network)
    ensures n.vpc == CreateVpc(project, "10.0.0.0/16")
    ensures n.gateway == CreateInternetGateway(project, Ref(n.vpc.resourceName))
    ensures n.webSubnet == CreateSubnet(project + "-web", Ref(n.vpc.resourceName), "10.0.1.0/24", "us-east-1a", true)
    ensures n.databaseSubnet == CreateSubnet(project + "-db", Ref(n.vpc.resourceName), "10.0.2.0/24", "us-east-1a", false)
    ensures n.routing == SetupPublicRouting(project, Ref(n.vpc.resourceName), Ref(n.gateway.resourceName),
                                            Ref(n.webSubnet.resourceName))
    ensures n.webGroup == WebSecurityGroup(project, Ref(n.vpc.resourceName))
    ensures n.databaseGroup == DatabaseSecurityGroup(project, Ref(n.vpc.resourceName), Ref(n.webGroup.resourceName))
  {
    var vpc := CreateVpc(project, "10.0.0.0/16");
    var igw := CreateInternetGateway(project, Ref(vpc.resourceName));
    var webSubnet := CreateSubnet(project + "-web", Ref(vpc.resourceName), "10.0.1.0/24", "us-east-1a", true);
    var dbSubnet := CreateSubnet(project + "-db", Ref(vpc.resourceName), "10.0.2.0/24", "us-east-1a", false);
    var routing := SetupPublicRouting(project, Ref(vpc.resourceName), Ref(igw.resourceName), Ref(webSubnet.resourceName));
    var webSg := WebSecurityGroup(project, Ref(vpc.resourceName));
    var dbSg := DatabaseSecurityGroup(project, Ref(vpc.resourceName), Ref(webSg.resourceName));
    Network(vpc, igw, webSubnet, dbSubnet, routing, webSg, dbSg)
  }

  /** The deferred `http://{ip}` address of a web server. */
  function WebUrl(server: Instance): (v: Value)
    ensures v == Later(PublicIpText(server, "http://", ""))
  {
    Later(PublicIpText(server, "http://", ""))
  }

  function WebUrls(servers: seq<Instance>): (urls: seq<Value>)
    ensures |urls| == |servers|
    ensures forall i :: 0 <= i < |servers| ==> urls[i] == WebUrl(servers[i])
  {
    seq(|servers|, i requires 0 <= i < |servers| => WebUrl(servers[i]))
  }

  const ModulesUsed: seq<Value> := [
    Str("networking - VPC, subnets, routing"),
    Str("security_groups - Web and DB security"),
    Str("compute - EC2 web and database servers")]

  const CommonKeys: set<string> := {"vpc_id", "stack_name", "project_name", "modules_used"}

  /**
   * The branch's exports followed by the four every stack shares; a later
   * export of the same key would replace an earlier one.
   */
  function AllExports(stack: string, project: string, vpc: Vpc, branch: map<string, Value>): (m: map<string, Value>)
    ensures m.Keys == branch.Keys + CommonKeys
    ensures forall k :: k in branch && k !in CommonKeys ==> m[k] == branch[k]
    ensures m["vpc_id"] == Later(Output(Ref(vpc.resourceName), "id", "", ""))
    ensures m["stack_name"] == Str(stack) && m["project_name"] == Str(project)
    ensures m["modules_used"] == List(ModulesUsed)
  {
    branch + map[
      "vpc_id" := Later(Output(Ref(vpc.resourceName), "id", "", "")),
      "stack_name" := Str(stack),
      "project_name" := Str(project),
      "modules_used" := List(ModulesUsed)]
  }

  /** The servers of one stack and the exports of its branch. */
  datatype Servers = Servers(webServers: seq<Instance>, database: Option<Instance>, exports: map<string, Value>)

  /**
   * The stack dispatch: `staging` and `prod` fan out two or three web
   * servers over the web subnet and add a database server; every other
   * stack, `dev` included, gets one web server.
   */
  function ServersFor(stack: string, project: string, n: Network): (c: Servers)
    ensures |c.webServers| == WebServerCount(stack)
    ensures c.database.Some? <==> stack == "staging" || stack == "prod"
    ensures forall i :: 0 <= i < |c.webServers| ==>
      c.webServers[i].subnet == Ref(n.webSubnet.resourceName) &&
      c.webServers[i].securityGroups == [Ref(n.webGroup.resourceName)] &&
      HasTag(c.webServers[i].tags, "Type", "WebServer")
    ensures c.database.Some? ==>
      c.webServers == MultipleInstances(project + "-web", WebServerCount(stack), [Ref(n.webSubnet.resourceName)],
                                        Ref(n.webGroup.resourceName), None).value
    ensures c.database.Some? ==>
      c.database.value == DatabaseServer(project + "-db", Ref(n.databaseSubnet.resourceName),
                                         Ref(n.databaseGroup.resourceName), None)
    ensures c.database.None? ==>
      c.webServers == [WebServer(project + "-web", Ref(n.webSubnet.resourceName), Ref(n.webGroup.resourceName), None)]
    ensures c.database.None? ==> c.exports.Keys == {"web_url", "server_count"}
    ensures c.database.Some? ==> c.exports.Keys == {"web_urls", "database_private_ip", "server_count"}
    ensures c.exports["server_count"] == Int(|c.webServers|)
    ensures c.database.None? ==> c.exports["web_url"] == WebUrl(c.webServers[0])
    ensures c.database.Some? ==> c.exports["web_urls"] == List(WebUrls(c.webServers))
  {
    var subnet, group := Ref(n.webSubnet.resourceName), Ref(n.webGroup.resourceName);
    if stack == "staging" || stack == "prod" then
      var webServers := MultipleInstances(project + "-web", WebServerCount(stack), [subnet], group, None).value;
      var db := DatabaseServer(project + "-db", Ref(n.databaseSubnet.resourceName), Ref(n.databaseGroup.resourceName), None);
      Servers(webServers, Some(db), map[
        "web_urls" := List(WebUrls(webServers)),
        "database_private_ip" := Later(Output(Ref(db.resourceName), "private_ip", "", "")),
        "server_count" := Int(|webServers|)])
    else
      var web := WebServer(project + "-web", subnet, group, None);
      Servers([web], None, map["web_url" := WebUrl(web), "server_count" := Int(1)])
  }

  datatype Plan = Plan(projectName: string, network: Network, servers: Servers, exports: map<string, Value>)

  /** The whole program for one stack: the shared network, the stack's servers, and all exports. */
  function Program(stack: string): (p: Plan)
    ensures p.projectName == "simple-demo-" + stack
  {
    var project := ProjectName(stack);
    var network := NetworkFor(project);
    var servers := ServersFor(stack, project, network);
    Plan(project, network, servers, AllExports(stack, project, network.vpc, servers.exports))
  }

  /** The exports of each kind of stack: the branch's keys plus the common four, none replaced. */
  lemma ProgramExports(stack: string)
    ensures var p := Program(stack);
      p.servers.database.None? ==>
        p.exports.Keys == {"web_url", "server_count"} + CommonKeys
    ensures var p := Program(stack);
      p.servers.database.Some? ==>
        p.exports.Keys == {"web_urls", "database_private_ip", "server_count"} + CommonKeys
    ensures var p := Program(stack);
      p.exports["server_count"] == Int(|p.servers.webServers|) && p.exports["stack_name"] == Str(stack)
    ensures var p := Program(stack);
      p.servers.database.None? ==> p.exports["web_url"] == WebUrl(p.servers.webServers[0])
    ensures var p := Program(stack);
      p.servers.database.Some? ==> p.exports["web_urls"] == List(WebUrls(p.servers.webServers))
  {
    var project := ProjectName(stack);
    var network := NetworkFor(project);
    var servers := ServersFor(stack, project, network);
    assert Program(stack) == Plan(project, network, servers, AllExports(stack, project, network.vpc, servers.exports));
    BranchKeysNotCommon();
  }

  /** Proof aid for ProgramExports: no key a branch exports is one of the common four. */
  lemma BranchKeysNotCommon()
    ensures "server_count" !in CommonKeys && "web_url" !in CommonKeys && "web_urls" !in CommonKeys
    ensures "database_private_ip" !in CommonKeys
  {
  }

  // ---------------------------------------------------------------------
  // What every stack's plan guarantees
  // ---------------------------------------------------------------------

  /**
   * Both subnets are valid /24 blocks inside the VPC's /16, they share no
   * address, and only the web subnet maps public addresses and is routed to
   * the internet gateway.
   */
  lemma NetworkLayout(stack: string)
    ensures var p := Program(stack);
      && p.network.vpc.cidrBlock == Cidr.Format(VpcBlock)
      && p.network.webSubnet.cidrBlock == Cidr.Format(WebBlock)
      && p.network.databaseSubnet.cidrBlock == Cidr.Format(DatabaseBlock)
    ensures Cidr.Valid(VpcBlock) && Cidr.Valid(WebBlock) && Cidr.Valid(DatabaseBlock)
    ensures Cidr.StrictlyContains(VpcBlock, WebBlock) && Cidr.StrictlyContains(VpcBlock, DatabaseBlock)
    ensures Cidr.Disjoint(WebBlock, DatabaseBlock)
    ensures var p := Program(stack);
      && p.network.webSubnet.mapPublicIp && !p.network.databaseSubnet.mapPublicIp
      && p.network.routing.association.subnet == Ref(p.network.webSubnet.resourceName)
      && p.network.routing.defaultRoute.route == Route(AnyIpv4, Ref(p.network.gateway.resourceName))
      && p.network.routing.association.routeTable == p.network.routing.defaultRoute.routeTable
  {
    BlockTexts();
    Cidr.Slash24InsideSlash16(10, 0, 1);
    Cidr.Slash24InsideSlash16(10, 0, 2);
    Cidr.Slash24sDisjoint(10, 0, 1, 2);
  }

  /**
   * The database port admits the web group alone, every web server is in
   * that group, and the database server sits in the private subnet behind
   * the database group.
   */
  lemma DatabaseReachableOnlyFromWebServers(stack: string)
    ensures var p := Program(stack);
      forall k :: 0 <= k < |p.network.databaseGroup.ingress| && Covers(p.network.databaseGroup.ingress[k], 3306) ==>
        p.network.databaseGroup.ingress[k].cidrBlocks == [] &&
        p.network.databaseGroup.ingress[k].securityGroups == [Ref(p.network.webGroup.resourceName)]
    ensures var p := Program(stack);
      forall i :: 0 <= i < |p.servers.webServers| ==> Ref(p.network.webGroup.resourceName) in p.servers.webServers[i].securityGroups
    ensures var p := Program(stack);
      p.servers.database.Some? ==>
        p.servers.database.value.securityGroups == [Ref(p.network.databaseGroup.resourceName)] &&
        p.servers.database.value.subnet == Ref(p.network.databaseSubnet.resourceName) && !p.network.databaseSubnet.mapPublicIp
  {
    var p := Program(stack);
    DatabasePortOnlyFromWebGroup(p.projectName, Ref(p.network.vpc.resourceName), Ref(p.network.webGroup.resourceName));
    forall i | 0 <= i < |p.servers.webServers|
      ensures Ref(p.network.webGroup.resourceName) in p.servers.webServers[i].securityGroups
    {
      assert p.servers.webServers[i].securityGroups == [Ref(p.network.webGroup.resourceName)];
    }
  }

  /** No two web servers of a stack share a resource name, whatever the network. */
  lemma WebNamesDistinct(stack: string, project: string, n: Network, i: nat, j: nat)
    requires i < |ServersFor(stack, project, n).webServers| && j < |ServersFor(stack, project, n).webServers| && i != j
    ensures ServersFor(stack, project, n).webServers[i].resourceName
         != ServersFor(stack, project, n).webServers[j].resourceName
  {
    if ServersFor(stack, project, n).database.Some? {
      var subnet, group := Ref(n.webSubnet.resourceName), Ref(n.webGroup.resourceName);
      FanOutNamesDistinct(project + "-web", i, j, subnet, subnet, group, None);
    }
  }

  /** No two web servers of a stack's program share a resource name. */
  lemma ServerNamesDistinct(stack: string, i: nat, j: nat)
    requires i < |Program(stack).servers.webServers| && j < |Program(stack).servers.webServers| && i != j
    ensures Program(stack).servers.webServers[i].resourceName != Program(stack).servers.webServers[j].resourceName
  {
    var project := ProjectName(stack);
    WebNamesDistinct(stack, project, NetworkFor(project), i, j);
  }

  /** The database server's name never collides with a web server's. */
  lemma DatabaseNameDistinct(stack: string, project: string, n: Network, i: nat)
    requires i < |ServersFor(stack, project, n).webServers| && ServersFor(stack, project, n).database.Some?
    ensures ServersFor(stack, project, n).webServers[i].resourceName
         != ServersFor(stack, project, n).database.value.resourceName
  {
    var servers := ServersFor(stack, project, n);
    var fanOut := MultipleInstances(project + "-web", WebServerCount(stack), [Ref(n.webSubnet.resourceName)],
                                    Ref(n.webGroup.resourceName), None);
    assert servers.webServers[i] == fanOut.value[i];
    var q := project + "-";
    var web := servers.webServers[i].resourceName;
    assert web == q + ("web-" + NatToString(i + 1) + "-instance");
    assert servers.database.value.resourceName == q + "db-instance";
    assert web[|q|] == 'w';
  }
}
