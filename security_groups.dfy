/**
 * The security-group module of the modular project: a web group open on 80,
 * 443 and 22, a database group that admits MySQL only from the web group, and
 * a custom group with one tcp rule per requested port. Every group allows all
 * egress and is tagged with its own name and its kind.
 */
module SecurityGroups {
  import opened Wrappers
  import opened Resources

  /** The Name and Type tags of a group. */
  function GroupTags(resourceName: string, kind: string): (tags: Tags)
    ensures tags.Keys == {"Name", "Type"}
    ensures HasTag(tags, "Name", resourceName) && HasTag(tags, "Type", kind)
  {
    map["Name" := resourceName, "Type" := kind]
  }

  /** `create_web_security_group`: HTTP, HTTPS and SSH from anywhere, in that order. */
  function WebSecurityGroup(name: string, vpc: Ref): (sg: SecurityGroup)
    ensures sg.resourceName == name + "-web-sg" && sg.name == Some(sg.resourceName)
    ensures sg.description == "Security group for web servers" && sg.vpc == Some(vpc)
    ensures Ports(sg.ingress) == [80, 443, 22]
    ensures forall k :: 0 <= k < |sg.ingress| ==> sg.ingress[k] == TcpRule(sg.ingress[k].fromPort, [AnyIpv4], None)
    ensures sg.egress == [AllowAllEgress]
    ensures sg.tags == GroupTags(sg.resourceName, "Web")
  {
    SecurityGroup(name + "-web-sg", Some(name + "-web-sg"), "Security group for web servers", Some(vpc),
      [TcpRule(80, [AnyIpv4], None), TcpRule(443, [AnyIpv4], None), TcpRule(22, [AnyIpv4], None)],
      [AllowAllEgress], GroupTags(name + "-web-sg", "Web"))
  }

  /** `create_database_security_group`: MySQL from the web group (no address block), SSH from anywhere. */
  function DatabaseSecurityGroup(name: string, vpc: Ref, webGroup: Ref): (sg: SecurityGroup)
    ensures sg.resourceName == name + "-db-sg" && sg.name == Some(sg.resourceName)
    ensures sg.description == "Security group for database servers" && sg.vpc == Some(vpc)
    ensures Ports(sg.ingress) == [3306, 22]
    ensures sg.ingress[0] == Rule("tcp", 3306, 3306, [], [webGroup], None)
    ensures sg.ingress[1] == TcpRule(22, [AnyIpv4], None)
    ensures sg.egress == [AllowAllEgress]
    ensures sg.tags == GroupTags(sg.resourceName, "Database")
  {
    SecurityGroup(name + "-db-sg", Some(name + "-db-sg"), "Security group for database servers", Some(vpc),
      [Rule("tcp", 3306, 3306, [], [webGroup], None), TcpRule(22, [AnyIpv4], None)],
      [AllowAllEgress], GroupTags(name + "-db-sg", "Database"))
  }

  /** The rule admits traffic on `port`. */
  predicate Covers(rule: Rule, port: int) {
    rule.fromPort <= port <= rule.toPort
  }

  /**
   * The database port is reachable through the web group only: every rule
   * covering 3306 names no address block and exactly the web group, and no
   * rule is open to any address on that port.
   */
  lemma DatabasePortOnlyFromWebGroup(name: string, vpc: Ref, webGroup: Ref)
    ensures var sg := DatabaseSecurityGroup(name, vpc, webGroup);
      && (exists k :: 0 <= k < |sg.ingress| && Covers(sg.ingress[k], 3306))
      && forall k :: 0 <= k < |sg.ingress| && Covers(sg.ingress[k], 3306) ==>
           sg.ingress[k].cidrBlocks == [] && sg.ingress[k].securityGroups == [webGroup]
  {
    var sg := DatabaseSecurityGroup(name, vpc, webGroup);
    assert Covers(sg.ingress[0], 3306);
    assert !Covers(sg.ingress[1], 3306);
  }

  /** `description or f"Custom security group for {name}"`: unset and empty both fall back. */
  function CustomDescription(name: string, description: Option<string>): (d: string)
    ensures description.Some? && description.value != "" ==> d == description.value
    ensures description.None? || description == Some("") ==> d == "Custom security group for " + name
  {
    if description.Some? && description.value != "" then description.value else "Custom security group for " + name
  }

  /** `create_custom_security_group`: the rule loop appends one tcp rule per port, in order. */
  method CreateCustomSecurityGroup(name: string, vpc: Ref, allowedPorts: seq<int>, description: Option<string>)
    returns (sg: SecurityGroup)
    ensures sg.resourceName == name + "-custom-sg" && sg.name == Some(sg.resourceName)
    ensures sg.description == CustomDescription(name, description) && sg.vpc == Some(vpc)
    ensures Ports(sg.ingress) == allowedPorts
    ensures forall k :: 0 <= k < |sg.ingress| ==> sg.ingress[k] == TcpRule(allowedPorts[k], [AnyIpv4], None)
    ensures sg.egress == [AllowAllEgress]
    ensures sg.tags == GroupTags(sg.resourceName, "Custom")
  {
    var ingressRules: seq<Rule> := [];
    var i := 0;
    while i < |allowedPorts|
      invariant 0 <= i <= |allowedPorts| && |ingressRules| == i
      invariant forall k :: 0 <= k < i ==> ingressRules[k] == TcpRule(allowedPorts[k], [AnyIpv4], None)
    {
      ingressRules := ingressRules + [TcpRule(allowedPorts[i], [AnyIpv4], None)];
      i := i + 1;
    }
    sg := SecurityGroup(name + "-custom-sg", Some(name + "-custom-sg"), CustomDescription(name, description),
      Some(vpc), ingressRules, [AllowAllEgress], GroupTags(name + "-custom-sg", "Custom"));
  }

  /**
   * The web group's rules are exactly those of a custom group for ports
   * [80, 443, 22]; the groups differ in name, description and Type tag.
   */
  lemma WebRulesAreCustomRules(name: string, vpc: Ref)
    ensures var web, ports := WebSecurityGroup(name, vpc), [80, 443, 22];
      && |web.ingress| == |ports|
      && forall k :: 0 <= k < |ports| ==> web.ingress[k] == TcpRule(ports[k], [AnyIpv4], None)
  {
    var web, ports := WebSecurityGroup(name, vpc), [80, 443, 22];
    assert Ports(web.ingress) == ports;
    forall k | 0 <= k < |ports|
      ensures web.ingress[k] == TcpRule(ports[k], [AnyIpv4], None)
    {
      assert web.ingress[k].fromPort == Ports(web.ingress)[k];
    }
  }

  /** The three kinds of group never share a resource name for the same base name. */
  lemma GroupNamesDistinct(name: string, vpc: Ref, webGroup: Ref)
    ensures WebSecurityGroup(name, vpc).resourceName != DatabaseSecurityGroup(name, vpc, webGroup).resourceName
    ensures WebSecurityGroup(name, vpc).resourceName != name + "-custom-sg"
    ensures DatabaseSecurityGroup(name, vpc, webGroup).resourceName != name + "-custom-sg"
  {
    var p := name + "-";
    assert WebSecurityGroup(name, vpc).resourceName == p + "web-sg";
    assert DatabaseSecurityGroup(name, vpc, webGroup).resourceName == p + "db-sg";
    assert name + "-custom-sg" == p + "custom-sg";
    assert (p + "web-sg")[|p|] == 'w' && (p + "db-sg")[|p|] == 'd' && (p + "custom-sg")[|p|] == 'c';
  }
}
