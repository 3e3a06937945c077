/**
 * The compute module of the modular project: a web server and a database
 * server built the same way apart from their Type tag, and a fan-out that
 * declares `count` web servers spread round-robin over a list of subnets.
 */
module Compute {
  import opened Wrappers
  import opened PyText
  import opened Resources
  import RoundRobin

  /** The two kinds of server the module builds. */
  datatype ServerKind = Web | Database

  /** The Type tag of each kind. */
  function TypeTag(kind: ServerKind): string {
    match kind
    case Web => "WebServer"
    case Database => "Database"
  }

  /**
   * `create_web_server` and `create_database_server`: the resource is
   * `{name}-instance`, its Name tag the bare name, its Type tag the kind.
   */
  function Server(kind: ServerKind, name: string, subnet: Ref, securityGroup: Ref, keyName: Option<string>): (inst: Instance)
    ensures inst.resourceName == name + "-instance" && inst.instanceType == "t2.micro"
    ensures inst.subnet == subnet && inst.securityGroups == [securityGroup] && inst.keyName == keyName
    ensures inst.monitoring.None?
    ensures inst.tags == map["Name" := name, "Type" := TypeTag(kind)]
  {
    Instance(name + "-instance", "t2.micro", subnet, [securityGroup], keyName, None,
      map["Name" := name, "Type" := TypeTag(kind)])
  }

  /** `create_web_server`. */
  function WebServer(name: string, subnet: Ref, securityGroup: Ref, keyName: Option<string>): Instance {
    Server(Web, name, subnet, securityGroup, keyName)
  }

  /** `create_database_server`. */
  function DatabaseServer(name: string, subnet: Ref, securityGroup: Ref, keyName: Option<string>): Instance {
    Server(Database, name, subnet, securityGroup, keyName)
  }

  /**
   * The two builders differ in the Type tag alone, so a web server and a
   * database server given the same name collide on their resource name.
   */
  lemma ServersDifferOnlyInType(name: string, subnet: Ref, securityGroup: Ref, keyName: Option<string>)
    ensures DatabaseServer(name, subnet, securityGroup, keyName)
         == WebServer(name, subnet, securityGroup, keyName).(tags := map["Name" := name, "Type" := "Database"])
    ensures DatabaseServer(name, subnet, securityGroup, keyName).resourceName
         == WebServer(name, subnet, securityGroup, keyName).resourceName
  {
  }

  /** `f"{base_name}-{i+1}"`. */
  function InstanceName(baseName: string, i: nat): (name: string)
    ensures name == baseName + "-" + NatToString(i + 1)
  {
    baseName + "-" + NatToString(i + 1)
  }

  /**
   * What `create_multiple_instances` returns: web server i (from 0) is
   * `{base}-{i+1}` on `subnet_ids[i mod len]`. With no subnets the first
   * iteration's modulo raises; a count of zero or less reads no subnet and
   * declares nothing.
   */
  function MultipleInstances(baseName: string, count: int, subnetIds: seq<Ref>, securityGroup: Ref,
                             keyName: Option<string>): (r: Result<seq<Instance>, PyError>)
    ensures r.Err? <==> count > 0 && subnetIds == []
    ensures r.Err? ==> r.error == ZeroDivisionError
    ensures r.Ok? ==> |r.value| == (if count > 0 then count else 0)
    ensures r.Ok? ==> forall i :: 0 <= i < |r.value| ==>
      r.value[i] == WebServer(InstanceName(baseName, i), subnetIds[i % |subnetIds|], securityGroup, keyName)
  {
    if count > 0 && subnetIds == [] then Err(ZeroDivisionError)
    else
      var n := if count > 0 then count else 0;
      Ok(seq(n, i requires 0 <= i < n =>
        WebServer(InstanceName(baseName, i), subnetIds[i % |subnetIds|], securityGroup, keyName)))
  }

  /** The fan-out loop: one web server per iteration, appended in order. */
  method CreateMultipleInstances(baseName: string, count: int, subnetIds: seq<Ref>, securityGroup: Ref,
                                 keyName: Option<string>)
    returns (r: Result<seq<Instance>, PyError>)
    ensures r == MultipleInstances(baseName, count, subnetIds, securityGroup, keyName)
  {
    ghost var spec := MultipleInstances(baseName, count, subnetIds, securityGroup, keyName);
    var instances: seq<Instance> := [];
    var i := 0;
    while i < count
      invariant 0 <= i <= (if count > 0 then count else 0)
      invariant i > 0 ==> spec.Ok?
      invariant spec.Ok? ==> instances == spec.value[..i]
    {
      if |subnetIds| == 0 {
        return Err(ZeroDivisionError);
      }
      var subnet := subnetIds[i % |subnetIds|];
      var instance := WebServer(InstanceName(baseName, i), subnet, securityGroup, keyName);
      assert spec.value[..i + 1] == spec.value[..i] + [instance];
      instances := instances + [instance];
      i := i + 1;
    }
    assert spec.value[..i] == spec.value;
    r := Ok(instances);
  }

  /** Distinct positions of the fan-out get distinct Name tags and distinct resource names. */
  lemma FanOutNamesDistinct(baseName: string, i: nat, j: nat, subnet1: Ref, subnet2: Ref, securityGroup: Ref,
                            keyName: Option<string>)
    requires i != j
    ensures InstanceName(baseName, i) != InstanceName(baseName, j)
    ensures WebServer(InstanceName(baseName, i), subnet1, securityGroup, keyName).resourceName
         != WebServer(InstanceName(baseName, j), subnet2, securityGroup, keyName).resourceName
  {
    OrdinalNamesDistinct(baseName + "-", i + 1, j + 1);
    var ni, nj := InstanceName(baseName, i), InstanceName(baseName, j);
    assert ni == (baseName + "-") + NatToString(i + 1);
    assert nj == (baseName + "-") + NatToString(j + 1);
    if |ni| == |nj| {
      assert (ni + "-instance")[..|ni|] == ni && (nj + "-instance")[..|nj|] == nj;
    } else {
      assert |ni + "-instance"| != |nj + "-instance"|;
    }
  }

  /**
   * Over distinct subnets the fan-out is even: with n servers and m subnets,
   * subnet k receives n / m of them, one more when k < n mod m.
   */
  lemma FanOutSpreadEvenly(baseName: string, count: int, subnetIds: seq<Ref>, securityGroup: Ref,
                           keyName: Option<string>, k: nat)
    requires RoundRobin.Distinct(subnetIds) && k < |subnetIds|
    ensures var r := MultipleInstances(baseName, count, subnetIds, securityGroup, keyName);
      && r.Ok?
      && RoundRobin.CountOf(SubnetsOf(r.value), subnetIds[k])
         == |r.value| / |subnetIds| + (if k < |r.value| % |subnetIds| then 1 else 0)
  {
    var r := MultipleInstances(baseName, count, subnetIds, securityGroup, keyName);
    var placed := SubnetsOf(r.value);
    assert forall i :: 0 <= i < |placed| ==> placed[i] == subnetIds[i % |subnetIds|];
    RoundRobin.SpreadEvenly(placed, subnetIds, k);
  }
}
