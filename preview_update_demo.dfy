/**
 * The preview/update demo: the security group's ingress list grows with the
 * configured deployment version (SSH from 2.0, HTTPS from 3.0), the bucket
 * policy exists only with monitoring on, and the rule count is both a tag and
 * an export. `float(deployment_version)` is modelled as an exact decimal.
 */
module PreviewUpdateDemo {
  import opened Wrappers
  import opened PyText
  import opened Resources

  // ---------------------------------------------------------------------------
  // The deployment version as a number
  // ---------------------------------------------------------------------------

  function Pow10(k: nat): (p: nat)
    ensures p >= 1
  {
    if k == 0 then 1 else 10 * Pow10(k - 1)
  }

  /** The exact number (-1)^negative * mantissa / 10^scale. */
  datatype Decimal = Decimal(negative: bool, mantissa: nat, scale: nat)

  function Num(d: Decimal): int {
    if d.negative then -(d.mantissa as int) else d.mantissa
  }

  function Den(d: Decimal): nat {
    Pow10(d.scale)
  }

  /** Exact comparison of the numbers two decimals denote. */
  predicate Leq(d1: Decimal, d2: Decimal) {
    Num(d1) * Den(d2) <= Num(d2) * Den(d1)
  }

  /** The number `d` denotes is at least the whole number n (`float(v) >= n`). */
  predicate AtLeast(d: Decimal, n: nat) {
    Num(d) >= n * Den(d)
  }

  /** A leading sign character. */
  predicate IsSignChar(c: char) {
    c == '-' || c == '+'
  }

  /** `t` with its leading sign, if any, removed. */
  function Unsigned(t: string): (body: string)
    ensures body == if t != [] && IsSignChar(t[0]) then t[1..] else t
  {
    if t != [] && IsSignChar(t[0]) then t[1..] else t
  }

  /** Digits with at most one point and at least one digit, read as an unsigned decimal. */
  function ParseUnsigned(body: string): (r: Option<Decimal>)
    ensures r.Some? ==> body != [] && !r.value.negative
  {
    var pieces := Split(body, '.');
    if |pieces| == 1 && pieces[0] != [] && IsDecimal(pieces[0]) then
      Some(Decimal(false, DecimalValue(pieces[0]), 0))
    else if |pieces| == 2 && IsDecimal(pieces[0]) && IsDecimal(pieces[1]) && pieces[0] + pieces[1] != [] then
      Some(Decimal(false, DecimalValue(pieces[0] + pieces[1]), |pieces[1]|))
    else
      None
  }

  /**
   * `float(s)` on plain decimal notation: surrounding blanks, an optional sign,
   * digits with at most one point and at least one digit. Anything else is
   * None, where Python raises ValueError. ParseFloatOfText and
   * ParseFloatOnlyShapes state exactly which texts parse and to what.
   */
  function ParseFloat(s: string): (r: Option<Decimal>)
    ensures r.Some? ==> Strip(s) != []
  {
    var t := Strip(s);
    var u := ParseUnsigned(Unsigned(t));
    if u.Some? then Some(u.value.(negative := t[0] == '-')) else None
  }

  /** Appending a digit multiplies by ten and adds it. */
  lemma DecimalValueAppend(s: string, c: char)
    requires IsDecimal(s) && IsDigit(c)
    ensures IsDecimal(s + [c]) && DecimalValue(s + [c]) == 10 * DecimalValue(s) + DigitValue(c)
  {
    assert (s + [c])[..|s + [c]| - 1] == s;
  }

  /** A string of digits holds no decimal point. */
  lemma DigitsHaveNoPoint(w: string)
    requires IsDecimal(w)
    ensures '.' !in w
  {
    forall i | 0 <= i < |w| ensures w[i] != '.' { assert IsDigit(w[i]); }
  }

  /** Digits, a point and digits split at the point into the two digit strings. */
  lemma SplitPointed(w: string, f: string)
    requires IsDecimal(w) && IsDecimal(f)
    ensures Split(w + ['.'] + f, '.') == [w, f]
  {
    DigitsHaveNoPoint(w);
    DigitsHaveNoPoint(f);
    SplitAfterPiece(w, f, '.');
    SplitWithoutSeparator(f, '.');
  }

  /** A string that starts and ends with a digit has no blank ends. */
  lemma DigitEndsTrimmed(s: string)
    requires s != [] && IsDigit(s[0]) && IsDigit(s[|s| - 1])
    ensures Strip(s) == s
  {
    StripUnchanged(s);
  }

  /** `.f` when a fraction is written, nothing otherwise. */
  function Point(f: Option<string>): string {
    if f.Some? then ['.'] + f.value else ""
  }

  /** No sign, or one sign character. */
  predicate IsSign(sign: string) {
    |sign| <= 1 && (sign != [] ==> IsSignChar(sign[0]))
  }

  /**
   * Plain decimal notation: blanks `lead`, a sign, the whole digits `w`,
   * optionally a point and the fraction digits `f`, blanks `trail`, with at
   * least one digit in all.
   */
  predicate FloatShape(lead: string, sign: string, w: string, f: Option<string>, trail: string) {
    && (forall i :: 0 <= i < |lead| ==> IsSpace(lead[i]))
    && (forall i :: 0 <= i < |trail| ==> IsSpace(trail[i]))
    && IsSign(sign)
    && IsDecimal(w) && (f.Some? ==> IsDecimal(f.value))
    && w + f.GetOr("") != []
  }

  /** The text of that notation, written out. */
  function FloatText(lead: string, sign: string, w: string, f: Option<string>, trail: string): string {
    lead + (sign + (w + Point(f))) + trail
  }

  /** The number such a text denotes: its sign, and all its digits over ten to the fraction's length. */
  function ValueOf(sign: string, w: string, f: Option<string>): Decimal
    requires IsDecimal(w) && (f.Some? ==> IsDecimal(f.value))
  {
    Decimal(sign != [] && sign[0] == '-', DecimalValue(w + f.GetOr("")), |f.GetOr("")|)
  }

  /** The unsigned part of the notation reads as its digits over ten to the fraction's length. */
  lemma ParseUnsignedOfText(w: string, f: Option<string>)
    requires IsDecimal(w) && (f.Some? ==> IsDecimal(f.value)) && w + f.GetOr("") != []
    ensures ParseUnsigned(w + Point(f)) == Some(ValueOf("", w, f))
  {
    if f.None? {
      assert w + Point(f) == w;
      assert w + f.GetOr("") == w;
      DigitsHaveNoPoint(w);
      SplitWithoutSeparator(w, '.');
    } else {
      assert w + Point(f) == w + ['.'] + f.value;
      SplitPointed(w, f.value);
    }
  }

  /** What ParseUnsigned accepts is the unsigned part of the notation, its whole digits and its fraction. */
  lemma ParseUnsignedShape(body: string) returns (w: string, f: Option<string>)
    requires ParseUnsigned(body).Some?
    ensures IsDecimal(w) && (f.Some? ==> IsDecimal(f.value)) && w + f.GetOr("") != []
    ensures body == w + Point(f)
  {
    var pieces := Split(body, '.');
    JoinSplit(body, '.');
    w := pieces[0];
    if |pieces| == 1 {
      f := None;
      assert body == w;
    } else {
      f := Some(pieces[1]);
      assert Join(pieces, '.') == w + ['.'] + pieces[1];
    }
  }

  /** The unsigned part of the notation starts and ends with a digit or the point. */
  lemma UnsignedEnds(w: string, f: Option<string>)
    requires IsDecimal(w) && (f.Some? ==> IsDecimal(f.value)) && w + f.GetOr("") != []
    ensures var body := w + Point(f);
      body != [] && (IsDigit(body[0]) || body[0] == '.') && (IsDigit(body[|body| - 1]) || body[|body| - 1] == '.')
  {
    var body := w + Point(f);
    if w != [] { assert body[0] == w[0]; } else { assert body[0] == '.'; }
    if f.Some? && f.value != [] { assert body[|body| - 1] == f.value[|f.value| - 1]; }
    else if f.Some? { assert body[|body| - 1] == '.'; }
    else { assert body == w; }
  }

  /** The sign in front of an unsigned part comes off again, and decides the sign of the number. */
  lemma SignOff(sign: string, body: string)
    requires IsSign(sign) && body != [] && (IsDigit(body[0]) || body[0] == '.')
    ensures Unsigned(sign + body) == body
    ensures ((sign + body)[0] == '-') == (sign != [] && sign[0] == '-')
  {
    if sign != [] {
      assert (sign + body)[1..] == body;
    } else {
      assert sign + body == body;
      assert !IsSignChar(body[0]);
    }
  }

  /** Every text in plain decimal notation parses, to the number it denotes. */
  lemma ParseFloatOfText(lead: string, sign: string, w: string, f: Option<string>, trail: string)
    requires FloatShape(lead, sign, w, f, trail)
    ensures ParseFloat(FloatText(lead, sign, w, f, trail)) == Some(ValueOf(sign, w, f))
  {
    var body := w + Point(f);
    var core := sign + body;
    UnsignedEnds(w, f);
    assert core[|core| - 1] == body[|body| - 1];
    assert !IsSpace(core[0]) by {
      if sign != [] { assert core[0] == sign[0]; } else { assert core[0] == body[0]; }
    }
    StripPadded(lead, core, trail);
    SignOff(sign, body);
    ParseUnsignedOfText(w, f);
  }

  /** A text is its strip with blank runs on either side. */
  lemma StripShape(s: string) returns (lead: string, trail: string)
    ensures s == lead + Strip(s) + trail
    ensures forall i :: 0 <= i < |lead| ==> IsSpace(lead[i])
    ensures forall i :: 0 <= i < |trail| ==> IsSpace(trail[i])
  {
    var t := Strip(s);
    var k := |s| - |StripLeft(s)|;
    assert k + |t| <= |s| && t == s[k..k + |t|];
    lead, trail := s[..k], s[k + |t|..];
    assert s == s[..k] + s[k..k + |t|] + s[k + |t|..];
    forall i | 0 <= i < |lead|
      ensures IsSpace(lead[i])
    {
      assert lead[i] == s[i];
    }
    forall i | 0 <= i < |trail|
      ensures IsSpace(trail[i])
    {
      assert trail[i] == s[k + |t| + i];
    }
  }

  /** A text is its leading sign, if any, and what Unsigned leaves. */
  lemma SignShape(t: string) returns (sign: string)
    requires t != []
    ensures IsSign(sign) && t == sign + Unsigned(t)
  {
    sign := if IsSignChar(t[0]) then t[..1] else "";
    if sign == "" {
      assert t == sign + t;
    }
  }

  /** Every text `float()` accepts here is in plain decimal notation, and parses to the number it denotes. */
  lemma ParseFloatOnlyShapes(s: string)
    requires ParseFloat(s).Some?
    ensures exists lead, sign, w, f, trail ::
      && FloatShape(lead, sign, w, f, trail) && s == FloatText(lead, sign, w, f, trail)
      && ParseFloat(s) == Some(ValueOf(sign, w, f))
  {
    var t := Strip(s);
    var lead, trail := StripShape(s);
    var sign := SignShape(t);
    var w, f := ParseUnsignedShape(Unsigned(t));
    assert FloatShape(lead, sign, w, f, trail);
    assert s == FloatText(lead, sign, w, f, trail);
    ParseFloatOfText(lead, sign, w, f, trail);
  }

  /** Digits, a point and digits, with no sign and no blanks, parse to the digits read as one number. */
  lemma ParsePointed(w: string, f: string)
    requires w != [] && f != [] && IsDecimal(w) && IsDecimal(f)
    ensures ParseFloat(w + ['.'] + f) == Some(Decimal(false, DecimalValue(w + f), |f|))
  {
    var s := w + ['.'] + f;
    SplitPointed(w, f);
    assert s[0] == w[0] && s[|s| - 1] == f[|f| - 1];
    DigitEndsTrimmed(s);
  }

  /** `N.0` is N's digits, a point and a zero. */
  lemma PointZero(w: string)
    ensures w + ".0" == w + ['.'] + "0"
  {
  }

  /** N's digits followed by a zero read as 10 N. */
  lemma WholeValue(n: nat)
    ensures IsDecimal(NatToString(n) + "0") && DecimalValue(NatToString(n) + "0") == 10 * n
  {
    var w := NatToString(n);
    assert w + "0" == w + ['0'];
    DecimalValueAppend(w, '0');
    NatToStringRoundTrip(n);
  }

  /** A whole version written `N.0` parses to N exactly. */
  lemma ParseWholeVersion(n: nat)
    ensures ParseFloat(NatToString(n) + ".0") == Some(Decimal(false, 10 * n, 1))
  {
    var w := NatToString(n);
    PointZero(w);
    ParsePointed(w, "0");
    WholeValue(n);
  }

  /** Multiplying both sides by the same positive number can be undone. */
  lemma CancelPositive(a: int, b: int, c: int)
    requires c > 0 && a * c <= b * c
    ensures a <= b
  {
  }

  /** A version at least n stays at least n under any increase. */
  lemma AtLeastMonotone(d1: Decimal, d2: Decimal, n: nat)
    requires Leq(d1, d2) && AtLeast(d1, n)
    ensures AtLeast(d2, n)
  {
    var den1, den2 := Den(d1), Den(d2);
    assert n * den1 * den2 == (n * den1) * den2;
    assert (n * den1) * den2 <= Num(d1) * den2 by {
      assert Num(d1) * den2 - (n * den1) * den2 == (Num(d1) - n * den1) * den2;
    }
    assert (n * den2) * den1 == n * den1 * den2;
    CancelPositive(n * den2, Num(d2), den1);
  }

  /** Whole-number thresholds in the order of the script's two checks. */
  lemma AtLeastThreeImpliesTwo(d: Decimal)
    ensures AtLeast(d, 3) ==> AtLeast(d, 2)
  {
    assert 3 * Den(d) >= 2 * Den(d);
  }

  // ---------------------------------------------------------------------------
  // Ingress assembly
  // ---------------------------------------------------------------------------

  const HttpRule := TcpRule(80, [AnyIpv4], Some("HTTP Access"))
  const SshRule := TcpRule(22, [AnyIpv4], Some("SSH Access - Added in v2.0"))
  const HttpsRule := TcpRule(443, [AnyIpv4], Some("HTTPS Access - Added in v3.0"))

  /** `base_ingress` for a version: HTTP, then SSH from 2.0, then HTTPS from 3.0. */
  function IngressFor(version: Decimal): seq<Rule> {
    [HttpRule] + (if AtLeast(version, 2) then [SshRule] else []) + (if AtLeast(version, 3) then [HttpsRule] else [])
  }

  /** The list built as the program builds it, by conditional appends to one list. */
  method BuildBaseIngress(version: Decimal) returns (ingress: seq<Rule>)
    ensures ingress == IngressFor(version)
  {
    ingress := [HttpRule];
    if Num(version) >= 2 * Den(version) {
      ingress := ingress + [SshRule];
    }
    if Num(version) >= 3 * Den(version) {
      ingress := ingress + [HttpsRule];
    }
  }

  /**
   * HTTP is always the first rule; SSH is present exactly from 2.0 and HTTPS
   * exactly from 3.0, and then after SSH.
   */
  lemma IngressByVersion(version: Decimal)
    ensures var ingress := IngressFor(version);
      && ingress[0] == HttpRule
      && (SshRule in ingress <==> AtLeast(version, 2))
      && (HttpsRule in ingress <==> AtLeast(version, 3))
      && Ports(ingress) == if AtLeast(version, 3) then [80, 22, 443]
                           else if AtLeast(version, 2) then [80, 22] else [80]
  {
    AtLeastThreeImpliesTwo(version);
    var ingress := IngressFor(version);
    if AtLeast(version, 3) {
      assert ingress == [HttpRule, SshRule, HttpsRule];
    } else if AtLeast(version, 2) {
      assert ingress == [HttpRule, SshRule];
    } else {
      assert ingress == [HttpRule];
    }
  }

  /** Raising the version only appends: the lower version's list is a prefix of the higher one's. */
  lemma IngressGrowsWithVersion(v1: Decimal, v2: Decimal)
    requires Leq(v1, v2)
    ensures IngressFor(v1) <= IngressFor(v2)
  {
    AtLeastThreeImpliesTwo(v1);
    AtLeastThreeImpliesTwo(v2);
    if AtLeast(v1, 2) {
      AtLeastMonotone(v1, v2, 2);
    }
    if AtLeast(v1, 3) {
      AtLeastMonotone(v1, v2, 3);
    }
  }

  /** Version N.0 opens SSH exactly when N >= 2 and HTTPS exactly when N >= 3. */
  lemma WholeVersionIngress(n: nat)
    ensures ParseFloat(NatToString(n) + ".0").Some?
    ensures var v := ParseFloat(NatToString(n) + ".0").value;
      && (SshRule in IngressFor(v) <==> n >= 2) && (HttpsRule in IngressFor(v) <==> n >= 3)
  {
    ParseWholeVersion(n);
    var v := Decimal(false, 10 * n, 1);
    assert Den(v) == 10;
    IngressByVersion(v);
  }

  // ---------------------------------------------------------------------------
  // Resources
  // ---------------------------------------------------------------------------

  /** The Name, Purpose and Version tags of every resource. */
  function BaseTags(name: string, version: string): (tags: Tags)
    ensures HasTag(tags, "Name", name) && HasTag(tags, "Purpose", "PreviewUpdateDemo")
    ensures HasTag(tags, "Version", version)
  {
    map["Name" := name, "Purpose" := "PreviewUpdateDemo", "Version" := version]
  }

  datatype Bucket = Bucket(resourceName: string, tags: Tags)

  /**
   * The policy document: one statement of `effect` for the principal service
   * and the action on the objects matching `resourcePattern`, under the
   * `StringEquals` conditions (condition key to required value).
   */
  datatype BucketPolicy = BucketPolicy(
    resourceName: string,
    bucket: Ref,
    policyVersion: string,
    effect: string,
    principalService: string,
    action: string,
    resourcePattern: Output,
    stringEquals: map<string, string>)

  /** A write request: the calling service, the action, and the `x-amz-acl` it sets, if any. */
  datatype Request = Request(service: string, action: string, acl: Option<string>)

  /** The request's value for a condition key; only `s3:x-amz-acl` is modelled. */
  function RequestValue(r: Request, key: string): Option<string> {
    if key == "s3:x-amz-acl" then r.acl else None
  }

  /** The statement allows the request: an Allow for its service and action, every StringEquals condition met. */
  predicate Allows(p: BucketPolicy, r: Request) {
    && p.effect == "Allow" && r.service == p.principalService && r.action == p.action
    && forall key :: key in p.stringEquals ==> RequestValue(r, key) == Some(p.stringEquals[key])
  }

  /** The audit trail's write policy: PutObject under `logs/`, only with the bucket owner given full control. */
  function BucketPolicyDecl(): (p: BucketPolicy)
    ensures p.resourceName == "preview-update-bucket-policy" && p.policyVersion == "2012-10-17"
    ensures p.bucket == Ref("preview-update-demo-bucket") && p.effect == "Allow"
    ensures p.principalService == "cloudtrail.amazonaws.com" && p.action == "s3:PutObject"
    ensures p.resourcePattern == Output(p.bucket, "id", "arn:aws:s3:::", "/logs/*")
    ensures p.stringEquals == map["s3:x-amz-acl" := "bucket-owner-full-control"]
  {
    BucketPolicy("preview-update-bucket-policy", Ref("preview-update-demo-bucket"), "2012-10-17", "Allow",
      "cloudtrail.amazonaws.com", "s3:PutObject", Output(Ref("preview-update-demo-bucket"), "id", "arn:aws:s3:::", "/logs/*"),
      map["s3:x-amz-acl" := "bucket-owner-full-control"])
  }

  /**
   * The policy admits exactly the audit service's PutObject requests that set
   * `x-amz-acl` to bucket-owner-full-control: a request without that ACL is refused.
   */
  lemma BucketPolicyAdmits(r: Request)
    ensures Allows(BucketPolicyDecl(), r) <==>
      r.service == "cloudtrail.amazonaws.com" && r.action == "s3:PutObject" && r.acl == Some("bucket-owner-full-control")
  {
    var p := BucketPolicyDecl();
    if Allows(p, r) {
      assert "s3:x-amz-acl" in p.stringEquals;
    }
  }

  function SecurityGroupDecl(rawVersion: string, ingress: seq<Rule>): (sg: SecurityGroup)
    ensures sg.resourceName == "preview-update-sg" && sg.name == Some("preview-update-sg")
    ensures sg.description == "Security group for preview/update demo v" + rawVersion
    ensures sg.ingress == ingress && sg.egress == [AllowAllEgress]
    ensures HasTag(sg.tags, "RulesCount", NatToString(|sg.ingress|)) && HasTag(sg.tags, "Version", rawVersion)
    ensures sg.vpc == Some(Ref(VpcDecl(rawVersion).resourceName))
    ensures HasTag(sg.tags, "Name", sg.resourceName) && HasTag(sg.tags, "Purpose", "PreviewUpdateDemo")
  {
    SecurityGroup("preview-update-sg", Some("preview-update-sg"), "Security group for preview/update demo v" + rawVersion,
      Some(Ref("preview-update-vpc")), ingress, [AllowAllEgress],
      BaseTags("preview-update-sg", rawVersion)["RulesCount" := NatToString(|ingress|)])
  }

  // ---------------------------------------------------------------------------
  // Exports
  // ---------------------------------------------------------------------------

  const WorkflowCommands: map<string, Value> := map[
    "preview_changes" := Str("pulumi preview"),
    "apply_changes" := Str("pulumi up"),
    "view_history" := Str("pulumi history"),
    "refresh_state" := Str("pulumi refresh"),
    "watch_mode" := Str("pulumi watch"),
    "cancel_deployment" := Str("pulumi cancel"),
    "destroy_preview" := Str("pulumi destroy --preview"),
    "destroy_apply" := Str("pulumi destroy")]

  function Upgrade(command: string, change: string): Value {
    Object(map["command" := Str(command), "change" := Str(change), "preview" := Str("pulumi preview"),
               "apply" := Str("pulumi up")])
  }

  const SafetyFeatures: map<string, Value> := map[
    "preview_first" := Str("Always run 'pulumi preview' before 'pulumi up'"),
    "confirmation_required" := Str("Destructive changes require confirmation"),
    "atomic_updates" := Str("Updates are atomic - all succeed or all fail"),
    "rollback_available" := Str("Use 'pulumi history' and target specific updates"),
    "state_consistency" := Str("State is always consistent with reality")]

  /** The SSH command export: a deferred command from 2.0, a fixed notice below it. */
  function SshCommand(version: Decimal): (v: Value)
    ensures AtLeast(version, 2) ==>
      v == Later(Output(Ref("preview-update-instance"), "public_ip", "ssh -i your-key.pem ec2-user@", ""))
    ensures !AtLeast(version, 2) ==> v == Str("SSH not available in v1.0")
  {
    if AtLeast(version, 2) then Later(Output(Ref("preview-update-instance"), "public_ip", "ssh -i your-key.pem ec2-user@", ""))
    else Str("SSH not available in v1.0")
  }

  /** The SSH command is deferred exactly when the SSH rule is open. */
  lemma SshCommandMatchesIngress(version: Decimal)
    ensures SshCommand(version).Later? <==> SshRule in IngressFor(version)
  {
    IngressByVersion(version);
  }

  /** The six top-level exports, whatever their values. */
  function ExportsOf(demoType: Value, info: Value, commands: Value, upgrades: Value, access: Value,
                     safety: Value): (m: map<string, Value>)
    ensures m.Keys == {"demo_type", "deployment_info", "workflow_commands", "version_upgrade_demo", "demo_access",
                       "safety_features"}
    ensures m["deployment_info"] == info && m["demo_access"] == access
  {
    map[
      "demo_type" := demoType,
      "deployment_info" := info,
      "workflow_commands" := commands,
      "version_upgrade_demo" := upgrades,
      "demo_access" := access,
      "safety_features" := safety]
  }

  /** The `deployment_info` export: the raw version, the monitoring flag and the rule count. */
  function DeploymentInfo(rawVersion: string, enableMonitoring: bool, rulesCount: nat): (v: Value)
    ensures v.Object? && v.fields.Keys == {"version", "monitoring_enabled", "security_rules_count", "timestamp"}
    ensures v.fields["version"] == Str(rawVersion) && v.fields["monitoring_enabled"] == Bool(enableMonitoring)
    ensures v.fields["security_rules_count"] == Int(rulesCount)
  {
    Object(map[
      "version" := Str(rawVersion),
      "monitoring_enabled" := Bool(enableMonitoring),
      "security_rules_count" := Int(rulesCount),
      "timestamp" := Str("deployment-time-will-be-set-on-apply")])
  }

  function UpgradeDemo(rawVersion: string): Value {
    Object(map[
      "current_version" := Str(rawVersion),
      "upgrade_to_v2" := Upgrade("pulumi config set deployment_version '2.0'", "Adds SSH access (port 22)"),
      "upgrade_to_v3" := Upgrade("pulumi config set deployment_version '3.0'", "Adds HTTPS access (port 443)"),
      "enable_monitoring" := Upgrade("pulumi config set enable_monitoring true", "Adds S3 bucket policy for monitoring")])
  }

  /** The `demo_access` export: deferred instance and bucket addresses and the version's SSH command. */
  function DemoAccess(version: Decimal): (v: Value)
    ensures v.Object? && v.fields.Keys == {"instance_url", "ssh_command", "s3_bucket"}
    ensures v.fields["ssh_command"] == SshCommand(version)
    ensures v.fields["instance_url"] == Later(Output(Ref("preview-update-instance"), "public_ip", "http://", ""))
    ensures v.fields["s3_bucket"] == Later(Output(Ref(BucketDecl("").resourceName), "id", "", ""))
  {
    Object(map[
      "instance_url" := Later(Output(Ref("preview-update-instance"), "public_ip", "http://", "")),
      "ssh_command" := SshCommand(version),
      "s3_bucket" := Later(Output(Ref("preview-update-demo-bucket"), "id", "", ""))])
  }

  function Exports(rawVersion: string, version: Decimal, enableMonitoring: bool, rulesCount: nat): (m: map<string, Value>)
    ensures m.Keys == {"demo_type", "deployment_info", "workflow_commands", "version_upgrade_demo", "demo_access",
                       "safety_features"}
    ensures m["deployment_info"] == DeploymentInfo(rawVersion, enableMonitoring, rulesCount)
    ensures m["demo_access"] == DemoAccess(version)
  {
    ExportsOf(Str("Preview & Update Workflow Demo"), DeploymentInfo(rawVersion, enableMonitoring, rulesCount),
      Object(WorkflowCommands), UpgradeDemo(rawVersion), DemoAccess(version), Object(SafetyFeatures))
  }

  // ---------------------------------------------------------------------------
  // The whole program
  // ---------------------------------------------------------------------------

  datatype PreviewDeployment = PreviewDeployment(
    version: Decimal,
    vpc: Vpc,
    gateway: InternetGateway,
    subnet: Subnet,
    routeTable: RouteTable,
    association: RouteTableAssociation,
    securityGroup: SecurityGroup,
    bucket: Bucket,
    bucketPolicy: Option<BucketPolicy>,
    instance: Instance,
    exports: map<string, Value>)

  /** The VPC, tagged with the raw version and a placeholder update time. */
  function VpcDecl(rawVersion: string): (v: Vpc)
    ensures v.resourceName == "preview-update-vpc" && v.cidrBlock == "10.200.0.0/16"
    ensures v.tags == BaseTags(v.resourceName, rawVersion)["LastUpdate" := "TBD"]
  {
    Vpc("preview-update-vpc", "10.200.0.0/16", BaseTags("preview-update-vpc", rawVersion)["LastUpdate" := "TBD"])
  }

  function GatewayDecl(rawVersion: string): (g: InternetGateway)
    ensures g.resourceName == "preview-update-igw" && g.vpc == Ref(VpcDecl(rawVersion).resourceName)
    ensures g.tags == BaseTags(g.resourceName, rawVersion)
  {
    InternetGateway("preview-update-igw", Ref("preview-update-vpc"), BaseTags("preview-update-igw", rawVersion))
  }

  /** The public subnet in the first zone the lookup returned. */
  function SubnetDecl(rawVersion: string, zone: string): (n: Subnet)
    ensures n.resourceName == "preview-update-subnet" && n.vpc == Ref(VpcDecl(rawVersion).resourceName)
    ensures n.cidrBlock == "10.200.1.0/24" && n.availabilityZone == zone && n.mapPublicIp
    ensures n.tags == BaseTags(n.resourceName, rawVersion)
  {
    Subnet("preview-update-subnet", Ref("preview-update-vpc"), "10.200.1.0/24", zone, true,
           BaseTags("preview-update-subnet", rawVersion))
  }

  /** The route table: every address through the gateway. */
  function RouteTableDecl(rawVersion: string): (rt: RouteTable)
    ensures rt.resourceName == "preview-update-rt" && rt.vpc == Ref(VpcDecl(rawVersion).resourceName)
    ensures rt.routes == [Route(AnyIpv4, Ref(GatewayDecl(rawVersion).resourceName))]
    ensures rt.tags == BaseTags(rt.resourceName, rawVersion)
  {
    RouteTable("preview-update-rt", Ref("preview-update-vpc"), [Route(AnyIpv4, Ref("preview-update-igw"))],
               BaseTags("preview-update-rt", rawVersion))
  }

  /** The association of the subnet with the route table. */
  function AssociationDecl(rawVersion: string, zone: string): (a: RouteTableAssociation)
    ensures a.resourceName == "preview-update-rt-assoc"
    ensures a.subnet == Ref(SubnetDecl(rawVersion, zone).resourceName)
    ensures a.routeTable == Ref(RouteTableDecl(rawVersion).resourceName)
  {
    RouteTableAssociation("preview-update-rt-assoc", Ref("preview-update-subnet"), Ref("preview-update-rt"))
  }

  function BucketDecl(rawVersion: string): (b: Bucket)
    ensures b.resourceName == "preview-update-demo-bucket" && b.tags == BaseTags(b.resourceName, rawVersion)
  {
    Bucket("preview-update-demo-bucket", BaseTags("preview-update-demo-bucket", rawVersion))
  }

  /** The instance in the subnet, behind the security group. */
  function InstanceDecl(rawVersion: string): (inst: Instance)
    ensures inst.resourceName == "preview-update-instance" && inst.instanceType == "t2.micro"
    ensures inst.subnet == Ref("preview-update-subnet") && inst.securityGroups == [Ref("preview-update-sg")]
    ensures inst.keyName.None? && inst.monitoring.None?
    ensures inst.tags == BaseTags(inst.resourceName, rawVersion)["DeploymentType" := "preview-update-demo"]
  {
    Instance("preview-update-instance", "t2.micro", Ref("preview-update-subnet"), [Ref("preview-update-sg")], None,
             None, BaseTags("preview-update-instance", rawVersion)["DeploymentType" := "preview-update-demo"])
  }

  const FloatErrorPrefix := "could not convert string to float: "

  /** The ValueError `float(s)` raises: the fixed text, then the rejected text as `repr()` writes it. */
  function FloatError(s: string): (e: PyError)
    ensures e == ValueError(FloatErrorPrefix + Repr(s))
  {
    ValueError(FloatErrorPrefix + Repr(s))
  }

  /** A version holding a single quote is quoted with double quotes in the message, any other plain one with single quotes. */
  lemma FloatErrorQuotesPython()
    ensures FloatError("2'0") == ValueError(FloatErrorPrefix + "\"2'0\"")
    ensures FloatError("v2") == ValueError(FloatErrorPrefix + "'v2'")
  {
    ReprPlain("2'0");
    ReprPlain("v2");
  }

  /**
   * The program with `deployment_version` and `enable_monitoring` as read
   * (None when unset); `azNames` is what the zone lookup returns. The subnet's
   * `names[0]` comes before the first `float(...)`, so an empty zone list
   * wins over a malformed version.
   */
  method Deploy(versionSetting: Option<string>, monitoringSetting: Option<bool>, azNames: seq<string>)
    returns (r: Result<PreviewDeployment, PyError>)
    ensures azNames == [] ==> r == Err(IndexError)
    ensures azNames != [] && ParseFloat(versionSetting.GetOr("1.0")).None? ==>
      r == Err(FloatError(versionSetting.GetOr("1.0")))
    ensures r.Ok? <==> azNames != [] && ParseFloat(versionSetting.GetOr("1.0")).Some?
    ensures r.Ok? ==> Some(r.value.version) == ParseFloat(versionSetting.GetOr("1.0"))
    ensures r.Ok? ==> r.value.vpc == VpcDecl(versionSetting.GetOr("1.0"))
    ensures r.Ok? ==> r.value.gateway == GatewayDecl(versionSetting.GetOr("1.0"))
    ensures r.Ok? ==> r.value.subnet == SubnetDecl(versionSetting.GetOr("1.0"), azNames[0])
    ensures r.Ok? ==> r.value.routeTable == RouteTableDecl(versionSetting.GetOr("1.0"))
    ensures r.Ok? ==> r.value.association == AssociationDecl(versionSetting.GetOr("1.0"), azNames[0])
    ensures r.Ok? ==> r.value.securityGroup == SecurityGroupDecl(versionSetting.GetOr("1.0"), IngressFor(r.value.version))
    ensures r.Ok? ==> HasTag(r.value.securityGroup.tags, "RulesCount", NatToString(|r.value.securityGroup.ingress|))
    ensures r.Ok? ==> r.value.bucket == BucketDecl(versionSetting.GetOr("1.0"))
    ensures r.Ok? ==> r.value.bucketPolicy == if monitoringSetting == Some(true) then Some(BucketPolicyDecl()) else None
    ensures r.Ok? ==> r.value.instance == InstanceDecl(versionSetting.GetOr("1.0"))
    ensures r.Ok? ==> r.value.exports == Exports(versionSetting.GetOr("1.0"), r.value.version,
                                                 monitoringSetting == Some(true), |r.value.securityGroup.ingress|)
  {
    var rawVersion := versionSetting.GetOr("1.0");
    var enableMonitoring := monitoringSetting.GetOr(false);
    var vpc := VpcDecl(rawVersion);
    var gateway := GatewayDecl(rawVersion);
    if azNames == [] {
      return Err(IndexError);
    }
    var subnet := SubnetDecl(rawVersion, azNames[0]);
    var routeTable := RouteTableDecl(rawVersion);
    var association := AssociationDecl(rawVersion, azNames[0]);
    var parsed := ParseFloat(rawVersion);
    if parsed.None? {
      return Err(FloatError(rawVersion));
    }
    assert enableMonitoring == (monitoringSetting == Some(true));
    var network := Network(vpc, gateway, subnet, routeTable, association);
    var deployment := DeployVersion(rawVersion, parsed.value, enableMonitoring, network);
    r := Ok(deployment);
  }

  /** The network resources, declared before the version is parsed. */
  datatype Network = Network(
    vpc: Vpc,
    gateway: InternetGateway,
    subnet: Subnet,
    routeTable: RouteTable,
    association: RouteTableAssociation)

  /** The resources declared from the version's parse on, and the exports, beside the given network. */
  method DeployVersion(rawVersion: string, version: Decimal, enableMonitoring: bool, network: Network)
    returns (d: PreviewDeployment)
    ensures d.version == version
    ensures d.vpc == network.vpc && d.gateway == network.gateway && d.subnet == network.subnet
    ensures d.routeTable == network.routeTable && d.association == network.association
    ensures d.securityGroup == SecurityGroupDecl(rawVersion, IngressFor(version))
    ensures HasTag(d.securityGroup.tags, "RulesCount", NatToString(|d.securityGroup.ingress|))
    ensures d.bucket == BucketDecl(rawVersion)
    ensures d.bucketPolicy == if enableMonitoring then Some(BucketPolicyDecl()) else None
    ensures d.instance == InstanceDecl(rawVersion)
    ensures d.exports == Exports(rawVersion, version, enableMonitoring, |d.securityGroup.ingress|)
  {
    var ingress := BuildBaseIngress(version);
    var sg := SecurityGroupDecl(rawVersion, ingress);
    var bucket := BucketDecl(rawVersion);
    var policy: Option<BucketPolicy> := None;
    if enableMonitoring {
      policy := Some(BucketPolicyDecl());
    }
    var instance := InstanceDecl(rawVersion);
    var exports := Exports(rawVersion, version, enableMonitoring, |sg.ingress|);
    d := PreviewDeployment(version, network.vpc, network.gateway, network.subnet, network.routeTable,
                           network.association, sg, bucket, policy, instance, exports);
  }

  /** Proof aid: `str(1) + ".0"` and `str(2) + ".0"` are the two documented version strings. */
  lemma VersionTexts()
    ensures NatToString(1) + ".0" == "1.0" && NatToString(2) + ".0" == "2.0"
  {
  }

  /** 1.0 is below both thresholds; 2.0 reaches 2 but not 3. */
  lemma VersionThresholds()
    ensures !AtLeast(Decimal(false, 10, 1), 2) && !AtLeast(Decimal(false, 10, 1), 3)
    ensures AtLeast(Decimal(false, 20, 1), 2) && !AtLeast(Decimal(false, 20, 1), 3)
  {
    assert Den(Decimal(false, 10, 1)) == 10 && Den(Decimal(false, 20, 1)) == 10;
  }

  /** With nothing configured the version is 1.0: HTTP only, no SSH command, no bucket policy. */
  lemma DefaultDeployment()
    ensures ParseFloat("1.0") == Some(Decimal(false, 10, 1))
    ensures IngressFor(Decimal(false, 10, 1)) == [HttpRule]
    ensures SshCommand(Decimal(false, 10, 1)) == Str("SSH not available in v1.0")
  {
    ParseWholeVersion(1);
    VersionTexts();
    VersionThresholds();
    NoSshCommandAtOne();
  }

  /** Below 2.0 the SSH export is the fixed notice. */
  lemma NoSshCommandAtOne()
    ensures SshCommand(Decimal(false, 10, 1)) == Str("SSH not available in v1.0")
  {
    VersionThresholds();
  }

  /** Version "2.0" opens SSH but not HTTPS, and the SSH command becomes deferred. */
  lemma VersionTwo()
    ensures ParseFloat("2.0") == Some(Decimal(false, 20, 1))
    ensures IngressFor(Decimal(false, 20, 1)) == [HttpRule, SshRule]
  {
    ParseWholeVersion(2);
    VersionTexts();
    IngressAtTwo();
  }

  /** The number 2.0 passes the SSH threshold only. */
  lemma IngressAtTwo()
    ensures IngressFor(Decimal(false, 20, 1)) == [HttpRule, SshRule]
  {
    VersionThresholds();
  }

  /** The documented upgrade from "1.0" to "2.0" adds exactly the SSH rule. */
  lemma UpgradeToTwoAddsSsh()
    ensures ParseFloat("1.0").Some? && ParseFloat("2.0").Some?
    ensures IngressFor(ParseFloat("2.0").value) == IngressFor(ParseFloat("1.0").value) + [SshRule]
  {
    DefaultDeployment();
    VersionTwo();
  }
}
