# Pulumi teaching scripts: the planning layer, modelled in Dafny

The repository is a set of Pulumi programs used to teach infrastructure as
code on AWS:

- a stacks demo;
- a configuration demo;
- a preview/update demo;
- a small "modular" project (networking, security-group and compute modules
  and an entry point);
- a multi-environment component demo;
- an "advanced" demo.

Each program reads a little configuration, decides which cloud resources to
declare (names, address blocks, rules, tags, counts), declares them and
exports a dictionary of outputs. This project models that deterministic
decision layer.

- A declared resource becomes a value (`Vpc`, `Subnet`, `SecurityGroup`,
  `Instance`, ...). It refers to other resources by their logical name
  (`Ref`).
- An output the engine only knows after deployment, such as an instance's
  public address wrapped by `.apply(lambda ip: f"http://{ip}")`, is an
  `Output` value naming its source resource, the attribute, and the text
  around it.
- Python exceptions that abort a run (`IndexError` on an empty zone list, the
  modulo by an empty subnet list, `ValueError` from validation or `float()`,
  `NameError`) are the `Err` side of a `Result`.
- Loops that build a list one element at a time are methods with loop
  invariants. Each is proved equal to a specification function, and the
  properties are proved about that function.
- Configuration stores, environment variables, availability-zone lists,
  region, account and timestamps are parameters.

Modules:

| module | models |
|---|---|
| `Wrappers`, `PyText`, `Cidr`, `Resources`, `Dicts`, `RoundRobin` | building blocks: `Option`/`Result`, Python's `str()`, `upper()`, `strip()`, `split()`/`join()`; IPv4 blocks; the resource records; dictionaries built from ordered pairs; round-robin placement |
| `StacksDemo` | `demo/01_stacks_demo.py` |
| `ConfigurationDemo` | `demo/03_configuration_demo.py` |
| `PreviewUpdateDemo` | `demo/05_preview_update_demo.py` |
| `Compute`, `SecurityGroups` | `modularity/modules/compute.py`, `modularity/modules/security_groups.py` |
| `ModularityMain` | `modularity/__main__.py` and the `modularity/modules/networking.py` functions it calls |
| `DemoComponents`, `DemoReport` | `pulumi-presentation/demo_components.py` |
| `AdvancedDemo` | `pulumi-presentation/advanced_demo.py` |

## Model

| member | source | states |
|---|---|---|
| PyText.NatToString | demo/01_stacks_demo.py:167 | `str(n)` for a natural number is a non-empty digit string, with a leading zero only for 0 |
| PyText.NatToStringRoundTrip | demo/01_stacks_demo.py:167 | reading back the decimal text of `n` gives `n` |
| PyText.NatToStringInjective | demo/01_stacks_demo.py:164 | distinct numbers have distinct texts, so numbered resource names never collide |
| PyText.OrdinalNamesDistinct | modularity/modules/compute.py:198 | `prefix + str(i)` differs from `prefix + str(j)` when `i != j` |
| PyText.IntToString | demo/03_configuration_demo.py:100 | `str()` of a negative integer is a minus sign followed by the text of its magnitude |
| PyText.Upper | pulumi-presentation/demo_components.py:161 | `upper()` keeps the length and maps every character through the ASCII upper-casing |
| PyText.UpperIdempotent | pulumi-presentation/demo_components.py:161 | upper-casing twice is upper-casing once |
| PyText.UpperConcat | pulumi-presentation/demo_components.py:161 | upper-casing distributes over concatenation |
| PyText.Strip | demo/03_configuration_demo.py:58 | `strip()` removes exactly the leading and trailing whitespace run and leaves a result with non-blank ends |
| PyText.StripUnchanged | demo/03_configuration_demo.py:58 | a text with non-blank ends is unchanged by `strip()` |
| PyText.StripPadded | demo/03_configuration_demo.py:58 | blanks put around a text with non-blank ends are exactly what `strip()` removes |
| PyText.Split | demo/03_configuration_demo.py:58 | `split(sep)` yields at least one piece and no piece contains the separator |
| PyText.JoinSplit | demo/03_configuration_demo.py:58 | joining the pieces of a split with the same separator gives back the text |
| PyText.SplitJoin | demo/03_configuration_demo.py:58 | splitting a join of separator-free pieces gives back the pieces |
| PyText.Repr | demo/05_preview_update_demo.py:126 | `repr()` of a string: quoted with `"` when it holds `'` and no `"`, with `'` otherwise, backslash, the chosen quote and control characters escaped |
| PyText.ReprPlain | demo/05_preview_update_demo.py:126 | a text without backslash, double quote or control character is shown between single quotes, or between double quotes when it holds a single quote |
| Cidr.Slash24InsideSlash16 | modularity/__main__.py:26-45 | `a.b.c.0/24` is a valid block strictly inside `a.b.0.0/16` |
| Cidr.Slash24sDisjoint | modularity/__main__.py:32-45 | two /24 blocks with different third octets share no address |
| Cidr.Slash16sDisjoint | pulumi-presentation/demo_components.py:21-43 | two /16 blocks with different second octets share no address |
| RoundRobin.EvenDistribution | modularity/modules/compute.py:195-198 | placing item `i` in slot `i mod m` gives each slot `n / m` items, one more for the first `n mod m` slots |
| RoundRobin.CountIsLoad | modularity/modules/compute.py:195-198 | in a list placed round-robin over distinct targets, the number of entries on target `k` is slot `k`'s load |
| RoundRobin.SpreadEvenly | modularity/modules/compute.py:195-198 | in such a list each target occurs `n / m` times, once more for the first `n mod m` targets |
| Dicts.InKeysOf | pulumi-presentation/demo_components.py:49-63 | a key is among the keys of a pair list exactly when some pair carries it |
| Dicts.SameKeys | pulumi-presentation/demo_components.py:49-63 | two pair lists with the same keys position by position have the same key set |
| Dicts.DistinctKeysCount | pulumi-presentation/demo_components.py:86 | a pair list with distinct keys has as many keys as entries, so `len()` of the dict is the list's length |
| Dicts.ToMap | pulumi-presentation/demo_components.py:49-63 | the dict built from a pair list with distinct keys holds every pair and no other key |
| Dicts.ToMapAppend | pulumi-presentation/demo_components.py:56 | inserting a new key into the dict is appending its pair to the list |
| StacksDemo.ConfigFor | demo/01_stacks_demo.py:25-47 | a known stack reads its own profile; any other stack reads the dev profile |
| StacksDemo.StackConfigs | demo/01_stacks_demo.py:25-44 | exactly the stacks dev, staging and prod: dev is one t2.micro in development without monitoring, staging two t3.small with monitoring, prod three t3.medium in production with monitoring; in every entry monitoring is on exactly outside development |
| StacksDemo.UnknownStackDeploysAsDev | demo/01_stacks_demo.py:47 | an unknown stack name deploys exactly as `dev` |
| StacksDemo.ProfilesScaleWithStack | demo/01_stacks_demo.py:25-44 | instance counts stay between 1 and 3 and grow from dev to staging to prod; monitoring is on exactly outside development |
| StacksDemo.VpcDecl | demo/01_stacks_demo.py:63-73 | the VPC is `{stack}-vpc` on 10.0.0.0/16 with its Name, Stack, Environment and ManagedBy tags |
| StacksDemo.GatewayDecl | demo/01_stacks_demo.py:76-80 | the gateway is `{stack}-igw`, attached to the stack's VPC |
| StacksDemo.SubnetDecl | demo/01_stacks_demo.py:83-90 | the subnet is placed in the first zone; an empty zone list raises IndexError |
| StacksDemo.RouteTableDecl | demo/01_stacks_demo.py:93-98 | the route table sends every address to the stack's gateway |
| StacksDemo.AssociationDecl | demo/01_stacks_demo.py:101-105 | the association links the stack's subnet and route table |
| StacksDemo.SecurityGroupDecl | demo/01_stacks_demo.py:108-117 | the group admits tcp 80 and 22 from anywhere, in that order, and names the stack in its description |
| StacksDemo.InstanceDecl | demo/01_stacks_demo.py:122-169 | instance `i` is `{stack}-instance-{i+1}` with the profile's type, in the stack's subnet and group, numbered `i+1` |
| StacksDemo.PlanInstances | demo/01_stacks_demo.py:120-170 | the loop declares one instance per count (none for a non-positive count), instance `i` as InstanceDecl says |
| StacksDemo.InstanceNamesDistinct | demo/01_stacks_demo.py:123 | two instances of a stack never share a name |
| StacksDemo.InstanceNamesAvoidNetwork | demo/01_stacks_demo.py:64-123 | no instance name equals the name of one of the stack's network resources |
| StacksDemo.InstanceUrls | demo/01_stacks_demo.py:179-182 | one `http://` address per instance, in order |
| StacksDemo.SshCommands | demo/01_stacks_demo.py:185-188 | one ssh command per instance, in order |
| StacksDemo.Exports | demo/01_stacks_demo.py:173-188 | exactly six keys: the stack, its profile's fields, and the address and ssh lists |
| StacksDemo.Deploy | demo/01_stacks_demo.py:19-188 | fails with IndexError exactly when no zone is available; otherwise the VPC, gateway, subnet, route table, association and group are their declarations, the profile's instances are declared, and the exports are as above |
| StacksDemo.EveryResourceTaggedWithStack | demo/01_stacks_demo.py:63-169 | every tagged resource carries the Stack tag with the stack's name |
| StacksDemo.StacksDoNotShareNames | demo/01_stacks_demo.py:64 | two different stacks never declare the same resource name |
| ConfigurationDemo.ParseCidrs | demo/03_configuration_demo.py:57-58 | one entry per comma-separated piece, each stripped |
| ConfigurationDemo.ParseCidrsOfJoin | demo/03_configuration_demo.py:57-58 | parsing a comma-join of trimmed blocks gives back the blocks |
| ConfigurationDemo.ParseCidrsIgnoresPadding | demo/03_configuration_demo.py:58 | blanks around the pieces do not change the parsed list |
| ConfigurationDemo.DefaultCidrsParse | demo/03_configuration_demo.py:57 | the default setting parses to 10.0.0.0/8 and 172.16.0.0/12 |
| ConfigurationDemo.Resolve | demo/03_configuration_demo.py:42-90 | each setting is the configured value when present, else its documented default |
| ConfigurationDemo.EmptyConfigurationDefaults | demo/03_configuration_demo.py:42-90 | with nothing configured the run uses DefaultApp, one instance, no HTTPS, the default blocks and development |
| ConfigurationDemo.Validate | demo/03_configuration_demo.py:99-107 | the settings pass exactly when the count is 1 to 10 and the environment is one of the four; otherwise the first failing check's message |
| ConfigurationDemo.DefaultsAreValid | demo/03_configuration_demo.py:50-107 | the defaults pass validation |
| ConfigurationDemo.BaseTags | demo/03_configuration_demo.py:126-131 | Name, Application and Environment tags |
| ConfigurationDemo.VpcDecl | demo/03_configuration_demo.py:122-132 | the VPC on 10.0.0.0/16 with the base tags and ManagedBy |
| ConfigurationDemo.GatewayDecl | demo/03_configuration_demo.py:135-143 | the gateway attached to the VPC |
| ConfigurationDemo.SubnetDecl | demo/03_configuration_demo.py:145-156 | the subnet in the first zone; IndexError when there is none |
| ConfigurationDemo.RouteTableDecl | demo/03_configuration_demo.py:159-168 | every address routed to the gateway |
| ConfigurationDemo.AssociationDecl | demo/03_configuration_demo.py:170-174 | links the subnet and the route table |
| ConfigurationDemo.BuildIngress | demo/03_configuration_demo.py:177-192 | the appends build SSH, then HTTP, then HTTPS only when enabled |
| ConfigurationDemo.IngressRules | demo/03_configuration_demo.py:177-192 | ports 22 (SSH) and 80 (HTTP), plus 443 (HTTPS) exactly when HTTPS is enabled; each rule is tcp and opens its single port; SSH admits the configured CIDR list, the others any IPv4 address |
| ConfigurationDemo.IngressPolicy | demo/03_configuration_demo.py:177-192 | SSH admits exactly the configured blocks, the other rules admit anywhere, and 443 is open exactly when HTTPS is enabled |
| ConfigurationDemo.SecurityGroupDecl | demo/03_configuration_demo.py:194-206 | the group carries the given ingress, all egress, and the app and environment in its description |
| ConfigurationDemo.InstanceDecl | demo/03_configuration_demo.py:301-315 | instance `i` is `{app}-{env}-instance-{i+1}`, tagged with its number and ConfigDemo |
| ConfigurationDemo.UserDataFor | demo/03_configuration_demo.py:214-299 | the user data of instance `i` holds both secrets, the number `i+1` (the text of its InstanceNumber tag) and the seven non-secret settings |
| ConfigurationDemo.UserDataAsWritten | demo/03_configuration_demo.py:216-242 | as written, the late-bound loop variable makes every page show `instance_count`; everything else as intended |
| ConfigurationDemo.AsWrittenUserDataMisnumbered | demo/03_configuration_demo.py:216-312 | with two or more instances, as written, the first two pages are identical and the first disagrees with its InstanceNumber tag |
| ConfigurationDemo.PlanInstances | demo/03_configuration_demo.py:213-316 | one instance per configured count, instance `i` as InstanceDecl says, each with the user data of its own number (corrected, see Findings, demo/03_configuration_demo.py:242) |
| ConfigurationDemo.StrList | demo/03_configuration_demo.py:331 | the block list exported as strings, in order |
| ConfigurationDemo.InstanceOutputs | demo/03_configuration_demo.py:344-349 | one deferred attribute per instance, in order |
| ConfigurationDemo.ConfigurationUsed | demo/03_configuration_demo.py:326-334 | the seven non-secret settings, and no secret |
| ConfigurationDemo.Exports | demo/03_configuration_demo.py:323-358 | the five export keys and what each holds |
| ConfigurationDemo.Deploy | demo/03_configuration_demo.py:37-358 | a validation error aborts the run with its message, then an empty zone list raises IndexError; otherwise every network resource and the group are their declarations from the resolved settings, 1 to 10 instances each with the user data of its own number (corrected, see Findings, demo/03_configuration_demo.py:242), and the exports |
| ConfigurationDemo.SameButSecretsFields | demo/03_configuration_demo.py:67-75 | settings that differ only in secrets agree on every other field |
| ConfigurationDemo.SecretsDoNotReachValidation | demo/03_configuration_demo.py:99-107 | the secrets do not affect validation |
| ConfigurationDemo.SecretsDoNotReachResources | demo/03_configuration_demo.py:122-315 | the secrets do not affect the VPC, gateway, subnet, route table, association, security group or any instance record, and the user data differs in the two secrets only |
| ConfigurationDemo.SecretsDoNotReachExports | demo/03_configuration_demo.py:323-358 | the secrets do not affect any export |
| ConfigurationDemo.SecretsReachOnlyUserData | demo/03_configuration_demo.py:67-358 | both secrets reach every instance's user data; changing only them changes neither validation, nor any other resource field, nor the exports |
| PreviewUpdateDemo.ParseFloat | demo/05_preview_update_demo.py:126 | a text `float()` accepts is non-empty after stripping blanks, and the sign is read from its first character |
| PreviewUpdateDemo.ParseUnsigned | demo/05_preview_update_demo.py:126 | an accepted unsigned body is non-empty and gives a non-negative value |
| PreviewUpdateDemo.ParseFloatOfText | demo/05_preview_update_demo.py:126 | every text of the shape blanks, optional sign, digits, optional point and digits (at least one digit), blanks is accepted with the exact value of its digits and sign |
| PreviewUpdateDemo.ParseFloatOnlyShapes | demo/05_preview_update_demo.py:126 | every accepted text has that shape, and its value is the one the shape gives |
| PreviewUpdateDemo.ParsePointed | demo/05_preview_update_demo.py:126 | `w.f` with digit runs `w` and `f` reads as the exact decimal `wf / 10^len(f)` |
| PreviewUpdateDemo.ParseWholeVersion | demo/05_preview_update_demo.py:34 | `"n.0"` reads as the number `n` |
| PreviewUpdateDemo.DecimalValueAppend | demo/05_preview_update_demo.py:126 | appending a digit multiplies the value by ten and adds the digit |
| PreviewUpdateDemo.SplitPointed | demo/05_preview_update_demo.py:126 | digits, a point and digits split at the point into the two runs |
| PreviewUpdateDemo.AtLeastMonotone | demo/05_preview_update_demo.py:126-137 | a larger version passes every threshold a smaller one passes |
| PreviewUpdateDemo.AtLeastThreeImpliesTwo | demo/05_preview_update_demo.py:126-137 | a version at least 3.0 is at least 2.0 |
| PreviewUpdateDemo.BuildBaseIngress | demo/05_preview_update_demo.py:115-144 | the appends build HTTP, then SSH from 2.0, then HTTPS from 3.0 |
| PreviewUpdateDemo.IngressByVersion | demo/05_preview_update_demo.py:115-144 | HTTP comes first; SSH is present exactly from 2.0 and HTTPS exactly from 3.0; the ports in order |
| PreviewUpdateDemo.IngressGrowsWithVersion | demo/05_preview_update_demo.py:115-144 | raising the version only appends rules: the old rule list is a prefix of the new one |
| PreviewUpdateDemo.WholeVersionIngress | demo/05_preview_update_demo.py:125-144 | for version `n.0`, SSH is present exactly when `n >= 2` and HTTPS exactly when `n >= 3` |
| PreviewUpdateDemo.BaseTags | demo/05_preview_update_demo.py:58-63 | Name, Purpose and Version tags |
| PreviewUpdateDemo.VpcDecl | demo/05_preview_update_demo.py:53-64 | the VPC on 10.200.0.0/16 with the base tags and LastUpdate TBD |
| PreviewUpdateDemo.GatewayDecl | demo/05_preview_update_demo.py:66-75 | the gateway attached to the VPC, with the base tags |
| PreviewUpdateDemo.SubnetDecl | demo/05_preview_update_demo.py:77-89 | 10.200.1.0/24 in the first zone, public, with the base tags |
| PreviewUpdateDemo.RouteTableDecl | demo/05_preview_update_demo.py:91-101 | every address routed to the gateway, with the base tags |
| PreviewUpdateDemo.AssociationDecl | demo/05_preview_update_demo.py:103-107 | links the subnet and the route table |
| PreviewUpdateDemo.BucketDecl | demo/05_preview_update_demo.py:170-177 | the bucket with the base tags |
| PreviewUpdateDemo.InstanceDecl | demo/05_preview_update_demo.py:207-330 | the t2.micro instance in the subnet and the group, with the base tags and DeploymentType preview-update-demo |
| PreviewUpdateDemo.FloatError | demo/05_preview_update_demo.py:126 | the message `could not convert string to float: ` followed by the `repr()` of the text |
| PreviewUpdateDemo.FloatErrorQuotesPython | demo/05_preview_update_demo.py:126 | a version holding a single quote is shown in double quotes, a plain one in single quotes |
| PreviewUpdateDemo.BucketPolicyDecl | demo/05_preview_update_demo.py:181-200 | `preview-update-bucket-policy` on the bucket, version `2012-10-17`, one Allow statement for the service principal `cloudtrail.amazonaws.com`, action `s3:PutObject` on the bucket's `logs/*` keys, under the condition StringEquals `s3:x-amz-acl` = `bucket-owner-full-control` |
| PreviewUpdateDemo.BucketPolicyAdmits | demo/05_preview_update_demo.py:186-197 | the policy admits a request exactly when it comes from CloudTrail, is s3:PutObject and carries the ACL `bucket-owner-full-control`; a request without an ACL header is refused |
| PreviewUpdateDemo.SecurityGroupDecl | demo/05_preview_update_demo.py:147-165 | the group sits in the demo VPC, carries the ingress and allow-all egress, names the version in its description, and is tagged with its name, the demo purpose, the version and the rule count |
| PreviewUpdateDemo.SshCommand | demo/05_preview_update_demo.py:387 | a deferred ssh command from 2.0, before that the fixed "not available" text |
| PreviewUpdateDemo.SshCommandMatchesIngress | demo/05_preview_update_demo.py:126-387 | an ssh command is offered exactly when the SSH rule is open |
| PreviewUpdateDemo.ExportsOf | demo/05_preview_update_demo.py:339-398 | exactly the six export keys |
| PreviewUpdateDemo.DeploymentInfo | demo/05_preview_update_demo.py:342-347 | the version as configured, the monitoring flag and the rule count |
| PreviewUpdateDemo.DemoAccess | demo/05_preview_update_demo.py:385-389 | exactly instance_url, ssh_command and s3_bucket: the instance's deferred address, the version's ssh command and the bucket's deferred id |
| PreviewUpdateDemo.Exports | demo/05_preview_update_demo.py:339-398 | the six keys, with the deployment info and the access block above |
| PreviewUpdateDemo.Deploy | demo/05_preview_update_demo.py:34-398 | IndexError without a zone, then ValueError with Python's message for a version `float()` rejects; otherwise the VPC, gateway, subnet, route table, association, bucket and instance are their declarations, the group carries the parsed version's ingress and a matching RulesCount tag, the bucket policy exists exactly with monitoring set to true, and the exports |
| PreviewUpdateDemo.DeployVersion | demo/05_preview_update_demo.py:109-398 | from a parsed version on: the network passed through unchanged, the group with its version's ingress and rule count, the bucket and instance declarations, the policy gated on monitoring, and the exports |
| PreviewUpdateDemo.DefaultDeployment | demo/05_preview_update_demo.py:34-387 | the default version 1.0 opens HTTP only and offers no ssh command |
| PreviewUpdateDemo.NoSshCommandAtOne | demo/05_preview_update_demo.py:387 | at 1.0 the ssh entry is the fixed "not available" text |
| PreviewUpdateDemo.VersionTwo | demo/05_preview_update_demo.py:126-133 | version 2.0 opens HTTP and SSH |
| PreviewUpdateDemo.UpgradeToTwoAddsSsh | demo/05_preview_update_demo.py:126-133 | moving from 1.0 to 2.0 adds exactly the SSH rule |
| Compute.Server | modularity/modules/compute.py:26-176 | `{name}-instance`, t2.micro, in the given subnet and group with the key pair, tagged Name and Type WebServer or Database |
| Compute.ServersDifferOnlyInType | modularity/modules/compute.py:107-171 | the two builders differ only in the Type tag, so equal names collide |
| Compute.MultipleInstances | modularity/modules/compute.py:179-210 | server `i` is `{base}-{i+1}` on subnet `i mod len`; with no subnets and a positive count the modulo raises |
| Compute.CreateMultipleInstances | modularity/modules/compute.py:193-210 | the loop returns exactly what MultipleInstances describes, error included |
| Compute.FanOutNamesDistinct | modularity/modules/compute.py:198-205 | two positions of the fan-out never share a Name tag or a resource name |
| Compute.FanOutSpreadEvenly | modularity/modules/compute.py:195-198 | with distinct subnets, each subnet receives `count / len` servers, one more for the first `count mod len` |
| SecurityGroups.WebSecurityGroup | modularity/modules/security_groups.py:12-70 | tcp 80, 443 and 22 from anywhere in that order, all egress, Type Web |
| SecurityGroups.DatabaseSecurityGroup | modularity/modules/security_groups.py:73-125 | MySQL from the web group with no address block, SSH from anywhere, Type Database |
| SecurityGroups.DatabasePortOnlyFromWebGroup | modularity/modules/security_groups.py:93-108 | some rule covers 3306, and every rule that does names no address block and only the web group |
| SecurityGroups.CustomDescription | modularity/modules/security_groups.py:156 | the given description unless it is unset or empty, then the default text |
| SecurityGroups.CreateCustomSecurityGroup | modularity/modules/security_groups.py:128-173 | one tcp rule per requested port in order, all egress, Type Custom |
| SecurityGroups.WebRulesAreCustomRules | modularity/modules/security_groups.py:31-53 | the web group's rules are those of a custom group for 80, 443, 22 |
| SecurityGroups.GroupNamesDistinct | modularity/modules/security_groups.py:25-154 | the three kinds of group never share a name for one base name |
| ModularityMain.CreateVpc | modularity/modules/networking.py:13-33 | `{name}-vpc` on the given block, tagged with its name |
| ModularityMain.CreateInternetGateway | modularity/modules/networking.py:36-54 | `{name}-igw` attached to the VPC |
| ModularityMain.CreateSubnet | modularity/modules/networking.py:57-112 | public and private subnets differ only in suffix, address mapping and Type tag |
| ModularityMain.SetupPublicRouting | modularity/modules/networking.py:115-148 | an empty route table, a separate default route to the gateway, and the association with the subnet |
| ModularityMain.ProjectName | modularity/__main__.py:20 | the prefix `simple-demo-` followed by the stack name |
| ModularityMain.BlockTexts | modularity/__main__.py:26-45 | the address texts passed are those of the three blocks |
| ModularityMain.WebServerCount | modularity/__main__.py:63-136 | 2 web servers for staging, 3 for prod, 1 for every other stack |
| ModularityMain.NetworkFor | modularity/__main__.py:20-57 | the networking and security-group calls, with their arguments |
| ModularityMain.WebUrls | modularity/__main__.py:96 | one address per web server, in order |
| ModularityMain.AllExports | modularity/__main__.py:138-148 | the branch's exports plus the four common keys |
| ModularityMain.ServersFor | modularity/__main__.py:63-136 | staging and prod fan out 2 or 3 web servers plus a database; every other stack gets one web server; each branch's exports |
| ModularityMain.Program | modularity/__main__.py:20 | the project name is `simple-demo-{stack}` |
| ModularityMain.ProgramExports | modularity/__main__.py:63-148 | each kind of stack exports its branch's keys plus the common four, none replaced, and server_count is the web-server count |
| ModularityMain.BranchKeysNotCommon | modularity/__main__.py:74-141 | no branch key is one of the common keys |
| ModularityMain.NetworkLayout | modularity/__main__.py:26-48 | both subnets are /24s inside the VPC's /16 and disjoint; only the web subnet is public and routed to the gateway |
| ModularityMain.DatabaseReachableOnlyFromWebServers | modularity/__main__.py:54-117 | the database port admits only the web group, every web server is in it, and the database server sits in the private subnet |
| ModularityMain.WebNamesDistinct | modularity/modules/compute.py:198 | no two web servers of a branch share a resource name |
| ModularityMain.ServerNamesDistinct | modularity/__main__.py:63-133 | no two web servers of a stack share a resource name |
| ModularityMain.DatabaseNameDistinct | modularity/__main__.py:81-117 | the database server's name never equals a web server's |
| DemoComponents.EnvironmentTable | pulumi-presentation/demo_components.py:21-43 | three distinct environments, none named like an export key, each naming itself and the shared key pair |
| DemoComponents.ComponentFor | pulumi-presentation/demo_components.py:53 | component `{env}-webserver` built from that environment's configuration |
| DemoComponents.EnvironmentDetails | pulumi-presentation/demo_components.py:56-63 | exactly the six keys website_url, ssh_command, vpc_id, instance_id, instance_type and vpc_cidr; the type and block come from the configuration, and every deferred value reads the component's own instance or VPC |
| DemoComponents.EnvironmentAddresses | pulumi-presentation/demo_components.py:21-43 | entry `i` uses 10.i.0.0/16 and 10.i.1.0/24 |
| DemoComponents.EnvironmentsIsolated | pulumi-presentation/demo_components.py:21-43 | each subnet lies inside its VPC, and two environments' VPCs share no address |
| DemoComponents.ComponentNamesDistinct | pulumi-presentation/demo_components.py:53 | distinct environments get distinct component, VPC and instance names |
| DemoComponents.ServersOf | pulumi-presentation/demo_components.py:46-53 | one component per environment, in table order |
| DemoComponents.DetailsOf | pulumi-presentation/demo_components.py:56-63 | one detail object per environment, in table order |
| DemoComponents.DetailsTable | pulumi-presentation/demo_components.py:47-63 | keyed by exactly the environment names |
| DemoComponents.DetailsTableEntry | pulumi-presentation/demo_components.py:56-63 | each environment's entry holds its own component's details |
| DemoComponents.CreateEnvironments | pulumi-presentation/demo_components.py:46-63 | the loop builds exactly the components and details above |
| DemoComponents.TotalResources | pulumi-presentation/demo_components.py:86-88 | seven resources per environment |
| DemoComponents.CostCategory | pulumi-presentation/demo_components.py:96 | low exactly for t3.micro, medium exactly for t3.small, high for every other type |
| DemoComponents.EnvironmentSummary | pulumi-presentation/demo_components.py:91-99 | one summary per environment, in order |
| DemoComponents.DeploymentSummary | pulumi-presentation/demo_components.py:102-121 | the environment count and seven resources per environment |
| DemoComponents.RoundToCents | pulumi-presentation/demo_components.py:132 | the rounded amount is within half a cent of the exact one |
| DemoComponents.HourlyCost | pulumi-presentation/demo_components.py:128 | a positive rate exactly for t3.micro, t3.small and t3.medium, 0 for any other type (`.get(type, 0)`) |
| DemoComponents.MonthlyCost | pulumi-presentation/demo_components.py:129 | 720 times the hourly rate (24 hours times 30 days) |
| DemoComponents.MonthlyCostCategory | pulumi-presentation/demo_components.py:133 | low below 20 dollars, medium below 50, high from 50 |
| DemoComponents.CostsOf | pulumi-presentation/demo_components.py:124-134 | one cost entry per environment, from its instance type |
| DemoComponents.CostTable | pulumi-presentation/demo_components.py:124-136 | keyed by exactly the environment names |
| DemoComponents.CostTableEntry | pulumi-presentation/demo_components.py:130-134 | each environment's entry is its instance type's cost |
| DemoComponents.CostAnalysis | pulumi-presentation/demo_components.py:124-134 | the loop builds exactly the cost entries |
| DemoComponents.CostCategoriesDisagree | pulumi-presentation/demo_components.py:96-133 | the cost analysis never says high and says medium only for t3.medium, so t3.small is medium in the summary but low in the cost analysis |
| DemoComponents.KnownMonthlyCosts | pulumi-presentation/demo_components.py:128-132 | 7.49, 14.98 and 29.95 dollars a month for the three types |
| DemoComponents.QuickOf | pulumi-presentation/demo_components.py:139-146 | one `{env}_urls` entry per environment, in order |
| DemoComponents.QuickAccess | pulumi-presentation/demo_components.py:139-146 | the loop builds exactly those entries |
| DemoComponents.QuickAccessKeysDistinct | pulumi-presentation/demo_components.py:142 | distinct environments give distinct `_urls` keys |
| DemoComponents.QuickTable | pulumi-presentation/demo_components.py:139-148 | one entry per environment, none lost to a clash |
| DemoComponents.QuickTableEntry | pulumi-presentation/demo_components.py:142-146 | each `{env}_urls` entry holds that environment's addresses |
| DemoComponents.CostCenter | pulumi-presentation/demo_components.py:161 | `CC-` followed by the upper-cased environment name |
| DemoComponents.CostCenterIsUpper | pulumi-presentation/demo_components.py:161 | the cost-center tag is already upper case |
| DemoComponents.EnvironmentSpecificTags | pulumi-presentation/demo_components.py:158-165 | one tag object per environment, in order |
| DemoComponents.EnvironmentTags | pulumi-presentation/demo_components.py:159-163 | exactly the keys Environment, CostCenter and InstanceType, holding the configured environment, `CC-{ENV}` and the configured type |
| DemoComponents.TaggingStrategy | pulumi-presentation/demo_components.py:151-166 | exactly common_tags and environment_specific_tags; the latter has one entry per environment name, each that environment's tags |
| DemoReport.SummaryExports | pulumi-presentation/demo_components.py:102-195 | exactly the five later export keys, each holding its object |
| DemoReport.DeploymentReport | pulumi-presentation/demo_components.py:176-193 | the four keys; the timestamp passed in; the summary quoting the number of environments; the four next steps and the six features |
| DemoReport.ExportsOf | pulumi-presentation/demo_components.py:66-195 | the keys are the environment names, the production extras when enabled and the later summaries; every later summary wins over an environment of the same name, and every other environment name holds its details |
| DemoReport.LaterExports | pulumi-presentation/demo_components.py:102-195 | keyed by exactly the five later exports |
| DemoReport.ProductionExports | pulumi-presentation/demo_components.py:70-83 | production_extras exactly when deploy_production is set to true |
| DemoReport.ExportDetails | pulumi-presentation/demo_components.py:66-67 | the export loop publishes the details dict |
| DemoReport.CostsAndAddresses | pulumi-presentation/demo_components.py:124-148 | the two loops build the cost and quick-access tables |
| DemoReport.Summaries | pulumi-presentation/demo_components.py:86-195 | the summary, cost, access, tagging and report exports |
| DemoReport.LaterFromTables | pulumi-presentation/demo_components.py:124-195 | the later exports are assembled from the two tables the loops build |
| DemoReport.ExportEnvironments | pulumi-presentation/demo_components.py:46-83 | the components, then the environment and production exports |
| DemoReport.Deploy | pulumi-presentation/demo_components.py:21-195 | the whole program: the components and every export in order |
| DemoReport.ExportKeys | pulumi-presentation/demo_components.py:66-195 | the exported keys are the environment names, production_extras when enabled, and the five later keys |
| DemoReport.ExportedDetails | pulumi-presentation/demo_components.py:56-67 | an environment's export holds its own component's details |
| DemoReport.ProductionExtrasGated | pulumi-presentation/demo_components.py:71-81 | production_extras is exported exactly when deploy_production is true |
| DemoReport.ExportedCostsAndUrls | pulumi-presentation/demo_components.py:124-148 | the cost and quick-access exports hold every environment's entry |
| DemoReport.SummaryTotals | pulumi-presentation/demo_components.py:86-195 | the summary counts the environments and seven resources each; the report names the count |
| AdvancedDemo.ResolveSettingsAsWritten | pulumi-presentation/advanced_demo.py:22-27 | environment falls back to demo when unset or empty, the count to 3 when unset or 0, backup to false |
| AdvancedDemo.AsWrittenFlagsAlwaysOn | pulumi-presentation/advanced_demo.py:25-27 | as written, monitoring and cost optimisation are on whatever is configured |
| AdvancedDemo.ResolveSettings | pulumi-presentation/advanced_demo.py:22-27 | the corrected reading: both flags default to true but honour an explicit false |
| AdvancedDemo.ResolveSettingsHonoursFalse | pulumi-presentation/advanced_demo.py:25-27 | an explicit false turns a flag off; in every other case the two readings agree |
| AdvancedDemo.ProfileFor | pulumi-presentation/advanced_demo.py:39-71 | a known environment reads its row, any other the dev row |
| AdvancedDemo.ProfileTable | pulumi-presentation/advanced_demo.py:43-71 | exactly dev, staging and production, with min size at most max size within 1..10; multi-AZ exactly outside dev; open ingress exactly for dev |
| AdvancedDemo.EnvironmentConfig | pulumi-presentation/advanced_demo.py:39-85 | cost optimisation applies outside production only, steps the type down one size, and changes nothing else |
| AdvancedDemo.StepDown | pulumi-presentation/advanced_demo.py:75-79 | one size smaller for t3.medium and t3.small; every other type unchanged |
| AdvancedDemo.UnknownEnvironmentIsDev | pulumi-presentation/advanced_demo.py:39-85 | an unknown environment is configured exactly like dev |
| AdvancedDemo.ProductionNeverCostOptimized | pulumi-presentation/advanced_demo.py:73-83 | production always keeps t3.medium |
| AdvancedDemo.CostOptimizationStepsDownOnce | pulumi-presentation/advanced_demo.py:73-83 | outside production, optimising lowers the size rank by one (not below the smallest) and changes nothing else |
| AdvancedDemo.ProfileSizesBounded | pulumi-presentation/advanced_demo.py:43-71 | `1 <= min_size <= max_size <= 10` in every profile |
| AdvancedDemo.EnvironmentComparison | pulumi-presentation/advanced_demo.py:582-585 | the three environments, each with its configuration |
| AdvancedDemo.ComparisonAgreesWithDeployment | pulumi-presentation/advanced_demo.py:582-585 | the comparison's entry for the deployed environment is the configuration used |
| AdvancedDemo.VpcDecl | pulumi-presentation/advanced_demo.py:91-103 | the VPC on 10.100.0.0/16 with exactly the tags Name, Environment, ManagedBy, CostOptimized, Region and Account, holding the environment, the cost-optimised flag, the region and the account |
| AdvancedDemo.SelectAzs | pulumi-presentation/advanced_demo.py:110 | up to three leading zones when multi-AZ, else the first zone alone; IndexError when that is missing |
| AdvancedDemo.SubnetCidr | pulumi-presentation/advanced_demo.py:116 | `10.100.{i+1}.0/24` |
| AdvancedDemo.SubnetDecl | pulumi-presentation/advanced_demo.py:114-131 | subnet `i` in its zone, with its block and its CIDR and AZ tags |
| AdvancedDemo.PlanSubnets | pulumi-presentation/advanced_demo.py:114-131 | one subnet per selected zone, in order |
| AdvancedDemo.SubnetInsideVpc | pulumi-presentation/advanced_demo.py:93-116 | each subnet block is a valid /24 inside the VPC |
| AdvancedDemo.SubnetsDisjoint | pulumi-presentation/advanced_demo.py:116 | two subnets share no address |
| AdvancedDemo.GatewayDecl | pulumi-presentation/advanced_demo.py:134-140 | the gateway attached to the VPC |
| AdvancedDemo.Routes | pulumi-presentation/advanced_demo.py:143-156 | a default route, plus 192.168.0.0/16 in production, both to the gateway |
| AdvancedDemo.RouteTableDecl | pulumi-presentation/advanced_demo.py:158-166 | `advanced-rt` in the VPC with the routes; the RouteCount tag is the route count: 2 in production, else 1 |
| AdvancedDemo.PlanAssociations | pulumi-presentation/advanced_demo.py:169-174 | association `i` is `advanced-rt-assoc-{i}` linking subnet `i` and the route table |
| AdvancedDemo.AssociationFor | pulumi-presentation/advanced_demo.py:169-174 | `advanced-rt-assoc-{i}` linking the given subnet and route table |
| AdvancedDemo.BuildSecurityRules | pulumi-presentation/advanced_demo.py:177-200 | HTTP, HTTPS, SSH, then the monitoring ports when enabled, then the health check above two instances |
| AdvancedDemo.SecurityRules | pulumi-presentation/advanced_demo.py:177-200 | HTTP, HTTPS and SSH first, two monitoring ports when monitoring is on and 8080 above two instances; only SSH carries blocks, exactly the allowed CIDR |
| AdvancedDemo.SecurityRulePorts | pulumi-presentation/advanced_demo.py:177-200 | the rule count and each rule's port |
| AdvancedDemo.SecurityRulesMonotone | pulumi-presentation/advanced_demo.py:177-200 | turning monitoring on or raising the count above two only adds rules |
| AdvancedDemo.ToIngress | pulumi-presentation/advanced_demo.py:207-215 | a rule becomes a single-port ingress from its own blocks, or anywhere when it names none |
| AdvancedDemo.IngressFrom | pulumi-presentation/advanced_demo.py:207-215 | one ingress per rule, in order |
| AdvancedDemo.IngressSources | pulumi-presentation/advanced_demo.py:177-215 | only SSH is limited to the profile's block; every other port is open to anywhere |
| AdvancedDemo.SecurityGroupDecl | pulumi-presentation/advanced_demo.py:204-228 | the ingress, all egress, and the RuleCount and MonitoringEnabled tags |
| AdvancedDemo.InstanceDecl | pulumi-presentation/advanced_demo.py:250-283 | instance `i` with the profile's type, the key pair, monitoring only when both flags allow it, numbered `i+1` |
| AdvancedDemo.PlanInstances | pulumi-presentation/advanced_demo.py:250-284 | instance `i` on subnet and zone `i mod len`; with no subnets and a positive count the modulo raises |
| AdvancedDemo.InstanceNamesDistinct | pulumi-presentation/advanced_demo.py:264 | two instances never share a name |
| AdvancedDemo.SubnetRefsDistinct | pulumi-presentation/advanced_demo.py:114-131 | the subnets are named distinctly, so their references are distinct |
| AdvancedDemo.InstancesSpreadEvenly | pulumi-presentation/advanced_demo.py:249-254 | subnet `k` receives `count / n` instances, one more for the first `count mod n` subnets |
| AdvancedDemo.AttachmentFor | pulumi-presentation/advanced_demo.py:502-509 | `advanced-tg-attachment-{i}` registering the instance on port 80 |
| AdvancedDemo.PlanTargetAttachments | pulumi-presentation/advanced_demo.py:502-509 | one attachment per instance, attachment `i` as AttachmentFor says |
| AdvancedDemo.SubnetRefs | pulumi-presentation/advanced_demo.py:468 | one reference per subnet, in order |
| AdvancedDemo.DetailAt | pulumi-presentation/advanced_demo.py:565-577 | number `i+1`, the instance's name, deferred public_ip and id, its zone and block taken `i mod len`, the monitoring flag and the website and ssh addresses |
| AdvancedDemo.InstanceDetails | pulumi-presentation/advanced_demo.py:564-579 | one entry per instance, entry `i` as DetailAt says |
| AdvancedDemo.Summarise | pulumi-presentation/advanced_demo.py:462-579 | load balancing exactly above one instance, over every subnet and with attachment `i` for instance `i`; the five statistics; the detail list |
| AdvancedDemo.MetadataFor | pulumi-presentation/advanced_demo.py:535-541 | the engine's timestamp, the environment, the region, the account and pulumi_version `3.x` |
| AdvancedDemo.ConfigurationFor | pulumi-presentation/advanced_demo.py:549-555 | the profile in use, the monitoring, backup and cost flags, and multi_az_deployment equal to the profile's multi-AZ |
| AdvancedDemo.EstimatedCosts | pulumi-presentation/advanced_demo.py:556-560 | the profile's instance type and cost-optimised flag |
| AdvancedDemo.KeyAchievements | pulumi-presentation/advanced_demo.py:638-645 | six lines; the first three quote the instance count, the zone count, the environment and the rule count; the last three are fixed |
| AdvancedDemo.ReportFor | pulumi-presentation/advanced_demo.py:534-645 | the metadata given, and the configuration, cost and key-achievement blocks for the settings, profile, zones and rules |
| AdvancedDemo.SummaryAgreesWithDeployment | pulumi-presentation/advanced_demo.py:530-645 | in a deployment, the configuration block holds the profile used, the cost block names the type every instance runs, and the achievements quote the exported instance, zone and rule statistics |
| AdvancedDemo.DetailsMatchPlacement | pulumi-presentation/advanced_demo.py:250-579 | the exported zone and block of an instance are those of the subnet it was placed in |
| AdvancedDemo.PlanNetwork | pulumi-presentation/advanced_demo.py:114-174 | one subnet per zone as SubnetDecl says, the gateway and route table declarations, association `i` linking subnet `i` and the route table |
| AdvancedDemo.PlanSecurity | pulumi-presentation/advanced_demo.py:177-228 | the rule list and the group declared from it |
| AdvancedDemo.DeployInZones | pulumi-presentation/advanced_demo.py:114-585 | after zone selection: fails with ZeroDivisionError exactly when instances are wanted and no zone is left; otherwise every subnet, route, rule, group, instance, attachment, statistic, detail and the comparison as the declarations above say, and the summary report given |
| AdvancedDemo.DeployInstances | pulumi-presentation/advanced_demo.py:248-585 | given the declared network and group, the same outcome as DeployInZones |
| AdvancedDemo.Deploy | pulumi-presentation/advanced_demo.py:39-585 | the corrected script: fails exactly when no zone is available and either multi-AZ is off (IndexError) or instances are wanted (ZeroDivisionError); otherwise at most three selected zones and every resource and summary built from them as DeployInZones says, with the metadata of the run and the report blocks as ReportFor gives them |
| AdvancedDemo.RunAsWritten | pulumi-presentation/advanced_demo.py:250-286 | the script as written always fails |
| AdvancedDemo.AsWrittenFailsWithNameError | pulumi-presentation/advanced_demo.py:262-286 | with a zone available, that failure is a NameError |

## Left out

- The Pulumi engine and the AWS provider: creating, updating, previewing and destroying resources, the dependency graph and state files. A resource identifier (`x.id`, `x.arn`) is a reference to the resource's logical name.
- Look-ups made through the provider are parameters of the model: AMIs, availability zones, region and caller identity. The AMI ids chosen are not modelled.
- `print` output, and the user-data scripts and HTML pages as text. The configuration demo's user data is modelled as the values interpolated into it (ConfigurationDemo.UserData); the other programs' user data is not modelled.
- `enable_dns_hostnames` / `enable_dns_support` on VPCs, `associate_public_ip_address` and `enable_deletion_protection`: fixed literal flags with no logic behind them.
- AdvancedDemo.Summarise: the load balancer's listener, the target group's health-check settings and the load_balancer_info DNS values are not modelled. Only the balancer's presence, its subnets and its attachments are.
- AdvancedDemo.Deploy: `monthly_estimate_usd` is left out of `estimated_costs`, because `calculate_monthly_cost` (pulumi-presentation/advanced_demo.py:614-627) is float arithmetic. The timestamp, region and account are parameters, not data sources.
- AdvancedDemo.Deploy: the fixed texts are not modelled. These are the `pulumi_advantages_demonstrated` export (pulumi-presentation/advanced_demo.py:588-612) and, in `demo_summary`, the title, `next_steps` and `presentation_talking_points` (636-660). The key achievements are modelled.
- PreviewUpdateDemo.ParseFloat: covers plain decimal notation only (blanks, an optional sign, digits with at most one point). Exponents, `inf`/`nan`, underscores and non-ASCII digits, which Python's `float()` also accepts, read as errors here.
- PreviewUpdateDemo.ParseFloat: the value is the exact decimal, not the nearest binary float. The two can fall on different sides of a threshold: `float("1.99999999999999999")` rounds to 2.0, so the program opens SSH, while the exact value is below 2 and the model does not.
- PyText.Repr: escapes ASCII control characters only. Python's `repr()` also escapes non-printable non-ASCII characters.
- DemoComponents.MonthlyCostCategory: costs are exact decimals (1/10000 dollar units), not binary floats. For the three listed types the exact monthly amounts (7.488, 14.976 and 29.952 dollars) lie far from a rounding boundary.
- PyText.Upper: ASCII letters only. Python's `upper()` also maps non-ASCII letters and can change the length.
- The `ssh_command` lambda at pulumi-presentation/demo_components.py:58 reads `config` only when the address resolves, after the later loops have rebound it to another entry. The model uses the loop entry's own key name. Every entry has the same key name, and callback timing belongs to the engine.
- Configuration type errors (a non-integer `instance_count`, a non-boolean flag) are not modelled. Settings arrive already typed, as `Option` values.
- Secrets are modelled as plain strings. Pulumi's secret marking and encryption are not modelled: both secrets reach every instance's user data in clear, and ConfigurationDemo.SecretsReachOnlyUserData states that they reach no other resource field and no export.

## Findings

| source | as written | input that shows it | evidently intended | confidence | as-written member | corrected member |
|---|---|---|---|---|---|---|
| pulumi-presentation/advanced_demo.py:262 | `generate_advanced_user_data` is called inside the instance loop but defined at line 286, and `calculate_monthly_cost` is called at line 532 but defined at line 614, so the module-level script raises NameError | any configuration with at least one availability zone, e.g. the defaults (3 instances) | define both functions before the code that calls them | not executed | AdvancedDemo.AsWrittenFailsWithNameError | AdvancedDemo.Deploy |
| demo/03_configuration_demo.py:242 | the user-data lambda reads the loop variable `i` when it runs, after the loop has finished, so every page shows `Instance {instance_count}` | `instance_count = 2`: both pages say Instance 2 while the first instance's InstanceNumber tag is 1 | each page shows its own number `i+1` | not executed | ConfigurationDemo.AsWrittenUserDataMisnumbered | ConfigurationDemo.UserDataFor |
| pulumi-presentation/advanced_demo.py:25 | `config.get_bool("enable_monitoring") or True` (and `cost_optimization` at line 27) is true whatever is configured, so the flags cannot be switched off | `enable_monitoring = false` in the stack configuration | default to true when unset, but honour an explicit false | not executed | AdvancedDemo.AsWrittenFlagsAlwaysOn | AdvancedDemo.ResolveSettingsHonoursFalse |
