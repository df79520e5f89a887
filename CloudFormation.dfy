/**
 * The CloudFormation template the AWS relay is deployed from
 * (src/aws/cloudformation.rs): a VPC with one public subnet and an internet
 * gateway, a security group open only to WireGuard from the origin and to the
 * ingress port, an instance role allowed to delete its own stack, the relay
 * instance, a wait condition for its readiness signal, and the DNS record.
 */
module CloudFormation {
  import opened Wrappers
  import opened Text
  import opened Json

  type Port = x: nat | x < 0x1_0000

  /** The WireGuard listen port of the relay. */
  const WireGuardPort: Port := 51820

  /** The fields of `CloudFormationTemplate`. */
  datatype Template = Template(
    stackName: string,
    region: string,
    ingressHost: string,
    ingressPort: Port,
    ingressProtocol: string,
    originHost: string,
    originPort: Port,
    originIp: string,
    instanceType: string,
    proxyWgPrivateKey: string,
    proxyWgPublicKey: string,
    originWgPublicKey: string,
    presharedKey: string,
    debug: bool)

  // ---------------------------------------------------------------------------
  // JSON building blocks

  function Ref(name: string): Json {
    Object(map["Ref" := Str(name)])
  }

  function GetAtt(resource: string, attribute: string): Json {
    Object(map["Fn::GetAtt" := Array([Str(resource), Str(attribute)])])
  }

  function NameTags(name: string): Json {
    Array([Object(map["Key" := Str("Name"), "Value" := Str(name)])])
  }

  /** The Name tag value of a resource: "outpost-" + stack name + suffix. */
  function TagName(t: Template, suffix: string): string {
    "outpost-" + t.stackName + suffix
  }

  // ---------------------------------------------------------------------------
  // Security group, architecture, user data

  /** `generate_security_group_rules`: WireGuard from the origin's address,
      then the ingress port from anywhere. */
  function SecurityGroupRules(t: Template): Json {
    Array([
      Object(map[
        "IpProtocol" := Str("udp"),
        "FromPort" := Number(WireGuardPort),
        "ToPort" := Number(WireGuardPort),
        "CidrIp" := Str(t.originIp + "/32"),
        "Description" := Str("WireGuard from origin")]),
      Object(map[
        "IpProtocol" := Str(t.ingressProtocol),
        "FromPort" := Number(t.ingressPort),
        "ToPort" := Number(t.ingressPort),
        "CidrIp" := Str("0.0.0.0/0"),
        "Description" := Str("Ingress traffic")])
    ])
  }

  /** `get_architecture`. */
  function Architecture(instanceType: string): string {
    if StartsWith(instanceType, "t4g.") || StartsWith(instanceType, "a1.")
       || StartsWith(instanceType, "m6g.") || StartsWith(instanceType, "m7g.")
       || StartsWith(instanceType, "c6g.") || StartsWith(instanceType, "c7g.")
       || StartsWith(instanceType, "r6g.") || StartsWith(instanceType, "r7g.")
       || StartsWith(instanceType, "g5g.")
    then "arm64"
    else "x86_64"
  }

  /** The Graviton instance families. */
  const ArmFamilies: seq<string> := ["t4g.", "a1.", "m6g.", "m7g.", "c6g.", "c7g.", "r6g.", "r7g.", "g5g."]

  /** "arm64" exactly for the instance types of an ARM family, "x86_64" for
      every other. */
  lemma ArchitectureByFamily(instanceType: string)
    ensures Architecture(instanceType) == "arm64"
            <==> exists k :: 0 <= k < |ArmFamilies| && StartsWith(instanceType, ArmFamilies[k])
    ensures Architecture(instanceType) == "arm64" || Architecture(instanceType) == "x86_64"
  {
    if Architecture(instanceType) == "arm64" {
      if StartsWith(instanceType, "t4g.") { assert StartsWith(instanceType, ArmFamilies[0]); }
      else if StartsWith(instanceType, "a1.") { assert StartsWith(instanceType, ArmFamilies[1]); }
      else if StartsWith(instanceType, "m6g.") { assert StartsWith(instanceType, ArmFamilies[2]); }
      else if StartsWith(instanceType, "m7g.") { assert StartsWith(instanceType, ArmFamilies[3]); }
      else if StartsWith(instanceType, "c6g.") { assert StartsWith(instanceType, ArmFamilies[4]); }
      else if StartsWith(instanceType, "c7g.") { assert StartsWith(instanceType, ArmFamilies[5]); }
      else if StartsWith(instanceType, "r6g.") { assert StartsWith(instanceType, ArmFamilies[6]); }
      else if StartsWith(instanceType, "r7g.") { assert StartsWith(instanceType, ArmFamilies[7]); }
      else { assert StartsWith(instanceType, ArmFamilies[8]); }
    }
  }

  /** The two architecture cases the source's tests check. */
  lemma ArchitectureExamples()
    ensures Architecture("t3.micro") == "x86_64"
    ensures Architecture("t4g.nano") == "arm64"
  {
    assert StartsWith("t4g.nano", "t4g.");
    DiffersAt("t3.micro", "t4g.", 1);
    DiffersAt("t3.micro", "a1.", 0);
    DiffersAt("t3.micro", "m6g.", 0);
    DiffersAt("t3.micro", "m7g.", 0);
    DiffersAt("t3.micro", "c6g.", 0);
    DiffersAt("t3.micro", "c7g.", 0);
    DiffersAt("t3.micro", "r6g.", 0);
    DiffersAt("t3.micro", "r7g.", 0);
    DiffersAt("t3.micro", "g5g.", 0);
  }

  /** The first substitution of `generate_userdata`: the debug switch. */
  function DebugSwitched(t: Template, nix: string): string {
    Replace(nix, "debug = false", "debug = " + (if t.debug then "true" else "false"))
  }

  /** The texts the placeholders are replaced by, in the order of
      `Placeholders`. */
  function FieldTexts(t: Template): (texts: seq<string>)
    ensures |texts| == |Placeholders|
  {
    [t.proxyWgPrivateKey, t.ingressProtocol, NatToString(t.ingressPort), NatToString(t.originPort),
     t.originWgPublicKey, t.presharedKey, t.originIp, t.stackName, t.region]
  }

  /** The placeholder substitutions of `generate_userdata`, in the order they
      are made: each placeholder with its field's text. */
  function Substitutions(t: Template): (subs: seq<(string, string)>)
    ensures |subs| == |Placeholders|
    ensures forall k :: 0 <= k < |subs| ==> subs[k].0 == Placeholders[k] && subs[k].1 == FieldTexts(t)[k]
  {
    seq(|Placeholders|, k requires 0 <= k < |Placeholders| => (Placeholders[k], FieldTexts(t)[k]))
  }

  /** `generate_userdata` over the Nix template text: the debug switch, then
      the placeholders in order. */
  function UserData(t: Template, nix: string): string {
    ReplaceAll(DebugSwitched(t, nix), Substitutions(t))
  }

  /** "debug = false" is rewritten to "debug = true" exactly when debug is set;
      otherwise the template passes the first step unchanged. */
  lemma DebugSwitch(t: Template, nix: string)
    ensures DebugSwitched(t, nix) == if t.debug then Replace(nix, "debug = false", "debug = true") else nix
  {
    if t.debug {
      assert "debug = " + "true" == "debug = true";
    } else {
      assert "debug = " + "false" == "debug = false";
      ReplaceSelf(nix, "debug = false");
    }
  }

  /** The placeholders, in substitution order. */
  const Placeholders: seq<string> := [
    "{PROXY_WG_PRIVATE_KEY}", "{PROTOCOL}", "{INGRESS_PORT}", "{ORIGIN_PORT}", "{ORIGIN_WG_PUBLIC_KEY}",
    "{PRESHARED_KEY}", "{ORIGIN_IP}", "{STACK_NAME}", "{REGION}"
  ]

  /** A template with no placeholder and no debug switch in it passes through
      unchanged. */
  lemma UserDataWithoutPlaceholders(t: Template, nix: string)
    requires !Contains(nix, "debug = false")
    requires forall k :: 0 <= k < |Placeholders| ==> !Contains(nix, Placeholders[k])
    ensures UserData(t, nix) == nix
  {
    ReplaceAbsent(nix, "debug = false", "debug = " + (if t.debug then "true" else "false"));
    var subs := Substitutions(t);
    forall k | 0 <= k < |subs|
      ensures subs[k].0 != [] && !Contains(nix, subs[k].0)
    {
      assert subs[k].0 == Placeholders[k];
    }
    ReplaceAllAbsent(nix, subs);
  }

  /** A template holding one placeholder and no debug switch gets exactly
      that placeholder replaced by its field, provided the field's text brings
      in no placeholder substituted after it. */
  lemma OnePlaceholder(t: Template, nix: string, k: nat)
    requires k < |Placeholders| && !Contains(nix, "debug = false")
    requires forall j :: 0 <= j < |Placeholders| && j != k ==> !Contains(nix, Placeholders[j])
    requires forall j :: k < j < |Placeholders| ==> !Contains(Replace(nix, Placeholders[k], FieldTexts(t)[k]), Placeholders[j])
    ensures UserData(t, nix) == Replace(nix, Placeholders[k], FieldTexts(t)[k])
  {
    ReplaceAbsent(nix, "debug = false", "debug = " + (if t.debug then "true" else "false"));
    var subs := Substitutions(t);
    var replaced := Replace(nix, Placeholders[k], FieldTexts(t)[k]);
    assert subs == subs[..k] + subs[k..];
    ReplaceAllConcat(nix, subs[..k], subs[k..]);
    var earlier := subs[..k];
    forall j | 0 <= j < |earlier|
      ensures earlier[j].0 != [] && !Contains(nix, earlier[j].0)
    {
      assert earlier[j].0 == Placeholders[j];
    }
    ReplaceAllAbsent(nix, earlier);
    assert subs[k..][0] == (Placeholders[k], FieldTexts(t)[k]);
    var later := subs[k + 1..];
    assert subs[k..][1..] == later;
    forall j | 0 <= j < |later|
      ensures later[j].0 != [] && !Contains(replaced, later[j].0)
    {
      assert later[j].0 == Placeholders[k + 1 + j];
    }
    ReplaceAllAbsent(replaced, later);
  }

  /** Every placeholder starts with '{' and holds no lower-case letter. */
  lemma PlaceholderLetters(c: char)
    requires 'a' <= c <= 'z'
    ensures forall k :: 0 <= k < |Placeholders| ==> Placeholders[k] != [] && Placeholders[k][0] == '{' && c !in Placeholders[k]
  {
  }

  /** A text that starts with a lower-case letter and holds no '{' survives
      every placeholder substitution. */
  lemma SurvivesSubstitutions(t: Template, s: string, w: string)
    requires w != [] && 'a' <= w[0] <= 'z' && '{' !in w && Contains(s, w)
    ensures Contains(ReplaceAll(s, Substitutions(t)), w)
  {
    PlaceholderLetters(w[0]);
    ReplaceAllKeeps(s, Substitutions(t), w);
  }

  /** With debug set, a template holding "debug = false" yields user data
      holding "debug = true". */
  lemma DebugEnabled(t: Template, nix: string)
    requires t.debug && Contains(nix, "debug = false")
    ensures Contains(UserData(t, nix), "debug = true")
  {
    DebugSwitch(t, nix);
    ReplaceIntroduces(nix, "debug = false", "debug = true");
    SurvivesSubstitutions(t, DebugSwitched(t, nix), "debug = true");
  }

  /** With debug unset, "debug = false" stays in the user data. */
  lemma DebugDisabled(t: Template, nix: string)
    requires !t.debug && Contains(nix, "debug = false")
    ensures Contains(UserData(t, nix), "debug = false")
  {
    DebugSwitch(t, nix);
    SurvivesSubstitutions(t, nix, "debug = false");
  }

  // ---------------------------------------------------------------------------
  // The resources

  function VpcResource(t: Template): Json {
    Object(map[
      "Type" := Str("AWS::EC2::VPC"),
      "Properties" := Object(map[
        "CidrBlock" := Str("10.0.0.0/16"),
        "EnableDnsHostnames" := Bool(true),
        "EnableDnsSupport" := Bool(true),
        "Tags" := NameTags(TagName(t, ""))])])
  }

  function InternetGatewayResource(t: Template): Json {
    Object(map[
      "Type" := Str("AWS::EC2::InternetGateway"),
      "Properties" := Object(map["Tags" := NameTags(TagName(t, "-igw"))])])
  }

  const AttachGatewayResource: Json :=
    Object(map[
      "Type" := Str("AWS::EC2::VPCGatewayAttachment"),
      "Properties" := Object(map["VpcId" := Ref("VPC"), "InternetGatewayId" := Ref("InternetGateway")])])

  function PublicSubnetResource(t: Template): Json {
    Object(map[
      "Type" := Str("AWS::EC2::Subnet"),
      "Properties" := Object(map[
        "VpcId" := Ref("VPC"),
        "CidrBlock" := Str("10.0.1.0/24"),
        "MapPublicIpOnLaunch" := Bool(true),
        "Tags" := NameTags(TagName(t, "-public"))])])
  }

  function PublicRouteTableResource(t: Template): Json {
    Object(map[
      "Type" := Str("AWS::EC2::RouteTable"),
      "Properties" := Object(map["VpcId" := Ref("VPC"), "Tags" := NameTags(TagName(t, "-public-rt"))])])
  }

  const PublicRouteResource: Json :=
    Object(map[
      "Type" := Str("AWS::EC2::Route"),
      "DependsOn" := Str("AttachGateway"),
      "Properties" := Object(map[
        "RouteTableId" := Ref("PublicRouteTable"),
        "DestinationCidrBlock" := Str("0.0.0.0/0"),
        "GatewayId" := Ref("InternetGateway")])])

  const SubnetRouteTableAssociationResource: Json :=
    Object(map[
      "Type" := Str("AWS::EC2::SubnetRouteTableAssociation"),
      "Properties" := Object(map["SubnetId" := Ref("PublicSubnet"), "RouteTableId" := Ref("PublicRouteTable")])])

  function SecurityGroupResource(t: Template): Json {
    Object(map[
      "Type" := Str("AWS::EC2::SecurityGroup"),
      "Properties" := Object(map[
        "GroupDescription" := Str("Allow WireGuard and ingress traffic only"),
        "VpcId" := Ref("VPC"),
        "SecurityGroupIngress" := SecurityGroupRules(t),
        "SecurityGroupEgress" := Array([Object(map[
          "IpProtocol" := Str("-1"),
          "CidrIp" := Str("0.0.0.0/0"),
          "Description" := Str("Allow all outbound")])]),
        "Tags" := NameTags(TagName(t, "-sg"))])])
  }

  /** The actions the instance role may perform on CloudFormation. */
  const SelfDestructActions: seq<string> := [
    "cloudformation:DeleteStack",
    "cloudformation:DescribeStacks",
    "cloudformation:DescribeStackResource"
  ]

  /** The ARN pattern of the stack itself. */
  const OwnStackArn := "arn:aws:cloudformation:${AWS::Region}:${AWS::AccountId}:stack/${AWS::StackName}/*"

  const SelfDestructPolicy: Json :=
    Object(map[
      "PolicyName" := Str("SelfDestructPolicy"),
      "PolicyDocument" := Object(map[
        "Version" := Str("2012-10-17"),
        "Statement" := Array([Object(map[
          "Effect" := Str("Allow"),
          "Action" := Array([Str(SelfDestructActions[0]), Str(SelfDestructActions[1]), Str(SelfDestructActions[2])]),
          "Resource" := Object(map["Fn::Sub" := Str(OwnStackArn)])])])])])

  const EC2RoleResource: Json :=
    Object(map[
      "Type" := Str("AWS::IAM::Role"),
      "Properties" := Object(map[
        "AssumeRolePolicyDocument" := Object(map[
          "Version" := Str("2012-10-17"),
          "Statement" := Array([Object(map[
            "Effect" := Str("Allow"),
            "Principal" := Object(map["Service" := Str("ec2.amazonaws.com")]),
            "Action" := Str("sts:AssumeRole")])])]),
        "Policies" := Array([SelfDestructPolicy])])])

  const InstanceProfileResource: Json :=
    Object(map[
      "Type" := Str("AWS::IAM::InstanceProfile"),
      "Properties" := Object(map["Roles" := Array([Ref("EC2Role")])])])

  function ProxyInstanceResource(t: Template, nix: string): Json {
    Object(map[
      "Type" := Str("AWS::EC2::Instance"),
      "DependsOn" := Str("AttachGateway"),
      "Properties" := Object(map[
        "InstanceType" := Str(t.instanceType),
        "ImageId" := Ref("NixOSAMI"),
        "SubnetId" := Ref("PublicSubnet"),
        "SecurityGroupIds" := Array([Ref("SecurityGroup")]),
        "IamInstanceProfile" := Ref("InstanceProfile"),
        "UserData" := Object(map["Fn::Base64" := Str(UserData(t, nix))]),
        "Tags" := NameTags(TagName(t, "-proxy"))])])
  }

  const WaitHandleResource: Json :=
    Object(map["Type" := Str("AWS::CloudFormation::WaitConditionHandle")])

  const WaitConditionResource: Json :=
    Object(map[
      "Type" := Str("AWS::CloudFormation::WaitCondition"),
      "DependsOn" := Str("ProxyInstance"),
      "Properties" := Object(map["Handle" := Ref("WaitHandle"), "Timeout" := Str("600"), "Count" := Number(1)])])

  function DnsRecordResource(t: Template): Json {
    Object(map[
      "Type" := Str("AWS::Route53::RecordSet"),
      "DependsOn" := Str("WaitCondition"),
      "Properties" := Object(map[
        "HostedZoneId" := Ref("HostedZoneId"),
        "Name" := Str(t.ingressHost + "."),
        "Type" := Str("A"),
        "TTL" := Str("60"),
        "ResourceRecords" := Array([GetAtt("ProxyInstance", "PublicIp")])])])
  }

  /** The Resources section: each logical name with its resource. */
  function ResourceMap(vpc: Json, igw: Json, attach: Json, subnet: Json, routeTable: Json, route: Json,
                       association: Json, securityGroup: Json, role: Json, profile: Json, instance: Json,
                       waitHandle: Json, waitCondition: Json, dns: Json): map<string, Json> {
    map[
      "VPC" := vpc,
      "InternetGateway" := igw,
      "AttachGateway" := attach,
      "PublicSubnet" := subnet,
      "PublicRouteTable" := routeTable,
      "PublicRoute" := route,
      "SubnetRouteTableAssociation" := association,
      "SecurityGroup" := securityGroup,
      "EC2Role" := role,
      "InstanceProfile" := profile,
      "ProxyInstance" := instance,
      "WaitHandle" := waitHandle,
      "WaitCondition" := waitCondition,
      "DNSRecord" := dns]
  }

  function Resources(t: Template, nix: string): map<string, Json> {
    ResourceMap(VpcResource(t), InternetGatewayResource(t), AttachGatewayResource, PublicSubnetResource(t),
                PublicRouteTableResource(t), PublicRouteResource, SubnetRouteTableAssociationResource,
                SecurityGroupResource(t), EC2RoleResource, InstanceProfileResource, ProxyInstanceResource(t, nix),
                WaitHandleResource, WaitConditionResource, DnsRecordResource(t))
  }

  const Parameters: Json :=
    Object(map[
      "HostedZoneId" := Object(map["Type" := Str("String"), "Description" := Str("Route53 Hosted Zone ID for DNS record")]),
      "NixOSAMI" := Object(map["Type" := Str("AWS::EC2::Image::Id"), "Description" := Str("NixOS AMI ID")])])

  function Outputs(t: Template): Json {
    Object(map[
      "ProxyPublicIP" := Object(map[
        "Description" := Str("Public IP of the proxy instance"),
        "Value" := GetAtt("ProxyInstance", "PublicIp")]),
      "DNSName" := Object(map[
        "Description" := Str("DNS name for the proxy"),
        "Value" := Str(t.ingressHost)])])
  }

  /** `CloudFormationTemplate::generate`, before serialisation; `nix` is the
      text of templates/proxy.nix. */
  function Generate(t: Template, nix: string): Json {
    Object(map[
      "AWSTemplateFormatVersion" := Str("2010-09-09"),
      "Description" := Str("Outpost AWS Proxy with VPC, WireGuard, and self-destruct"),
      "Parameters" := Parameters,
      "Resources" := Object(Resources(t, nix)),
      "Outputs" := Outputs(t)])
  }

  // ---------------------------------------------------------------------------
  // Properties of the template

  const ResourceNames: set<string> := {
    "VPC", "InternetGateway", "AttachGateway", "PublicSubnet", "PublicRouteTable", "PublicRoute",
    "SubnetRouteTableAssociation", "SecurityGroup", "EC2Role", "InstanceProfile", "ProxyInstance",
    "WaitHandle", "WaitCondition", "DNSRecord"
  }

  /** The resource at `name` in the generated template. */
  function Resource(t: Template, nix: string, name: string): Option<Json> {
    At(Generate(t, nix), ["Resources", name])
  }

  lemma ResourceLookup(t: Template, nix: string, name: string)
    ensures Resource(t, nix, name) == if name in Resources(t, nix) then Some(Resources(t, nix)[name]) else None
  {
    var g := Generate(t, nix);
    assert Field(g, "Resources") == Some(Object(Resources(t, nix)));
    assert ["Resources", name][1..] == [name];
    assert At(g, ["Resources", name]) == At(Object(Resources(t, nix)), [name]);
    assert [name][1..] == [];
  }

  /** The template declares exactly these fourteen resources. */
  lemma ResourceSet(t: Template, nix: string)
    ensures Resources(t, nix).Keys == ResourceNames
  {
    ResourceMapKeys(VpcResource(t), InternetGatewayResource(t), AttachGatewayResource, PublicSubnetResource(t),
                    PublicRouteTableResource(t), PublicRouteResource, SubnetRouteTableAssociationResource,
                    SecurityGroupResource(t), EC2RoleResource, InstanceProfileResource, ProxyInstanceResource(t, nix),
                    WaitHandleResource, WaitConditionResource, DnsRecordResource(t));
  }

  lemma ResourceMapKeys(vpc: Json, igw: Json, attach: Json, subnet: Json, routeTable: Json, route: Json,
                        association: Json, securityGroup: Json, role: Json, profile: Json, instance: Json,
                        waitHandle: Json, waitCondition: Json, dns: Json)
    ensures ResourceMap(vpc, igw, attach, subnet, routeTable, route, association, securityGroup, role, profile,
                        instance, waitHandle, waitCondition, dns).Keys == ResourceNames
  {
    var m := ResourceMap(vpc, igw, attach, subnet, routeTable, route, association, securityGroup, role, profile,
                         instance, waitHandle, waitCondition, dns);
    assert ResourceNames <= m.Keys;
    assert m.Keys <= ResourceNames;
  }

  /** Every Name tag is "outpost-" + stack name + the resource's suffix. */
  lemma NameTagsFollowStackName(t: Template, nix: string)
    ensures At(VpcResource(t), ["Properties", "Tags"]) == Some(NameTags("outpost-" + t.stackName))
    ensures At(InternetGatewayResource(t), ["Properties", "Tags"]) == Some(NameTags("outpost-" + t.stackName + "-igw"))
    ensures At(PublicSubnetResource(t), ["Properties", "Tags"]) == Some(NameTags("outpost-" + t.stackName + "-public"))
    ensures At(PublicRouteTableResource(t), ["Properties", "Tags"]) == Some(NameTags("outpost-" + t.stackName + "-public-rt"))
    ensures At(SecurityGroupResource(t), ["Properties", "Tags"]) == Some(NameTags("outpost-" + t.stackName + "-sg"))
    ensures At(ProxyInstanceResource(t, nix), ["Properties", "Tags"]) == Some(NameTags("outpost-" + t.stackName + "-proxy"))
  {
    assert "outpost-" + t.stackName + "" == "outpost-" + t.stackName;
    assert ["Properties", "Tags"][1..] == ["Tags"];
    assert ["Tags"][1..] == [];
  }

  /** Security group ingress: exactly two rules, WireGuard from the origin's
      /32 first and the ingress port from anywhere second. */
  lemma SecurityGroupIngress(t: Template)
    ensures var rules := SecurityGroupRules(t);
      && rules.Array? && |rules.items| == 2
      && Field(rules.items[0], "IpProtocol") == Some(Str("udp"))
      && Field(rules.items[0], "FromPort") == Some(Number(51820))
      && Field(rules.items[0], "ToPort") == Some(Number(51820))
      && Field(rules.items[0], "CidrIp") == Some(Str(t.originIp + "/32"))
      && Field(rules.items[1], "IpProtocol") == Some(Str(t.ingressProtocol))
      && Field(rules.items[1], "FromPort") == Some(Number(t.ingressPort))
      && Field(rules.items[1], "ToPort") == Some(Number(t.ingressPort))
      && Field(rules.items[1], "CidrIp") == Some(Str("0.0.0.0/0"))
  {
  }

  /** The DNS record: `ingress_host.`, an A record with TTL "60" pointing at the
      instance's public address, created after the wait condition. */
  lemma DnsRecordShape(t: Template)
    ensures var r := DnsRecordResource(t);
      && Field(r, "DependsOn") == Some(Str("WaitCondition"))
      && At(r, ["Properties", "Name"]) == Some(Str(t.ingressHost + "."))
      && At(r, ["Properties", "Type"]) == Some(Str("A"))
      && At(r, ["Properties", "TTL"]) == Some(Str("60"))
      && At(r, ["Properties", "ResourceRecords"]) == Some(Array([GetAtt("ProxyInstance", "PublicIp")]))
      && At(r, ["Properties", "HostedZoneId"]) == Some(Ref("HostedZoneId"))
  {
    assert ["Properties", "Name"][1..] == ["Name"];
    assert ["Properties", "Type"][1..] == ["Type"];
    assert ["Properties", "TTL"][1..] == ["TTL"];
    assert ["Properties", "ResourceRecords"][1..] == ["ResourceRecords"];
    assert ["Properties", "HostedZoneId"][1..] == ["HostedZoneId"];
  }

  /** The wait condition waits for one signal on WaitHandle for 600 seconds,
      after the instance exists. */
  lemma WaitConditionShape()
    ensures var r := WaitConditionResource;
      && Field(r, "DependsOn") == Some(Str("ProxyInstance"))
      && At(r, ["Properties", "Handle"]) == Some(Ref("WaitHandle"))
      && At(r, ["Properties", "Count"]) == Some(Number(1))
      && At(r, ["Properties", "Timeout"]) == Some(Str("600"))
  {
    assert ["Properties", "Handle"][1..] == ["Handle"];
    assert ["Properties", "Count"][1..] == ["Count"];
    assert ["Properties", "Timeout"][1..] == ["Timeout"];
  }

  /** The instance role's only policy allows exactly the three stack actions
      on the stack's own ARN. */
  lemma SelfDestructScope()
    ensures At(EC2RoleResource, ["Properties", "Policies"]) == Some(Array([SelfDestructPolicy]))
    ensures var statement := At(SelfDestructPolicy, ["PolicyDocument", "Statement"]);
      && statement.Some? && statement.value.Array? && |statement.value.items| == 1
      && Field(statement.value.items[0], "Effect") == Some(Str("Allow"))
      && Field(statement.value.items[0], "Action")
         == Some(Array([Str("cloudformation:DeleteStack"), Str("cloudformation:DescribeStacks"),
                        Str("cloudformation:DescribeStackResource")]))
      && At(statement.value.items[0], ["Resource", "Fn::Sub"]) == Some(Str(OwnStackArn))
  {
    assert ["Properties", "Policies"][1..] == ["Policies"];
    assert ["PolicyDocument", "Statement"][1..] == ["Statement"];
    assert ["Resource", "Fn::Sub"][1..] == ["Fn::Sub"];
  }

  /** The output `mod.rs` reads after creation, ProxyPublicIP, is the
      instance's public address. */
  lemma ProxyPublicIpOutput(t: Template, nix: string)
    ensures At(Generate(t, nix), ["Outputs", "ProxyPublicIP", "Value"]) == Some(GetAtt("ProxyInstance", "PublicIp"))
  {
    var path := ["Outputs", "ProxyPublicIP", "Value"];
    GenerateOutputs(t, nix);
    assert path[0] == "Outputs" && path[1..] == ["ProxyPublicIP", "Value"];
    assert At(Generate(t, nix), path) == At(Outputs(t), path[1..]);
    OutputsProxyIp(t);
  }

  /** The template's Outputs entry is `Outputs(t)`. */
  lemma GenerateOutputs(t: Template, nix: string)
    ensures Field(Generate(t, nix), "Outputs") == Some(Outputs(t))
  {
  }

  /** Inside the outputs, ProxyPublicIP's value is the instance's public IP. */
  lemma OutputsProxyIp(t: Template)
    ensures At(Outputs(t), ["ProxyPublicIP", "Value"]) == Some(GetAtt("ProxyInstance", "PublicIp"))
  {
    var path := ["ProxyPublicIP", "Value"];
    assert path[1..] == ["Value"];
  }

  /** The instance boots with the substituted Nix configuration as user data. */
  lemma InstanceUserData(t: Template, nix: string)
    ensures At(ProxyInstanceResource(t, nix), ["Properties", "UserData", "Fn::Base64"]) == Some(Str(UserData(t, nix)))
  {
    var path := ["Properties", "UserData", "Fn::Base64"];
    assert path[1..] == ["UserData", "Fn::Base64"];
    assert path[1..][1..] == ["Fn::Base64"];
  }

  /** The proxy's public key and the origin host are fields of the record that
      the template never uses. */
  lemma UnusedFields(t: Template, nix: string, publicKey: string, originHost: string)
    ensures Generate(t.(proxyWgPublicKey := publicKey, originHost := originHost), nix) == Generate(t, nix)
  {
    var t' := t.(proxyWgPublicKey := publicKey, originHost := originHost);
    assert UserData(t', nix) == UserData(t, nix);
  }
}
