/**
 * The Terraform generator: the model is written out as a list of lines
 * (a fixed header, then one block per resource, some blocks only under a
 * condition) and the lines are joined with newlines. Every modelled
 * resource is preceded by a `# infra_id: <id>` comment so that the text
 * can be mapped back to the model.
 */
module TerraformCode {
  import opened Wrappers
  import opened Strings
  import opened Model

  // ---------------------------------------------------------------------
  // Labels and the two kinds of lines a reader looks for
  // ---------------------------------------------------------------------

  /** A Terraform label is the id with every '-' replaced by '_'. */
  function Label(id: string): (name: string)
    ensures |name| == |id| && '-' !in name
    ensures forall k :: 0 <= k < |id| ==> name[k] == if id[k] == '-' then '_' else id[k]
  {
    var name := ReplaceChar(id, '-', '_');
    assert forall k :: 0 <= k < |name| ==> name[k] != '-';
    name
  }

  const InfraPrefix := "# infra_id: "
  const ResourcePrefix := "resource \""

  function InfraLine(id: string): string { InfraPrefix + id }

  /** `resource "<kind>" "<label>" {` */
  function ResourceHead(kind: string, name: string): string {
    ResourcePrefix + kind + "\" \"" + name + "\" {"
  }

  function SubnetRef(id: string): string { "aws_subnet." + Label(id) + ".id" }

  /** The references listed in a `subnet_ids` or `subnets` attribute, one per id, in order. */
  function SubnetRefs(ids: seq<string>): (refs: seq<string>)
    ensures |refs| == |ids|
    ensures forall k :: 0 <= k < |ids| ==> refs[k] == SubnetRef(ids[k])
  {
    seq(|ids|, k requires 0 <= k < |ids| => SubnetRef(ids[k]))
  }

  // ---------------------------------------------------------------------
  // The blocks
  // ---------------------------------------------------------------------

  function HeaderComments(m: ModelView): seq<string> {
    [ "# Terraform Infrastructure as Code",
      "# Generated from Infrastructure Model",
      "# Model ID: " + m.modelId,
      "# Last Edit Source: " + EditSourceValue(m.lastEditSource),
      "#",
      "# METADATA NOTES:",
      "#   " + "infra_id: <id>  - Maps resource to model " + "(DO NOT MODIFY)",
      "#   " + "editable: <prop> - Safe to edit this property",
      "" ]
  }

  function ProviderLines(): seq<string> {
    [ "terraform {",
      "  required_providers {",
      "    aws = {",
      "      source  = \"hashicorp/aws\"",
      "      version = \"~> 5.0\"",
      "    }",
      "  }",
      "}",
      "",
      "provider \"aws\" {",
      "  region = \"us-east-1\"",
      "}",
      "" ]
  }

  /** The fixed header: comments naming the model, then the provider configuration. */
  function HeaderLines(m: ModelView): seq<string> {
    HeaderComments(m) + ProviderLines()
  }

  function VpcBody(v: VpcView): seq<string> {
    [ "  cidr_block           = \"" + v.cidr + "\"",
      "  enable_dns_hostnames = true",
      "  enable_dns_support   = true",
      "",
      "  tags = {",
      "    Name = \"" + v.name + "\"",
      "  }",
      "}",
      "" ]
  }

  function VpcBlock(v: VpcView): seq<string> {
    [InfraLine(v.id), ResourceHead("aws_vpc", Label(v.id))] + VpcBody(v)
  }

  function GatewayBody(v: VpcView): seq<string> {
    [ "  vpc_id = aws_vpc." + Label(v.id) + ".id",
      "",
      "  tags = {",
      "    Name = \"" + v.name + "-igw\"",
      "  }",
      "}",
      "" ]
  }

  /** The internet gateway of a VPC with a public subnet. */
  function GatewayBlock(v: VpcView): seq<string> {
    ["# Internet Gateway for " + v.id, ResourceHead("aws_internet_gateway", Label(v.id) + "_igw")] + GatewayBody(v)
  }

  function SubnetBody(v: VpcView, s: Subnet): seq<string> {
    [ "  vpc_id            = aws_vpc." + Label(v.id) + ".id",
      "  cidr_block        = \"" + s.cidr + "\"",
      "  availability_zone = \"" + s.availabilityZone + "\"" ]
    + (if s.subnetType == Public then ["  map_public_ip_on_launch = true"] else [])
    + [ "",
        "  tags = {",
        "    Name = \"" + s.name + "\"",
        "    Type = \"" + SubnetTypeValue(s.subnetType) + "\"",
        "  }",
        "}",
        "" ]
  }

  function SubnetBlock(v: VpcView, s: Subnet): seq<string> {
    [InfraLine(s.id), ResourceHead("aws_subnet", Label(s.id))] + SubnetBody(v, s)
  }

  function RouteTableBody(v: VpcView, s: Subnet): seq<string> {
    [ "  vpc_id = aws_vpc." + Label(v.id) + ".id",
      "",
      "  route {",
      "    cidr_block = \"0.0.0.0/0\"",
      "    gateway_id = aws_internet_gateway." + Label(v.id) + "_igw.id",
      "  }",
      "",
      "  tags = {",
      "    Name = \"" + s.name + "-rt\"",
      "  }",
      "}",
      "" ]
  }

  function AssociationBody(s: Subnet): seq<string> {
    [ "  subnet_id      = aws_subnet." + Label(s.id) + ".id",
      "  route_table_id = aws_route_table." + Label(s.id) + "_rt.id",
      "}",
      "" ]
  }

  /** The route table of a public subnet and its association. */
  function RouteBlocks(v: VpcView, s: Subnet): seq<string> {
    ["# Route Table for " + s.id, ResourceHead("aws_route_table", Label(s.id) + "_rt")] + RouteTableBody(v, s)
    + ([ResourceHead("aws_route_table_association", Label(s.id) + "_rta")] + AssociationBody(s))
  }

  function SubnetSection(v: VpcView, s: Subnet): seq<string> {
    SubnetBlock(v, s) + (if s.subnetType == Public then RouteBlocks(v, s) else [])
  }

  function SubnetSections(v: VpcView, ss: seq<Subnet>): seq<string> {
    if ss == [] then [] else SubnetSections(v, ss[..|ss| - 1]) + SubnetSection(v, ss[|ss| - 1])
  }

  function VpcSection(v: VpcView): seq<string> {
    VpcBlock(v) + (if VpcHasType(v, Public) then GatewayBlock(v) else []) + SubnetSections(v, v.subnets)
  }

  function VpcSections(vs: seq<VpcView>): seq<string> {
    if vs == [] then [] else VpcSections(vs[..|vs| - 1]) + VpcSection(vs[|vs| - 1])
  }

  const VpcIdKey := "  vpc_id"

  /** The security group's reference to a VPC. */
  function VpcRefLine(v: VpcView): string { VpcIdKey + "      = aws_vpc." + Label(v.id) + ".id" }

  /** The target group's reference to a VPC. */
  function TargetGroupVpcLine(v: VpcView): string { VpcIdKey + "   = aws_vpc." + Label(v.id) + ".id" }

  /** An ingress rule open to the world on one TCP port. */
  function IngressRule(port: string): seq<string> {
    [ "",
      "  ingress {",
      "    from_port   = " + port,
      "    to_port     = " + port,
      "    protocol    = \"tcp\"",
      "    cidr_blocks = [\"0.0.0.0/0\"]",
      "  }" ]
  }

  function EgressRule(): seq<string> {
    [ "",
      "  egress {",
      "    from_port   = 0",
      "    to_port     = 0",
      "    protocol    = \"-1\"",
      "    cidr_blocks = [\"0.0.0.0/0\"]",
      "  }",
      "}",
      "" ]
  }

  function SecurityGroupRules(): seq<string> {
    IngressRule("80") + IngressRule("443") + EgressRule()
  }

  function SecurityGroupBody(m: ModelView): seq<string> {
    [ "  name        = \"ec2-security-group\"",
      "  description" + " = \"Security group for EC2 instances\"" ]
    + (if |m.vpcs| > 0 then [VpcRefLine(m.vpcs[0])] else [])
    + SecurityGroupRules()
  }

  /** The single shared security group, written when there is an instance or a database. */
  function SecurityGroupBlock(m: ModelView): seq<string> {
    if |m.ec2Instances| > 0 || |m.rdsDatabases| > 0 then
      ["# Security Group for EC2 instances", ResourceHead("aws_security_group", "ec2_sg")] + SecurityGroupBody(m)
    else []
  }

  function Ec2Body(e: Ec2Instance): seq<string> {
    [ "  ami           = \"" + e.ami + "\"",
      "  # editable: instance_type",
      "  instance_type = \"" + InstanceTypeValue(e.instanceType) + "\"",
      "  # editable: subnet_id",
      "  subnet_id     = " + SubnetRef(e.subnetId),
      "  vpc_security_group_ids = " + "[aws_security_group.ec2_sg.id]",
      "",
      "  tags = {",
      "    Name = \"" + e.name + "\"",
      "  }",
      "}",
      "" ]
  }

  function Ec2Block(e: Ec2Instance): seq<string> {
    [InfraLine(e.id), ResourceHead("aws_instance", Label(e.id))] + Ec2Body(e)
  }

  function Ec2Blocks(es: seq<Ec2Instance>): seq<string> {
    if es == [] then [] else Ec2Blocks(es[..|es| - 1]) + Ec2Block(es[|es| - 1])
  }

  const SubnetIdsKey := "  subnet_ids = ["
  const SubnetsKey := "  subnets            = ["

  function SubnetGroupBody(r: RdsDatabase): seq<string> {
    [ "  name       = \"" + r.name + "-subnet-group\"",
      SubnetIdsKey + Join(SubnetRefs(r.subnetIds), ", ") + "]",
      "",
      "  tags = {",
      "    Name = \"" + r.name + "-subnet-group\"",
      "  }",
      "}",
      "" ]
  }

  function DbSettings(r: RdsDatabase): seq<string> {
    [ "  identifier           = \"" + r.name + "\"",
      "  engine               = \"" + DatabaseEngineValue(r.engine) + "\"",
      "  # editable: instance_class",
      "  instance_class       = \"" + r.instanceClass + "\"",
      "  # editable: allocated_storage",
      "  allocated_storage    = " + IntToString(r.allocatedStorage),
      "  db_subnet_group_name" + " = aws_db_subnet_group." + Label(r.id) + "_subnet_group.name",
      "  skip_final_snapshot  = true",
      "" ]
  }

  function DbCredentials(r: RdsDatabase): seq<string> {
    [ "  # Credentials should be managed " + "via AWS Secrets Manager in production",
      "  username = \"admin\"",
      "  password = \"change-me-in-production\"",
      "",
      "  tags = {",
      "    Name = \"" + r.name + "\"",
      "  }",
      "}",
      "" ]
  }

  function DbInstanceBody(r: RdsDatabase): seq<string> {
    DbSettings(r) + DbCredentials(r)
  }

  /** A database: its subnet group, then the instance itself. */
  function RdsBlock(r: RdsDatabase): seq<string> {
    ["# DB Subnet Group for " + r.id, ResourceHead("aws_db_subnet_group", Label(r.id) + "_subnet_group")]
    + SubnetGroupBody(r)
    + ([InfraLine(r.id), ResourceHead("aws_db_instance", Label(r.id))] + DbInstanceBody(r))
  }

  function RdsBlocks(rs: seq<RdsDatabase>): seq<string> {
    if rs == [] then [] else RdsBlocks(rs[..|rs| - 1]) + RdsBlock(rs[|rs| - 1])
  }

  function LbBody(lb: LoadBalancer): seq<string> {
    [ "  name               = \"" + lb.name + "\"",
      "  internal           = false",
      "  load_balancer_type = \"application\"",
      SubnetsKey + Join(SubnetRefs(lb.subnetIds), ", ") + "]",
      "",
      "  tags = {",
      "    Name = \"" + lb.name + "\"",
      "  }",
      "}",
      "" ]
  }

  function TargetGroupBody(m: ModelView, lb: LoadBalancer): seq<string> {
    [ "  name     = \"" + lb.name + "-tg\"",
      "  port     = 80",
      "  protocol = \"HTTP\"" ]
    + (if |m.vpcs| > 0 then [TargetGroupVpcLine(m.vpcs[0])] else [])
    + ["}", ""]
  }

  function TargetGroupBlock(m: ModelView, lb: LoadBalancer): seq<string> {
    ["# Target Group for " + lb.id, ResourceHead("aws_lb_target_group", Label(lb.id) + "_tg")] + TargetGroupBody(m, lb)
  }

  function AttachmentBody(lb: LoadBalancer, target: string): seq<string> {
    [ "  target_group_arn" + " = aws_lb_target_group." + Label(lb.id) + "_tg.arn",
      "  target_id        = aws_instance." + Label(target) + ".id",
      "  port             = 80",
      "}",
      "" ]
  }

  function AttachmentBlock(lb: LoadBalancer, target: string): seq<string> {
    [ResourceHead("aws_lb_target_group_attachment", Label(lb.id) + "_" + Label(target))] + AttachmentBody(lb, target)
  }

  function AttachmentBlocks(lb: LoadBalancer, targets: seq<string>): seq<string> {
    if targets == [] then []
    else AttachmentBlocks(lb, targets[..|targets| - 1]) + AttachmentBlock(lb, targets[|targets| - 1])
  }

  /** A load balancer, and its target group with one attachment per target when it has targets. */
  function LbSection(m: ModelView, lb: LoadBalancer): seq<string> {
    [InfraLine(lb.id), ResourceHead("aws_lb", Label(lb.id))] + LbBody(lb)
    + (if |lb.targetInstanceIds| > 0
       then TargetGroupBlock(m, lb) + AttachmentBlocks(lb, lb.targetInstanceIds)
       else [])
  }

  function LbSections(m: ModelView, lbs: seq<LoadBalancer>): seq<string> {
    if lbs == [] then [] else LbSections(m, lbs[..|lbs| - 1]) + LbSection(m, lbs[|lbs| - 1])
  }

  /** Every line of `generate_terraform_code`, before the newline join. */
  function TerraformLines(m: ModelView): seq<string> {
    HeaderLines(m) + VpcSections(m.vpcs) + SecurityGroupBlock(m) + Ec2Blocks(m.ec2Instances)
    + RdsBlocks(m.rdsDatabases) + LbSections(m, m.loadBalancers)
  }

  // ---------------------------------------------------------------------
  // generate_terraform_code
  // ---------------------------------------------------------------------

  lemma AppendAssoc(a: seq<string>, b: seq<string>, c: seq<string>)
    ensures a + b + c == a + (b + c)
  {
  }

  /** One pass of the subnet loop: the subnet, then its route table and association when it is public. */
  method AppendSubnetSection(lines: seq<string>, v: VpcView, subnet: Subnet) returns (out: seq<string>)
    ensures out == lines + SubnetSection(v, subnet)
  {
    out := lines + SubnetBlock(v, subnet);
    if subnet.subnetType == Public {
      AppendAssoc(lines, SubnetBlock(v, subnet), RouteBlocks(v, subnet));
      out := out + RouteBlocks(v, subnet);
    }
  }

  lemma SubnetSectionsStep(lines: seq<string>, v: VpcView, ss: seq<Subnet>, j: nat)
    requires j < |ss|
    ensures lines + SubnetSections(v, ss[..j]) + SubnetSection(v, ss[j]) == lines + SubnetSections(v, ss[..j + 1])
  {
    var prefix := ss[..j + 1];
    assert prefix[..|prefix| - 1] == ss[..j];
    assert SubnetSections(v, prefix) == SubnetSections(v, ss[..j]) + SubnetSection(v, ss[j]);
    AppendAssoc(lines, SubnetSections(v, ss[..j]), SubnetSection(v, ss[j]));
  }

  /** The subnet loop inside one VPC. */
  method AppendSubnetSections(lines: seq<string>, v: VpcView) returns (out: seq<string>)
    ensures out == lines + SubnetSections(v, v.subnets)
  {
    out := lines;
    var j := 0;
    while j < |v.subnets|
      invariant 0 <= j <= |v.subnets|
      invariant out == lines + SubnetSections(v, v.subnets[..j])
    {
      out := AppendSubnetSection(out, v, v.subnets[j]);
      SubnetSectionsStep(lines, v, v.subnets, j);
      j := j + 1;
    }
    assert v.subnets[..j] == v.subnets;
  }

  /** One VPC: its block, its internet gateway when it has a public subnet, its subnets. */
  method AppendVpcSection(lines: seq<string>, vpc: VpcView) returns (out: seq<string>)
    ensures out == lines + VpcSection(vpc)
  {
    out := lines + VpcBlock(vpc);
    var hasPublic := VpcHasType(vpc, Public);
    if hasPublic {
      AppendAssoc(lines, VpcBlock(vpc), GatewayBlock(vpc));
      out := out + GatewayBlock(vpc);
    }
    var top := VpcBlock(vpc) + (if hasPublic then GatewayBlock(vpc) else []);
    assert out == lines + top;
    out := AppendSubnetSections(out, vpc);
    AppendAssoc(lines, top, SubnetSections(vpc, vpc.subnets));
  }

  lemma VpcSectionsStep(lines: seq<string>, vpcs: seq<VpcView>, i: nat)
    requires i < |vpcs|
    ensures lines + VpcSections(vpcs[..i]) + VpcSection(vpcs[i]) == lines + VpcSections(vpcs[..i + 1])
  {
    var prefix := vpcs[..i + 1];
    assert prefix[..|prefix| - 1] == vpcs[..i];
    assert VpcSections(prefix) == VpcSections(vpcs[..i]) + VpcSection(vpcs[i]);
    AppendAssoc(lines, VpcSections(vpcs[..i]), VpcSection(vpcs[i]));
  }

  method AppendVpcSections(lines: seq<string>, vpcs: seq<VpcView>) returns (out: seq<string>)
    ensures out == lines + VpcSections(vpcs)
  {
    out := lines;
    var i := 0;
    while i < |vpcs|
      invariant 0 <= i <= |vpcs|
      invariant out == lines + VpcSections(vpcs[..i])
    {
      out := AppendVpcSection(out, vpcs[i]);
      VpcSectionsStep(lines, vpcs, i);
      i := i + 1;
    }
    assert vpcs[..i] == vpcs;
  }

  lemma Ec2BlocksStep(lines: seq<string>, es: seq<Ec2Instance>, i: nat)
    requires i < |es|
    ensures lines + Ec2Blocks(es[..i]) + Ec2Block(es[i]) == lines + Ec2Blocks(es[..i + 1])
  {
    var prefix := es[..i + 1];
    assert prefix[..|prefix| - 1] == es[..i];
    assert Ec2Blocks(prefix) == Ec2Blocks(es[..i]) + Ec2Block(es[i]);
    AppendAssoc(lines, Ec2Blocks(es[..i]), Ec2Block(es[i]));
  }

  method AppendEc2Blocks(lines: seq<string>, es: seq<Ec2Instance>) returns (out: seq<string>)
    ensures out == lines + Ec2Blocks(es)
  {
    out := lines;
    var i := 0;
    while i < |es|
      invariant 0 <= i <= |es|
      invariant out == lines + Ec2Blocks(es[..i])
    {
      out := out + Ec2Block(es[i]);
      Ec2BlocksStep(lines, es, i);
      i := i + 1;
    }
    assert es[..i] == es;
  }

  lemma RdsBlocksStep(lines: seq<string>, rs: seq<RdsDatabase>, i: nat)
    requires i < |rs|
    ensures lines + RdsBlocks(rs[..i]) + RdsBlock(rs[i]) == lines + RdsBlocks(rs[..i + 1])
  {
    var prefix := rs[..i + 1];
    assert prefix[..|prefix| - 1] == rs[..i];
    assert RdsBlocks(prefix) == RdsBlocks(rs[..i]) + RdsBlock(rs[i]);
    AppendAssoc(lines, RdsBlocks(rs[..i]), RdsBlock(rs[i]));
  }

  method AppendRdsBlocks(lines: seq<string>, rs: seq<RdsDatabase>) returns (out: seq<string>)
    ensures out == lines + RdsBlocks(rs)
  {
    out := lines;
    var i := 0;
    while i < |rs|
      invariant 0 <= i <= |rs|
      invariant out == lines + RdsBlocks(rs[..i])
    {
      out := out + RdsBlock(rs[i]);
      RdsBlocksStep(lines, rs, i);
      i := i + 1;
    }
    assert rs[..i] == rs;
  }

  /** The attachment loop of one load balancer. */
  method AppendAttachments(lines: seq<string>, lb: LoadBalancer) returns (out: seq<string>)
    ensures out == lines + AttachmentBlocks(lb, lb.targetInstanceIds)
  {
    out := lines;
    var t := 0;
    while t < |lb.targetInstanceIds|
      invariant 0 <= t <= |lb.targetInstanceIds|
      invariant out == lines + AttachmentBlocks(lb, lb.targetInstanceIds[..t])
    {
      AppendAssoc(lines, AttachmentBlocks(lb, lb.targetInstanceIds[..t]), AttachmentBlock(lb, lb.targetInstanceIds[t]));
      out := out + AttachmentBlock(lb, lb.targetInstanceIds[t]);
      assert lb.targetInstanceIds[..t + 1][..t] == lb.targetInstanceIds[..t];
      t := t + 1;
    }
    assert lb.targetInstanceIds[..t] == lb.targetInstanceIds;
  }

  /** One pass of the load balancer loop: the load balancer, then its target group and attachments when it has targets. */
  method AppendLbSection(lines: seq<string>, m: ModelView, lb: LoadBalancer) returns (out: seq<string>)
    ensures out == lines + LbSection(m, lb)
  {
    var head := [InfraLine(lb.id), ResourceHead("aws_lb", Label(lb.id))] + LbBody(lb);
    out := lines + head;
    if |lb.targetInstanceIds| > 0 {
      out := out + TargetGroupBlock(m, lb);
      out := AppendAttachments(out, lb);
      AppendAssoc(lines, head, TargetGroupBlock(m, lb));
      AppendAssoc(lines + head, TargetGroupBlock(m, lb), AttachmentBlocks(lb, lb.targetInstanceIds));
      AppendAssoc(lines, head, TargetGroupBlock(m, lb) + AttachmentBlocks(lb, lb.targetInstanceIds));
    }
  }

  lemma LbSectionsStep(lines: seq<string>, m: ModelView, i: nat)
    requires i < |m.loadBalancers|
    ensures lines + LbSections(m, m.loadBalancers[..i]) + LbSection(m, m.loadBalancers[i])
            == lines + LbSections(m, m.loadBalancers[..i + 1])
  {
    var prefix := m.loadBalancers[..i + 1];
    assert prefix[..|prefix| - 1] == m.loadBalancers[..i];
    assert LbSections(m, prefix) == LbSections(m, m.loadBalancers[..i]) + LbSection(m, m.loadBalancers[i]);
    AppendAssoc(lines, LbSections(m, m.loadBalancers[..i]), LbSection(m, m.loadBalancers[i]));
  }

  method AppendLbSections(lines: seq<string>, m: ModelView) returns (out: seq<string>)
    ensures out == lines + LbSections(m, m.loadBalancers)
  {
    out := lines;
    var i := 0;
    while i < |m.loadBalancers|
      invariant 0 <= i <= |m.loadBalancers|
      invariant out == lines + LbSections(m, m.loadBalancers[..i])
    {
      out := AppendLbSection(out, m, m.loadBalancers[i]);
      LbSectionsStep(lines, m, i);
      i := i + 1;
    }
    assert m.loadBalancers[..i] == m.loadBalancers;
  }

  /** `generate_terraform_code` */
  method GenerateTerraformCode(m: ModelView) returns (code: string)
    ensures code == Join(TerraformLines(m), "\n")
  {
    var lines := HeaderLines(m);
    lines := AppendVpcSections(lines, m.vpcs);
    if |m.ec2Instances| > 0 || |m.rdsDatabases| > 0 {
      lines := lines + SecurityGroupBlock(m);
    } else {
      assert lines + SecurityGroupBlock(m) == lines;
    }
    lines := AppendEc2Blocks(lines, m.ec2Instances);
    lines := AppendRdsBlocks(lines, m.rdsDatabases);
    lines := AppendLbSections(lines, m);
    code := Join(lines, "\n");
  }

  // ---------------------------------------------------------------------
  // Reading the declarations back from the lines
  // ---------------------------------------------------------------------

  /** What a reader of the file finds on a line: a model id comment or the start of a resource. */
  datatype Decl = Infra(id: string) | Resource(kind: string)

  predicate IsInfraLine(l: string) { StartsWith(l, InfraPrefix) }
  predicate IsResourceLine(l: string) { StartsWith(l, ResourcePrefix) }

  function DeclOf(l: string): seq<Decl> {
    if IsInfraLine(l) then [Infra(l[|InfraPrefix|..])]
    else if IsResourceLine(l) then [Resource(TakeUntil(l[|ResourcePrefix|..], '"'))]
    else []
  }

  /** The declarations of a list of lines, in order. */
  function Decls(lines: seq<string>): seq<Decl> {
    if lines == [] then [] else Decls(lines[..|lines| - 1]) + DeclOf(lines[|lines| - 1])
  }

  /** Every `# infra_id:` line is immediately followed by a `resource` line. */
  predicate Anchored(lines: seq<string>) {
    forall i | 0 <= i < |lines| && IsInfraLine(lines[i]) :: i + 1 < |lines| && IsResourceLine(lines[i + 1])
  }

  /**
   * A line that is neither kind: empty, or not starting with '#' or 'r',
   * or a comment whose third character is not the 'i' of `infra_id`.
   *
   * The verifier reads the characters of a short string literal but not of
   * a long one, so the longer fixed lines of the blocks are written as a
   * short head followed by the rest, to let it see their first characters.
   */
  predicate Plain(l: string) {
    |l| == 0 || (l[0] != '#' && l[0] != 'r') || (l[0] == '#' && (|l| < 3 || l[2] != 'i'))
  }

  predicate AllPlain(lines: seq<string>) {
    forall k | 0 <= k < |lines| :: Plain(lines[k])
  }

  lemma PlainHasNoDecl(l: string)
    requires Plain(l)
    ensures !IsInfraLine(l) && !IsResourceLine(l) && DeclOf(l) == []
  {
    assert |l| < |InfraPrefix| || (l[..|InfraPrefix|][0] == l[0] && l[..|InfraPrefix|][2] == l[2]);
    assert |l| < |ResourcePrefix| || l[..|ResourcePrefix|][0] == l[0];
  }

  lemma InfraLineDecl(id: string)
    ensures IsInfraLine(InfraLine(id)) && DeclOf(InfraLine(id)) == [Infra(id)]
  {
    StartsWithAppend(InfraPrefix, id);
    assert InfraLine(id)[|InfraPrefix|..] == id;
  }

  lemma ResourceHeadDecl(kind: string, name: string)
    requires '"' !in kind
    ensures IsResourceLine(ResourceHead(kind, name)) && !IsInfraLine(ResourceHead(kind, name))
    ensures DeclOf(ResourceHead(kind, name)) == [Resource(kind)]
  {
    var l := ResourceHead(kind, name);
    assert l == ResourcePrefix + (kind + "\"" + (" \"" + name + "\" {"));
    StartsWithAppend(ResourcePrefix, kind + "\"" + (" \"" + name + "\" {"));
    assert l[..|InfraPrefix|][0] == 'r';
    assert l[|ResourcePrefix|..] == kind + "\"" + (" \"" + name + "\" {");
    TakeUntilOf(kind, '"', " \"" + name + "\" {");
  }

  lemma {:induction false} DeclsAppend(a: seq<string>, b: seq<string>)
    ensures Decls(a + b) == Decls(a) + Decls(b)
    decreases |b|
  {
    if b == [] {
      assert a + b == a;
    } else {
      assert (a + b)[..|a + b| - 1] == a + b[..|b| - 1];
      DeclsAppend(a, b[..|b| - 1]);
    }
  }

  lemma AllPlainAppend(a: seq<string>, b: seq<string>)
    requires AllPlain(a) && AllPlain(b)
    ensures AllPlain(a + b)
  {
    forall k | 0 <= k < |a + b| ensures Plain((a + b)[k]) {
      if k < |a| {
        assert (a + b)[k] == a[k];
      } else {
        assert (a + b)[k] == b[k - |a|];
      }
    }
  }

  lemma {:induction false} PlainLines(body: seq<string>)
    requires AllPlain(body)
    ensures Decls(body) == [] && Anchored(body)
  {
    forall k | 0 <= k < |body| ensures !IsInfraLine(body[k]) {
      PlainHasNoDecl(body[k]);
    }
    if body != [] {
      PlainLines(body[..|body| - 1]);
      PlainHasNoDecl(body[|body| - 1]);
    }
  }

  lemma {:induction false} AnchoredAppend(a: seq<string>, b: seq<string>)
    requires Anchored(a) && Anchored(b)
    ensures Anchored(a + b)
  {
    forall i | 0 <= i < |a + b| && IsInfraLine((a + b)[i])
      ensures i + 1 < |a + b| && IsResourceLine((a + b)[i + 1])
    {
      if i < |a| {
        assert (a + b)[i] == a[i];
        assert (a + b)[i + 1] == a[i + 1];
      } else {
        assert (a + b)[i] == b[i - |a|];
        assert (a + b)[i + 1] == b[i - |a| + 1];
      }
    }
  }

  /** A block that opens with two given lines and continues with plain lines. */
  lemma Opening(first: string, second: string, body: seq<string>)
    requires IsInfraLine(first) ==> IsResourceLine(second)
    requires !IsInfraLine(second) && AllPlain(body)
    ensures Decls([first, second] + body) == DeclOf(first) + DeclOf(second)
    ensures Anchored([first, second] + body)
  {
    PlainLines(body);
    DeclsAppend([first, second], body);
    assert [first, second][..1] == [first];
    assert [first][..0] == [];
    assert Decls([first]) == DeclOf(first);
    assert Decls([first, second]) == DeclOf(first) + DeclOf(second);
    assert Anchored([first, second]);
    AnchoredAppend([first, second], body);
  }

  /** An opening of an id comment and a resource line. */
  lemma IdOpening(id: string, kind: string, name: string, body: seq<string>)
    requires '"' !in kind && AllPlain(body)
    ensures Decls([InfraLine(id), ResourceHead(kind, name)] + body) == [Infra(id), Resource(kind)]
    ensures Anchored([InfraLine(id), ResourceHead(kind, name)] + body)
  {
    InfraLineDecl(id);
    ResourceHeadDecl(kind, name);
    Opening(InfraLine(id), ResourceHead(kind, name), body);
  }

  /** An opening of a plain comment and a resource line. */
  lemma CommentOpening(comment: string, kind: string, name: string, body: seq<string>)
    requires '"' !in kind && Plain(comment) && AllPlain(body)
    ensures Decls([comment, ResourceHead(kind, name)] + body) == [Resource(kind)]
    ensures Anchored([comment, ResourceHead(kind, name)] + body)
  {
    PlainHasNoDecl(comment);
    ResourceHeadDecl(kind, name);
    Opening(comment, ResourceHead(kind, name), body);
  }

  /** A block that opens with a resource line and continues with plain lines. */
  lemma HeadOnly(kind: string, name: string, body: seq<string>)
    requires '"' !in kind && AllPlain(body)
    ensures Decls([ResourceHead(kind, name)] + body) == [Resource(kind)]
    ensures Anchored([ResourceHead(kind, name)] + body)
  {
    ResourceHeadDecl(kind, name);
    PlainLines(body);
    DeclsAppend([ResourceHead(kind, name)], body);
    assert [ResourceHead(kind, name)][..0] == [];
    assert Decls([ResourceHead(kind, name)]) == [Resource(kind)];
    AnchoredAppend([ResourceHead(kind, name)], body);
  }

  // ---------------------------------------------------------------------
  // The declarations of each block
  // ---------------------------------------------------------------------

  lemma HeaderCommentsPlain(m: ModelView)
    ensures AllPlain(HeaderComments(m))
  {
    var c := HeaderComments(m);
    assert Plain(c[0]) && Plain(c[1]) && Plain(c[2]) && Plain(c[3]) && Plain(c[4]);
    assert Plain(c[5]) && Plain(c[6]) && Plain(c[7]) && Plain(c[8]);
  }

  lemma ProviderLinesPlain()
    ensures AllPlain(ProviderLines())
  {
    var p := ProviderLines();
    assert Plain(p[0]) && Plain(p[1]) && Plain(p[2]) && Plain(p[3]) && Plain(p[4]) && Plain(p[5]) && Plain(p[6]);
    assert Plain(p[7]) && Plain(p[8]) && Plain(p[9]) && Plain(p[10]) && Plain(p[11]) && Plain(p[12]);
  }

  lemma HeaderDecls(m: ModelView)
    ensures Decls(HeaderLines(m)) == [] && Anchored(HeaderLines(m))
  {
    HeaderCommentsPlain(m);
    ProviderLinesPlain();
    AllPlainAppend(HeaderComments(m), ProviderLines());
    PlainLines(HeaderLines(m));
  }

  lemma VpcBlockDecls(v: VpcView)
    ensures Decls(VpcBlock(v)) == [Infra(v.id), Resource("aws_vpc")] && Anchored(VpcBlock(v))
  {
    IdOpening(v.id, "aws_vpc", Label(v.id), VpcBody(v));
  }

  lemma GatewayBlockDecls(v: VpcView)
    ensures Decls(GatewayBlock(v)) == [Resource("aws_internet_gateway")] && Anchored(GatewayBlock(v))
  {
    CommentOpening("# Internet Gateway for " + v.id, "aws_internet_gateway", Label(v.id) + "_igw", GatewayBody(v));
  }

  lemma SubnetBlockDecls(v: VpcView, s: Subnet)
    ensures Decls(SubnetBlock(v, s)) == [Infra(s.id), Resource("aws_subnet")] && Anchored(SubnetBlock(v, s))
  {
    assert AllPlain(SubnetBody(v, s));
    IdOpening(s.id, "aws_subnet", Label(s.id), SubnetBody(v, s));
  }

  lemma RouteTableDecls(v: VpcView, s: Subnet)
    ensures var table := ["# Route Table for " + s.id, ResourceHead("aws_route_table", Label(s.id) + "_rt")] + RouteTableBody(v, s);
            Decls(table) == [Resource("aws_route_table")] && Anchored(table)
  {
    CommentOpening("# Route Table for " + s.id, "aws_route_table", Label(s.id) + "_rt", RouteTableBody(v, s));
  }

  lemma RouteAssociationDecls(s: Subnet)
    ensures var association := [ResourceHead("aws_route_table_association", Label(s.id) + "_rta")] + AssociationBody(s);
            Decls(association) == [Resource("aws_route_table_association")] && Anchored(association)
  {
    HeadOnly("aws_route_table_association", Label(s.id) + "_rta", AssociationBody(s));
  }

  lemma RouteBlocksDecls(v: VpcView, s: Subnet)
    ensures Decls(RouteBlocks(v, s)) == [Resource("aws_route_table"), Resource("aws_route_table_association")]
    ensures Anchored(RouteBlocks(v, s))
  {
    var table := ["# Route Table for " + s.id, ResourceHead("aws_route_table", Label(s.id) + "_rt")] + RouteTableBody(v, s);
    var association := [ResourceHead("aws_route_table_association", Label(s.id) + "_rta")] + AssociationBody(s);
    RouteTableDecls(v, s);
    RouteAssociationDecls(s);
    Glue(table, association);
  }

  lemma IngressRulePlain(port: string)
    ensures AllPlain(IngressRule(port))
  {
    var r := IngressRule(port);
    assert Plain(r[0]) && Plain(r[1]) && Plain(r[2]) && Plain(r[3]);
    assert Plain(r[4]) && Plain(r[5]) && Plain(r[6]);
  }

  lemma SecurityGroupRulesPlain()
    ensures AllPlain(SecurityGroupRules())
  {
    IngressRulePlain("80");
    IngressRulePlain("443");
    assert AllPlain(EgressRule());
    AllPlainAppend(IngressRule("80"), IngressRule("443"));
    AllPlainAppend(IngressRule("80") + IngressRule("443"), EgressRule());
  }

  lemma SecurityGroupBodyPlain(m: ModelView)
    ensures AllPlain(SecurityGroupBody(m))
  {
    var head := [ "  name        = \"ec2-security-group\"",
                  "  description" + " = \"Security group for EC2 instances\"" ]
                + (if |m.vpcs| > 0 then [VpcRefLine(m.vpcs[0])] else []);
    assert AllPlain(head);
    SecurityGroupRulesPlain();
    AllPlainAppend(head, SecurityGroupRules());
  }

  lemma SecurityGroupDecls(m: ModelView)
    ensures Decls(SecurityGroupBlock(m))
            == if |m.ec2Instances| > 0 || |m.rdsDatabases| > 0 then [Resource("aws_security_group")] else []
    ensures Anchored(SecurityGroupBlock(m))
  {
    if |m.ec2Instances| > 0 || |m.rdsDatabases| > 0 {
      SecurityGroupBodyPlain(m);
      CommentOpening("# Security Group for EC2 instances", "aws_security_group", "ec2_sg", SecurityGroupBody(m));
    }
  }

  lemma Ec2BlockDecls(e: Ec2Instance)
    ensures Decls(Ec2Block(e)) == [Infra(e.id), Resource("aws_instance")] && Anchored(Ec2Block(e))
  {
    IdOpening(e.id, "aws_instance", Label(e.id), Ec2Body(e));
  }

  lemma DbInstanceBodyPlain(r: RdsDatabase)
    ensures AllPlain(DbInstanceBody(r))
  {
    assert AllPlain(DbSettings(r));
    assert AllPlain(DbCredentials(r));
    AllPlainAppend(DbSettings(r), DbCredentials(r));
  }

  lemma DbSubnetGroupDecls(r: RdsDatabase)
    ensures var group := ["# DB Subnet Group for " + r.id, ResourceHead("aws_db_subnet_group", Label(r.id) + "_subnet_group")]
                         + SubnetGroupBody(r);
            Decls(group) == [Resource("aws_db_subnet_group")] && Anchored(group)
  {
    assert AllPlain(SubnetGroupBody(r));
    CommentOpening("# DB Subnet Group for " + r.id, "aws_db_subnet_group", Label(r.id) + "_subnet_group", SubnetGroupBody(r));
  }

  lemma DbInstanceDecls(r: RdsDatabase)
    ensures var instance := [InfraLine(r.id), ResourceHead("aws_db_instance", Label(r.id))] + DbInstanceBody(r);
            Decls(instance) == [Infra(r.id), Resource("aws_db_instance")] && Anchored(instance)
  {
    DbInstanceBodyPlain(r);
    IdOpening(r.id, "aws_db_instance", Label(r.id), DbInstanceBody(r));
  }

  lemma RdsBlockDecls(r: RdsDatabase)
    ensures Decls(RdsBlock(r)) == [Resource("aws_db_subnet_group"), Infra(r.id), Resource("aws_db_instance")]
    ensures Anchored(RdsBlock(r))
  {
    var group := ["# DB Subnet Group for " + r.id, ResourceHead("aws_db_subnet_group", Label(r.id) + "_subnet_group")]
                 + SubnetGroupBody(r);
    var instance := [InfraLine(r.id), ResourceHead("aws_db_instance", Label(r.id))] + DbInstanceBody(r);
    DbSubnetGroupDecls(r);
    DbInstanceDecls(r);
    Glue(group, instance);
  }

  // ---------------------------------------------------------------------
  // What the file declares, read off the model
  // ---------------------------------------------------------------------

  const RouteDecls := [Resource("aws_route_table"), Resource("aws_route_table_association")]

  /** A subnet: its id and resource, then the route table and association of a public subnet. */
  function SubnetOutline(s: Subnet): seq<Decl> {
    [Infra(s.id), Resource("aws_subnet")] + (if s.subnetType == Public then RouteDecls else [])
  }

  function SubnetsOutline(ss: seq<Subnet>): seq<Decl> {
    if ss == [] then [] else SubnetsOutline(ss[..|ss| - 1]) + SubnetOutline(ss[|ss| - 1])
  }

  /** A VPC: its id and resource, an internet gateway when it has a public subnet, then its subnets. */
  function VpcOutline(v: VpcView): seq<Decl> {
    [Infra(v.id), Resource("aws_vpc")] + (if VpcHasType(v, Public) then [Resource("aws_internet_gateway")] else [])
    + SubnetsOutline(v.subnets)
  }

  function VpcsOutline(vs: seq<VpcView>): seq<Decl> {
    if vs == [] then [] else VpcsOutline(vs[..|vs| - 1]) + VpcOutline(vs[|vs| - 1])
  }

  function Ec2Outline(es: seq<Ec2Instance>): seq<Decl> {
    if es == [] then [] else Ec2Outline(es[..|es| - 1]) + [Infra(es[|es| - 1].id), Resource("aws_instance")]
  }

  /** A database: a subnet group (without an id line), then its id and instance. */
  function RdsOutline(rs: seq<RdsDatabase>): seq<Decl> {
    if rs == [] then []
    else RdsOutline(rs[..|rs| - 1]) + [Resource("aws_db_subnet_group"), Infra(rs[|rs| - 1].id), Resource("aws_db_instance")]
  }

  function Attachments(n: nat): seq<Decl> {
    if n == 0 then [] else Attachments(n - 1) + [Resource("aws_lb_target_group_attachment")]
  }

  /** A load balancer: its id and resource, then a target group and one attachment per target when it has targets. */
  function LbOutline(lb: LoadBalancer): seq<Decl> {
    [Infra(lb.id), Resource("aws_lb")]
    + (if |lb.targetInstanceIds| > 0
       then [Resource("aws_lb_target_group")] + Attachments(|lb.targetInstanceIds|)
       else [])
  }

  function LbsOutline(lbs: seq<LoadBalancer>): seq<Decl> {
    if lbs == [] then [] else LbsOutline(lbs[..|lbs| - 1]) + LbOutline(lbs[|lbs| - 1])
  }

  /** Everything the file declares, in order; the header declares nothing. */
  function Outline(m: ModelView): seq<Decl> {
    VpcsOutline(m.vpcs) + SecurityGroupOutline(m) + Ec2Outline(m.ec2Instances) + RdsOutline(m.rdsDatabases) + LbsOutline(m.loadBalancers)
  }

  lemma Glue(a: seq<string>, b: seq<string>)
    requires Anchored(a) && Anchored(b)
    ensures Decls(a + b) == Decls(a) + Decls(b) && Anchored(a + b)
  {
    DeclsAppend(a, b);
    AnchoredAppend(a, b);
  }

  lemma SubnetSectionDecls(v: VpcView, s: Subnet)
    ensures Decls(SubnetSection(v, s)) == SubnetOutline(s) && Anchored(SubnetSection(v, s))
  {
    SubnetBlockDecls(v, s);
    if s.subnetType == Public {
      RouteBlocksDecls(v, s);
      Glue(SubnetBlock(v, s), RouteBlocks(v, s));
    } else {
      assert SubnetSection(v, s) == SubnetBlock(v, s);
    }
  }

  lemma {:induction false} SubnetSectionsDecls(v: VpcView, ss: seq<Subnet>)
    ensures Decls(SubnetSections(v, ss)) == SubnetsOutline(ss) && Anchored(SubnetSections(v, ss))
  {
    if ss != [] {
      SubnetSectionsDecls(v, ss[..|ss| - 1]);
      SubnetSectionDecls(v, ss[|ss| - 1]);
      Glue(SubnetSections(v, ss[..|ss| - 1]), SubnetSection(v, ss[|ss| - 1]));
    }
  }

  /** The VPC block and, for a VPC with a public subnet, its gateway. */
  lemma VpcTopDecls(v: VpcView)
    ensures Decls(VpcBlock(v) + (if VpcHasType(v, Public) then GatewayBlock(v) else []))
            == [Infra(v.id), Resource("aws_vpc")] + (if VpcHasType(v, Public) then [Resource("aws_internet_gateway")] else [])
    ensures Anchored(VpcBlock(v) + (if VpcHasType(v, Public) then GatewayBlock(v) else []))
  {
    VpcBlockDecls(v);
    if VpcHasType(v, Public) {
      GatewayBlockDecls(v);
      Glue(VpcBlock(v), GatewayBlock(v));
    } else {
      assert VpcBlock(v) + [] == VpcBlock(v);
    }
  }

  lemma VpcSectionDecls(v: VpcView)
    ensures Decls(VpcSection(v)) == VpcOutline(v) && Anchored(VpcSection(v))
  {
    var top := VpcBlock(v) + (if VpcHasType(v, Public) then GatewayBlock(v) else []);
    VpcTopDecls(v);
    SubnetSectionsDecls(v, v.subnets);
    Glue(top, SubnetSections(v, v.subnets));
  }

  lemma {:induction false} VpcSectionsDecls(vs: seq<VpcView>)
    ensures Decls(VpcSections(vs)) == VpcsOutline(vs) && Anchored(VpcSections(vs))
  {
    if vs != [] {
      VpcSectionsDecls(vs[..|vs| - 1]);
      VpcSectionDecls(vs[|vs| - 1]);
      Glue(VpcSections(vs[..|vs| - 1]), VpcSection(vs[|vs| - 1]));
    }
  }

  lemma {:induction false} Ec2BlocksDecls(es: seq<Ec2Instance>)
    ensures Decls(Ec2Blocks(es)) == Ec2Outline(es) && Anchored(Ec2Blocks(es))
  {
    if es != [] {
      Ec2BlocksDecls(es[..|es| - 1]);
      Ec2BlockDecls(es[|es| - 1]);
      Glue(Ec2Blocks(es[..|es| - 1]), Ec2Block(es[|es| - 1]));
    }
  }

  lemma {:induction false} RdsBlocksDecls(rs: seq<RdsDatabase>)
    ensures Decls(RdsBlocks(rs)) == RdsOutline(rs) && Anchored(RdsBlocks(rs))
  {
    if rs != [] {
      RdsBlocksDecls(rs[..|rs| - 1]);
      RdsBlockDecls(rs[|rs| - 1]);
      Glue(RdsBlocks(rs[..|rs| - 1]), RdsBlock(rs[|rs| - 1]));
    }
  }

  lemma AttachmentBlockDecls(lb: LoadBalancer, target: string)
    ensures Decls(AttachmentBlock(lb, target)) == [Resource("aws_lb_target_group_attachment")]
    ensures Anchored(AttachmentBlock(lb, target))
  {
    assert AllPlain(AttachmentBody(lb, target));
    HeadOnly("aws_lb_target_group_attachment", Label(lb.id) + "_" + Label(target), AttachmentBody(lb, target));
  }

  lemma {:induction false} AttachmentBlocksDecls(lb: LoadBalancer, targets: seq<string>)
    ensures Decls(AttachmentBlocks(lb, targets)) == Attachments(|targets|)
    ensures Anchored(AttachmentBlocks(lb, targets))
  {
    if targets != [] {
      AttachmentBlocksDecls(lb, targets[..|targets| - 1]);
      AttachmentBlockDecls(lb, targets[|targets| - 1]);
      Glue(AttachmentBlocks(lb, targets[..|targets| - 1]), AttachmentBlock(lb, targets[|targets| - 1]));
    }
  }

  lemma TargetGroupBlockDecls(m: ModelView, lb: LoadBalancer)
    ensures Decls(TargetGroupBlock(m, lb)) == [Resource("aws_lb_target_group")]
    ensures Anchored(TargetGroupBlock(m, lb))
  {
    assert AllPlain(TargetGroupBody(m, lb));
    CommentOpening("# Target Group for " + lb.id, "aws_lb_target_group", Label(lb.id) + "_tg", TargetGroupBody(m, lb));
  }

  lemma LbSectionDecls(m: ModelView, lb: LoadBalancer)
    ensures Decls(LbSection(m, lb)) == LbOutline(lb) && Anchored(LbSection(m, lb))
  {
    var head := [InfraLine(lb.id), ResourceHead("aws_lb", Label(lb.id))] + LbBody(lb);
    assert AllPlain(LbBody(lb));
    IdOpening(lb.id, "aws_lb", Label(lb.id), LbBody(lb));
    if |lb.targetInstanceIds| > 0 {
      TargetGroupBlockDecls(m, lb);
      AttachmentBlocksDecls(lb, lb.targetInstanceIds);
      Glue(TargetGroupBlock(m, lb), AttachmentBlocks(lb, lb.targetInstanceIds));
      Glue(head, TargetGroupBlock(m, lb) + AttachmentBlocks(lb, lb.targetInstanceIds));
    } else {
      assert LbSection(m, lb) == head;
    }
  }

  lemma {:induction false} LbSectionsDecls(m: ModelView, lbs: seq<LoadBalancer>)
    ensures Decls(LbSections(m, lbs)) == LbsOutline(lbs) && Anchored(LbSections(m, lbs))
  {
    if lbs != [] {
      LbSectionsDecls(m, lbs[..|lbs| - 1]);
      LbSectionDecls(m, lbs[|lbs| - 1]);
      Glue(LbSections(m, lbs[..|lbs| - 1]), LbSection(m, lbs[|lbs| - 1]));
    }
  }

  /**
   * The file declares exactly the outline of the model, and every
   * `# infra_id:` line is immediately followed by a `resource` line.
   */
  /** The resources after the header: VPC sections, security group, instances, databases, load balancers. */
  lemma ResourceSectionsDecls(m: ModelView)
    ensures var body := VpcSections(m.vpcs) + SecurityGroupBlock(m) + Ec2Blocks(m.ec2Instances)
                        + RdsBlocks(m.rdsDatabases) + LbSections(m, m.loadBalancers);
            Decls(body) == Outline(m) && Anchored(body)
  {
    var v, g, e, r, l := VpcSections(m.vpcs), SecurityGroupBlock(m),
                         Ec2Blocks(m.ec2Instances), RdsBlocks(m.rdsDatabases), LbSections(m, m.loadBalancers);
    VpcSectionsDecls(m.vpcs);
    SecurityGroupDecls(m);
    Ec2BlocksDecls(m.ec2Instances);
    RdsBlocksDecls(m.rdsDatabases);
    LbSectionsDecls(m, m.loadBalancers);
    Glue(v, g);
    Glue(v + g, e);
    Glue(v + g + e, r);
    Glue(v + g + e + r, l);
  }

  lemma TerraformDecls(m: ModelView)
    ensures Decls(TerraformLines(m)) == Outline(m)
    ensures Anchored(TerraformLines(m))
  {
    var h, v, g, e, r, l := HeaderLines(m), VpcSections(m.vpcs), SecurityGroupBlock(m),
                            Ec2Blocks(m.ec2Instances), RdsBlocks(m.rdsDatabases), LbSections(m, m.loadBalancers);
    HeaderDecls(m);
    ResourceSectionsDecls(m);
    Glue(h, v + g + e + r + l);
    AppendAssoc(h, v, g);
    AppendAssoc(h, v + g, e);
    AppendAssoc(h, v + g + e, r);
    AppendAssoc(h, v + g + e + r, l);
  }

  // ---------------------------------------------------------------------
  // How many resources of each kind the file declares
  // ---------------------------------------------------------------------

  /** How many `resource "<kind>"` declarations there are. */
  function Tally(ds: seq<Decl>, kind: string): nat {
    if ds == [] then 0 else Tally(ds[..|ds| - 1], kind) + (if ds[|ds| - 1] == Resource(kind) then 1 else 0)
  }

  lemma {:induction false} TallyAppend(a: seq<Decl>, b: seq<Decl>, kind: string)
    ensures Tally(a + b, kind) == Tally(a, kind) + Tally(b, kind)
    decreases |b|
  {
    if b == [] {
      assert a + b == a;
    } else {
      assert (a + b)[..|a + b| - 1] == a + b[..|b| - 1];
      TallyAppend(a, b[..|b| - 1], kind);
    }
  }

  lemma TallyPair(x: Decl, y: Decl, kind: string)
    ensures Tally([x, y], kind) == (if x == Resource(kind) then 1 else 0) + (if y == Resource(kind) then 1 else 0)
  {
    assert [x, y][..1] == [x];
    assert [x][..0] == [];
    assert Tally([x], kind) == if x == Resource(kind) then 1 else 0;
    assert Tally([x, y], kind) == Tally([x], kind) + (if y == Resource(kind) then 1 else 0);
  }

  /** A kind is declared at all exactly when its tally is positive. */
  lemma {:induction false} TallyPositive(ds: seq<Decl>, kind: string)
    ensures Tally(ds, kind) > 0 <==> Resource(kind) in ds
  {
    if ds != [] {
      TallyPositive(ds[..|ds| - 1], kind);
      assert ds == ds[..|ds| - 1] + [ds[|ds| - 1]];
    }
  }

  predicate IsPublicSubnet(s: Subnet) { s.subnetType == Public }
  predicate HasPublicSubnet(v: VpcView) { VpcHasType(v, Public) }
  predicate HasTargets(lb: LoadBalancer) { |lb.targetInstanceIds| > 0 }
  predicate IsRouteKind(kind: string) { kind == "aws_route_table" || kind == "aws_route_table_association" }

  function PublicSubnetTotal(vs: seq<VpcView>): nat {
    if vs == [] then 0 else PublicSubnetTotal(vs[..|vs| - 1]) + Count(vs[|vs| - 1].subnets, IsPublicSubnet)
  }


  /** How many resources of a kind the generator should write for a model, counted on the model itself. */
  function Census(m: ModelView, kind: string): nat {
    (if kind == "aws_vpc" then |m.vpcs| else 0)
    + (if kind == "aws_internet_gateway" then Count(m.vpcs, HasPublicSubnet) else 0)
    + (if kind == "aws_subnet" then SubnetTotal(m.vpcs) else 0)
    + (if IsRouteKind(kind) then PublicSubnetTotal(m.vpcs) else 0)
    + (if kind == "aws_security_group" && (|m.ec2Instances| > 0 || |m.rdsDatabases| > 0) then 1 else 0)
    + (if kind == "aws_instance" then |m.ec2Instances| else 0)
    + (if kind == "aws_db_subnet_group" || kind == "aws_db_instance" then |m.rdsDatabases| else 0)
    + (if kind == "aws_lb" then |m.loadBalancers| else 0)
    + (if kind == "aws_lb_target_group" then Count(m.loadBalancers, HasTargets) else 0)
    + (if kind == "aws_lb_target_group_attachment" then TargetTotal(m.loadBalancers) else 0)
  }

  lemma SubnetOutlineTally(s: Subnet, kind: string)
    ensures Tally(SubnetOutline(s), kind)
            == (if kind == "aws_subnet" then 1 else 0) + (if IsRouteKind(kind) && IsPublicSubnet(s) then 1 else 0)
  {
    TallyPair(Infra(s.id), Resource("aws_subnet"), kind);
    if IsPublicSubnet(s) {
      TallyPair(Resource("aws_route_table"), Resource("aws_route_table_association"), kind);
      TallyAppend([Infra(s.id), Resource("aws_subnet")], RouteDecls, kind);
    } else {
      assert SubnetOutline(s) == [Infra(s.id), Resource("aws_subnet")];
    }
  }

  lemma {:induction false} SubnetsOutlineTally(ss: seq<Subnet>, kind: string)
    ensures Tally(SubnetsOutline(ss), kind)
            == (if kind == "aws_subnet" then |ss| else 0) + (if IsRouteKind(kind) then Count(ss, IsPublicSubnet) else 0)
  {
    if ss != [] {
      SubnetsOutlineTally(ss[..|ss| - 1], kind);
      SubnetOutlineTally(ss[|ss| - 1], kind);
      TallyAppend(SubnetsOutline(ss[..|ss| - 1]), SubnetOutline(ss[|ss| - 1]), kind);
    }
  }

  lemma VpcOutlineTally(v: VpcView, kind: string)
    ensures Tally(VpcOutline(v), kind)
            == (if kind == "aws_vpc" then 1 else 0)
               + (if kind == "aws_internet_gateway" && HasPublicSubnet(v) then 1 else 0)
               + (if kind == "aws_subnet" then |v.subnets| else 0)
               + (if IsRouteKind(kind) then Count(v.subnets, IsPublicSubnet) else 0)
  {
    var top := [Infra(v.id), Resource("aws_vpc")] + (if HasPublicSubnet(v) then [Resource("aws_internet_gateway")] else []);
    TallyPair(Infra(v.id), Resource("aws_vpc"), kind);
    if HasPublicSubnet(v) {
      TallyAppend([Infra(v.id), Resource("aws_vpc")], [Resource("aws_internet_gateway")], kind);
      assert [Resource("aws_internet_gateway")][..0] == [];
    } else {
      assert top == [Infra(v.id), Resource("aws_vpc")];
    }
    SubnetsOutlineTally(v.subnets, kind);
    TallyAppend(top, SubnetsOutline(v.subnets), kind);
  }

  lemma {:induction false} VpcsOutlineTally(vs: seq<VpcView>, kind: string)
    ensures Tally(VpcsOutline(vs), kind)
            == (if kind == "aws_vpc" then |vs| else 0)
               + (if kind == "aws_internet_gateway" then Count(vs, HasPublicSubnet) else 0)
               + (if kind == "aws_subnet" then SubnetTotal(vs) else 0)
               + (if IsRouteKind(kind) then PublicSubnetTotal(vs) else 0)
  {
    if vs != [] {
      VpcsOutlineTally(vs[..|vs| - 1], kind);
      VpcOutlineTally(vs[|vs| - 1], kind);
      TallyAppend(VpcsOutline(vs[..|vs| - 1]), VpcOutline(vs[|vs| - 1]), kind);
    }
  }

  lemma {:induction false} Ec2OutlineTally(es: seq<Ec2Instance>, kind: string)
    ensures Tally(Ec2Outline(es), kind) == if kind == "aws_instance" then |es| else 0
  {
    if es != [] {
      Ec2OutlineTally(es[..|es| - 1], kind);
      TallyPair(Infra(es[|es| - 1].id), Resource("aws_instance"), kind);
      TallyAppend(Ec2Outline(es[..|es| - 1]), [Infra(es[|es| - 1].id), Resource("aws_instance")], kind);
    }
  }

  lemma {:induction false} RdsOutlineTally(rs: seq<RdsDatabase>, kind: string)
    ensures Tally(RdsOutline(rs), kind)
            == if kind == "aws_db_subnet_group" || kind == "aws_db_instance" then |rs| else 0
  {
    if rs != [] {
      var r := rs[|rs| - 1];
      RdsOutlineTally(rs[..|rs| - 1], kind);
      TallyPair(Resource("aws_db_subnet_group"), Infra(r.id), kind);
      TallyPair(Resource("aws_db_instance"), Infra(r.id), kind);
      assert [Resource("aws_db_subnet_group"), Infra(r.id), Resource("aws_db_instance")]
          == [Resource("aws_db_subnet_group"), Infra(r.id)] + [Resource("aws_db_instance"), Infra(r.id)][..1];
      TallyAppend([Resource("aws_db_subnet_group"), Infra(r.id)], [Resource("aws_db_instance"), Infra(r.id)][..1], kind);
      TallyAppend(RdsOutline(rs[..|rs| - 1]), [Resource("aws_db_subnet_group"), Infra(r.id), Resource("aws_db_instance")], kind);
    }
  }

  lemma {:induction false} AttachmentsTally(n: nat, kind: string)
    ensures Tally(Attachments(n), kind) == if kind == "aws_lb_target_group_attachment" then n else 0
  {
    if n > 0 {
      AttachmentsTally(n - 1, kind);
      TallyAppend(Attachments(n - 1), [Resource("aws_lb_target_group_attachment")], kind);
      assert [Resource("aws_lb_target_group_attachment")][..0] == [];
    }
  }

  lemma LbOutlineTally(lb: LoadBalancer, kind: string)
    ensures Tally(LbOutline(lb), kind)
            == (if kind == "aws_lb" then 1 else 0)
               + (if kind == "aws_lb_target_group" && HasTargets(lb) then 1 else 0)
               + (if kind == "aws_lb_target_group_attachment" then |lb.targetInstanceIds| else 0)
  {
    TallyPair(Infra(lb.id), Resource("aws_lb"), kind);
    AttachmentsTally(|lb.targetInstanceIds|, kind);
    if HasTargets(lb) {
      var group := [Resource("aws_lb_target_group")];
      assert group[..0] == [];
      TallyAppend(group, Attachments(|lb.targetInstanceIds|), kind);
      TallyAppend([Infra(lb.id), Resource("aws_lb")], group + Attachments(|lb.targetInstanceIds|), kind);
    } else {
      assert LbOutline(lb) == [Infra(lb.id), Resource("aws_lb")];
    }
  }

  lemma {:induction false} LbsOutlineTally(lbs: seq<LoadBalancer>, kind: string)
    ensures Tally(LbsOutline(lbs), kind)
            == (if kind == "aws_lb" then |lbs| else 0)
               + (if kind == "aws_lb_target_group" then Count(lbs, HasTargets) else 0)
               + (if kind == "aws_lb_target_group_attachment" then TargetTotal(lbs) else 0)
  {
    if lbs != [] {
      LbsOutlineTally(lbs[..|lbs| - 1], kind);
      LbOutlineTally(lbs[|lbs| - 1], kind);
      TallyAppend(LbsOutline(lbs[..|lbs| - 1]), LbOutline(lbs[|lbs| - 1]), kind);
    }
  }

  /** The shared security group's share of the outline. */
  function SecurityGroupOutline(m: ModelView): seq<Decl> {
    if |m.ec2Instances| > 0 || |m.rdsDatabases| > 0 then [Resource("aws_security_group")] else []
  }

  lemma SecurityGroupTally(m: ModelView, kind: string)
    ensures Tally(SecurityGroupOutline(m), kind)
            == if kind == "aws_security_group" && (|m.ec2Instances| > 0 || |m.rdsDatabases| > 0) then 1 else 0
  {
    var g := SecurityGroupOutline(m);
    if g != [] {
      assert g[..0] == [];
    }
  }

  /** The tally of the outline is the sum of the tallies of its five parts. */
  lemma OutlineTallySplit(m: ModelView, kind: string)
    ensures Tally(Outline(m), kind)
            == Tally(VpcsOutline(m.vpcs), kind) + Tally(SecurityGroupOutline(m), kind)
               + Tally(Ec2Outline(m.ec2Instances), kind) + Tally(RdsOutline(m.rdsDatabases), kind)
               + Tally(LbsOutline(m.loadBalancers), kind)
  {
    var v, g := VpcsOutline(m.vpcs), SecurityGroupOutline(m);
    var e, r, l := Ec2Outline(m.ec2Instances), RdsOutline(m.rdsDatabases), LbsOutline(m.loadBalancers);
    assert Outline(m) == v + g + e + r + l;
    TallyAppend(v, g, kind);
    TallyAppend(v + g, e, kind);
    TallyAppend(v + g + e, r, kind);
    TallyAppend(v + g + e + r, l, kind);
  }

  lemma OutlineTally(m: ModelView, kind: string)
    ensures Tally(Outline(m), kind) == Census(m, kind)
  {
    OutlineTallySplit(m, kind);
    VpcsOutlineTally(m.vpcs, kind);
    SecurityGroupTally(m, kind);
    Ec2OutlineTally(m.ec2Instances, kind);
    RdsOutlineTally(m.rdsDatabases, kind);
    LbsOutlineTally(m.loadBalancers, kind);
  }

  /** The resource kinds the generator writes are pairwise different. */
  lemma KindsDistinct()
    ensures "aws_vpc" != "aws_internet_gateway"
    ensures "aws_vpc" != "aws_subnet"
    ensures "aws_vpc" != "aws_route_table"
    ensures "aws_vpc" != "aws_route_table_association"
    ensures "aws_vpc" != "aws_security_group"
    ensures "aws_vpc" != "aws_instance"
    ensures "aws_vpc" != "aws_db_subnet_group"
    ensures "aws_vpc" != "aws_db_instance"
    ensures "aws_vpc" != "aws_lb"
    ensures "aws_vpc" != "aws_lb_target_group"
    ensures "aws_vpc" != "aws_lb_target_group_attachment"
    ensures "aws_internet_gateway" != "aws_subnet"
    ensures "aws_internet_gateway" != "aws_route_table"
    ensures "aws_internet_gateway" != "aws_route_table_association"
    ensures "aws_internet_gateway" != "aws_security_group"
    ensures "aws_internet_gateway" != "aws_instance"
    ensures "aws_internet_gateway" != "aws_db_subnet_group"
    ensures "aws_internet_gateway" != "aws_db_instance"
    ensures "aws_internet_gateway" != "aws_lb"
    ensures "aws_internet_gateway" != "aws_lb_target_group"
    ensures "aws_internet_gateway" != "aws_lb_target_group_attachment"
    ensures "aws_subnet" != "aws_route_table"
    ensures "aws_subnet" != "aws_route_table_association"
    ensures "aws_subnet" != "aws_security_group"
    ensures "aws_subnet" != "aws_instance"
    ensures "aws_subnet" != "aws_db_subnet_group"
    ensures "aws_subnet" != "aws_db_instance"
    ensures "aws_subnet" != "aws_lb"
    ensures "aws_subnet" != "aws_lb_target_group"
    ensures "aws_subnet" != "aws_lb_target_group_attachment"
    ensures "aws_route_table" != "aws_route_table_association"
    ensures "aws_route_table" != "aws_security_group"
    ensures "aws_route_table" != "aws_instance"
    ensures "aws_route_table" != "aws_db_subnet_group"
    ensures "aws_route_table" != "aws_db_instance"
    ensures "aws_route_table" != "aws_lb"
    ensures "aws_route_table" != "aws_lb_target_group"
    ensures "aws_route_table" != "aws_lb_target_group_attachment"
    ensures "aws_route_table_association" != "aws_security_group"
    ensures "aws_route_table_association" != "aws_instance"
    ensures "aws_route_table_association" != "aws_db_subnet_group"
    ensures "aws_route_table_association" != "aws_db_instance"
    ensures "aws_route_table_association" != "aws_lb"
    ensures "aws_route_table_association" != "aws_lb_target_group"
    ensures "aws_route_table_association" != "aws_lb_target_group_attachment"
    ensures "aws_security_group" != "aws_instance"
    ensures "aws_security_group" != "aws_db_subnet_group"
    ensures "aws_security_group" != "aws_db_instance"
    ensures "aws_security_group" != "aws_lb"
    ensures "aws_security_group" != "aws_lb_target_group"
    ensures "aws_security_group" != "aws_lb_target_group_attachment"
    ensures "aws_instance" != "aws_db_subnet_group"
    ensures "aws_instance" != "aws_db_instance"
    ensures "aws_instance" != "aws_lb"
    ensures "aws_instance" != "aws_lb_target_group"
    ensures "aws_instance" != "aws_lb_target_group_attachment"
    ensures "aws_db_subnet_group" != "aws_db_instance"
    ensures "aws_db_subnet_group" != "aws_lb"
    ensures "aws_db_subnet_group" != "aws_lb_target_group"
    ensures "aws_db_subnet_group" != "aws_lb_target_group_attachment"
    ensures "aws_db_instance" != "aws_lb"
    ensures "aws_db_instance" != "aws_lb_target_group"
    ensures "aws_db_instance" != "aws_lb_target_group_attachment"
    ensures "aws_lb" != "aws_lb_target_group"
    ensures "aws_lb" != "aws_lb_target_group_attachment"
    ensures "aws_lb_target_group" != "aws_lb_target_group_attachment"
  {
  }

  /** The census of the VPCs and subnets. */
  lemma CensusOfNetwork(m: ModelView)
    ensures Census(m, "aws_vpc") == |m.vpcs|
    ensures Census(m, "aws_subnet") == SubnetTotal(m.vpcs)
  {
    KindsDistinct();
  }

  /** The census of the gateways, route tables and associations. */
  lemma CensusOfRouting(m: ModelView)
    ensures Census(m, "aws_internet_gateway") == Count(m.vpcs, HasPublicSubnet)
    ensures Census(m, "aws_route_table") == PublicSubnetTotal(m.vpcs)
    ensures Census(m, "aws_route_table_association") == PublicSubnetTotal(m.vpcs)
  {
    KindsDistinct();
  }

  /** The census of the security group, the instances and the databases. */
  lemma CensusOfCompute(m: ModelView)
    ensures Census(m, "aws_security_group") == if |m.ec2Instances| > 0 || |m.rdsDatabases| > 0 then 1 else 0
    ensures Census(m, "aws_instance") == |m.ec2Instances|
    ensures Census(m, "aws_db_subnet_group") == |m.rdsDatabases|
    ensures Census(m, "aws_db_instance") == |m.rdsDatabases|
  {
    KindsDistinct();
  }

  /** The census of the load balancers, target groups and attachments. */
  lemma CensusOfLoadBalancers(m: ModelView)
    ensures Census(m, "aws_lb") == |m.loadBalancers|
    ensures Census(m, "aws_lb_target_group") == Count(m.loadBalancers, HasTargets)
    ensures Census(m, "aws_lb_target_group_attachment") == TargetTotal(m.loadBalancers)
  {
    KindsDistinct();
  }

  /** For every kind, the file declares as many resources of that kind as the census of the model says. */
  lemma TerraformCensus(m: ModelView, kind: string)
    ensures Tally(Decls(TerraformLines(m)), kind) == Census(m, kind)
  {
    TerraformDecls(m);
    OutlineTally(m, kind);
  }

  /** One resource per VPC and per subnet. */
  lemma NetworkCounts(m: ModelView)
    ensures Tally(Decls(TerraformLines(m)), "aws_vpc") == |m.vpcs|
    ensures Tally(Decls(TerraformLines(m)), "aws_subnet") == SubnetTotal(m.vpcs)
  {
    CensusOfNetwork(m);
    TerraformCensus(m, "aws_vpc");
    TerraformCensus(m, "aws_subnet");
  }

  /** A gateway per VPC with a public subnet, a route table and an association per public subnet. */
  lemma RoutingCounts(m: ModelView)
    ensures Tally(Decls(TerraformLines(m)), "aws_internet_gateway") == Count(m.vpcs, HasPublicSubnet)
    ensures Tally(Decls(TerraformLines(m)), "aws_route_table") == PublicSubnetTotal(m.vpcs)
    ensures Tally(Decls(TerraformLines(m)), "aws_route_table_association") == PublicSubnetTotal(m.vpcs)
  {
    CensusOfRouting(m);
    TerraformCensus(m, "aws_internet_gateway");
    TerraformCensus(m, "aws_route_table");
    TerraformCensus(m, "aws_route_table_association");
  }

  /** The shared security group once when there is an instance or a database; one instance per EC2; a subnet group and an instance per database. */
  lemma ComputeCounts(m: ModelView)
    ensures Tally(Decls(TerraformLines(m)), "aws_security_group") == if |m.ec2Instances| > 0 || |m.rdsDatabases| > 0 then 1 else 0
    ensures Tally(Decls(TerraformLines(m)), "aws_instance") == |m.ec2Instances|
    ensures Tally(Decls(TerraformLines(m)), "aws_db_subnet_group") == |m.rdsDatabases|
    ensures Tally(Decls(TerraformLines(m)), "aws_db_instance") == |m.rdsDatabases|
  {
    CensusOfCompute(m);
    TerraformCensus(m, "aws_security_group");
    TerraformCensus(m, "aws_instance");
    TerraformCensus(m, "aws_db_subnet_group");
    TerraformCensus(m, "aws_db_instance");
  }

  /** One resource per load balancer, a target group per load balancer with targets, one attachment per target. */
  lemma LoadBalancerCounts(m: ModelView)
    ensures Tally(Decls(TerraformLines(m)), "aws_lb") == |m.loadBalancers|
    ensures Tally(Decls(TerraformLines(m)), "aws_lb_target_group") == Count(m.loadBalancers, HasTargets)
    ensures Tally(Decls(TerraformLines(m)), "aws_lb_target_group_attachment") == TargetTotal(m.loadBalancers)
  {
    CensusOfLoadBalancers(m);
    TerraformCensus(m, "aws_lb");
    TerraformCensus(m, "aws_lb_target_group");
    TerraformCensus(m, "aws_lb_target_group_attachment");
  }

  /** A VPC's section declares an internet gateway exactly when the VPC has a public subnet. */
  lemma GatewayIffPublic(v: VpcView)
    ensures Resource("aws_internet_gateway") in Decls(VpcSection(v)) <==> VpcHasType(v, Public)
  {
    VpcSectionDecls(v);
    VpcOutlineTally(v, "aws_internet_gateway");
    TallyPositive(VpcOutline(v), "aws_internet_gateway");
  }

  /** A subnet's section declares a route table and its association exactly when the subnet is public. */
  lemma RouteTableIffPublic(v: VpcView, s: Subnet)
    ensures Resource("aws_route_table") in Decls(SubnetSection(v, s)) <==> s.subnetType == Public
    ensures Resource("aws_route_table_association") in Decls(SubnetSection(v, s)) <==> s.subnetType == Public
  {
    SubnetSectionDecls(v, s);
    SubnetOutlineTally(s, "aws_route_table");
    SubnetOutlineTally(s, "aws_route_table_association");
    TallyPositive(SubnetOutline(s), "aws_route_table");
    TallyPositive(SubnetOutline(s), "aws_route_table_association");
  }

  const MapPublicLine := "  map_public_ip_on_launch = true"

  /** A subnet's block sets `map_public_ip_on_launch` exactly when the subnet is public. */
  lemma MapPublicIffPublic(v: VpcView, s: Subnet)
    ensures MapPublicLine in SubnetBlock(v, s) <==> s.subnetType == Public
  {
    var b := SubnetBlock(v, s);
    if s.subnetType == Public {
      assert b[5] == MapPublicLine;
    } else {
      forall k | 0 <= k < |b| ensures b[k] != MapPublicLine {
        assert |b[k]| < 3 || b[k][2] != MapPublicLine[2] || |b[k]| != |MapPublicLine|;
      }
    }
  }

  // ---------------------------------------------------------------------
  // The ids written on `# infra_id:` lines
  // ---------------------------------------------------------------------

  function InfraIds(ds: seq<Decl>): seq<string> {
    if ds == [] then []
    else InfraIds(ds[..|ds| - 1]) + (if ds[|ds| - 1].Infra? then [ds[|ds| - 1].id] else [])
  }

  lemma {:induction false} InfraIdsAppend(a: seq<Decl>, b: seq<Decl>)
    ensures InfraIds(a + b) == InfraIds(a) + InfraIds(b)
    decreases |b|
  {
    if b == [] {
      assert a + b == a;
    } else {
      assert (a + b)[..|a + b| - 1] == a + b[..|b| - 1];
      InfraIdsAppend(a, b[..|b| - 1]);
    }
  }

  lemma InfraIdsPair(id: string, kind: string)
    ensures InfraIds([Infra(id), Resource(kind)]) == [id]
  {
    assert [Infra(id), Resource(kind)][..1] == [Infra(id)];
    assert [Infra(id)][..0] == [];
    assert InfraIds([Infra(id)]) == [id];
  }

  /** The ids of a VPC's subnets, in order. */
  function SubnetIds(ss: seq<Subnet>): (ids: seq<string>)
    ensures |ids| == |ss|
    ensures forall k :: 0 <= k < |ss| ==> ids[k] == ss[k].id
  {
    if ss == [] then [] else SubnetIds(ss[..|ss| - 1]) + [ss[|ss| - 1].id]
  }

  /** Each VPC's id followed by its subnets' ids, VPC by VPC. */
  function VpcIds(vs: seq<VpcView>): seq<string> {
    if vs == [] then [] else VpcIds(vs[..|vs| - 1]) + ([vs[|vs| - 1].id] + SubnetIds(vs[|vs| - 1].subnets))
  }

  function Ec2Ids(es: seq<Ec2Instance>): (ids: seq<string>)
    ensures |ids| == |es|
    ensures forall k :: 0 <= k < |es| ==> ids[k] == es[k].id
  {
    if es == [] then [] else Ec2Ids(es[..|es| - 1]) + [es[|es| - 1].id]
  }

  function RdsIds(rs: seq<RdsDatabase>): (ids: seq<string>)
    ensures |ids| == |rs|
    ensures forall k :: 0 <= k < |rs| ==> ids[k] == rs[k].id
  {
    if rs == [] then [] else RdsIds(rs[..|rs| - 1]) + [rs[|rs| - 1].id]
  }

  function LbIds(lbs: seq<LoadBalancer>): (ids: seq<string>)
    ensures |ids| == |lbs|
    ensures forall k :: 0 <= k < |lbs| ==> ids[k] == lbs[k].id
  {
    if lbs == [] then [] else LbIds(lbs[..|lbs| - 1]) + [lbs[|lbs| - 1].id]
  }

  /** The ids of every VPC, subnet, EC2 instance, database and load balancer, in the generator's order. */
  function ModelIds(m: ModelView): seq<string> {
    VpcIds(m.vpcs) + Ec2Ids(m.ec2Instances) + RdsIds(m.rdsDatabases) + LbIds(m.loadBalancers)
  }

  lemma {:induction false} SubnetsOutlineIds(ss: seq<Subnet>)
    ensures InfraIds(SubnetsOutline(ss)) == SubnetIds(ss)
  {
    if ss != [] {
      var s := ss[|ss| - 1];
      SubnetsOutlineIds(ss[..|ss| - 1]);
      InfraIdsPair(s.id, "aws_subnet");
      if s.subnetType == Public {
        assert RouteDecls[..1] == [Resource("aws_route_table")];
        assert RouteDecls[..1][..0] == [];
        assert InfraIds(RouteDecls) == [];
        InfraIdsAppend([Infra(s.id), Resource("aws_subnet")], RouteDecls);
      } else {
        assert SubnetOutline(s) == [Infra(s.id), Resource("aws_subnet")];
      }
      InfraIdsAppend(SubnetsOutline(ss[..|ss| - 1]), SubnetOutline(s));
    }
  }

  lemma VpcOutlineIds(v: VpcView)
    ensures InfraIds(VpcOutline(v)) == [v.id] + SubnetIds(v.subnets)
  {
    var top := [Infra(v.id), Resource("aws_vpc")] + (if VpcHasType(v, Public) then [Resource("aws_internet_gateway")] else []);
    InfraIdsPair(v.id, "aws_vpc");
    if VpcHasType(v, Public) {
      assert [Resource("aws_internet_gateway")][..0] == [];
      InfraIdsAppend([Infra(v.id), Resource("aws_vpc")], [Resource("aws_internet_gateway")]);
    } else {
      assert top == [Infra(v.id), Resource("aws_vpc")];
    }
    SubnetsOutlineIds(v.subnets);
    InfraIdsAppend(top, SubnetsOutline(v.subnets));
  }

  lemma {:induction false} VpcsOutlineIds(vs: seq<VpcView>)
    ensures InfraIds(VpcsOutline(vs)) == VpcIds(vs)
  {
    if vs != [] {
      VpcsOutlineIds(vs[..|vs| - 1]);
      VpcOutlineIds(vs[|vs| - 1]);
      InfraIdsAppend(VpcsOutline(vs[..|vs| - 1]), VpcOutline(vs[|vs| - 1]));
    }
  }

  lemma {:induction false} Ec2OutlineIds(es: seq<Ec2Instance>)
    ensures InfraIds(Ec2Outline(es)) == Ec2Ids(es)
  {
    if es != [] {
      Ec2OutlineIds(es[..|es| - 1]);
      InfraIdsPair(es[|es| - 1].id, "aws_instance");
      InfraIdsAppend(Ec2Outline(es[..|es| - 1]), [Infra(es[|es| - 1].id), Resource("aws_instance")]);
    }
  }

  lemma {:induction false} RdsOutlineIds(rs: seq<RdsDatabase>)
    ensures InfraIds(RdsOutline(rs)) == RdsIds(rs)
  {
    if rs != [] {
      var r := rs[|rs| - 1];
      var group, instance := [Resource("aws_db_subnet_group")], [Infra(r.id), Resource("aws_db_instance")];
      RdsOutlineIds(rs[..|rs| - 1]);
      assert group[..0] == [];
      InfraIdsPair(r.id, "aws_db_instance");
      InfraIdsAppend(group, instance);
      assert [Resource("aws_db_subnet_group"), Infra(r.id), Resource("aws_db_instance")] == group + instance;
      InfraIdsAppend(RdsOutline(rs[..|rs| - 1]), group + instance);
    }
  }

  lemma {:induction false} AttachmentsIds(n: nat)
    ensures InfraIds(Attachments(n)) == []
  {
    if n > 0 {
      AttachmentsIds(n - 1);
      assert Attachments(n)[..|Attachments(n)| - 1] == Attachments(n - 1);
    }
  }

  lemma LbOutlineIds(lb: LoadBalancer)
    ensures InfraIds(LbOutline(lb)) == [lb.id]
  {
    InfraIdsPair(lb.id, "aws_lb");
    if |lb.targetInstanceIds| > 0 {
      var group := [Resource("aws_lb_target_group")];
      assert group[..0] == [];
      AttachmentsIds(|lb.targetInstanceIds|);
      InfraIdsAppend(group, Attachments(|lb.targetInstanceIds|));
      InfraIdsAppend([Infra(lb.id), Resource("aws_lb")], group + Attachments(|lb.targetInstanceIds|));
    } else {
      assert LbOutline(lb) == [Infra(lb.id), Resource("aws_lb")];
    }
  }

  lemma {:induction false} LbsOutlineIds(lbs: seq<LoadBalancer>)
    ensures InfraIds(LbsOutline(lbs)) == LbIds(lbs)
  {
    if lbs != [] {
      LbsOutlineIds(lbs[..|lbs| - 1]);
      LbOutlineIds(lbs[|lbs| - 1]);
      InfraIdsAppend(LbsOutline(lbs[..|lbs| - 1]), LbOutline(lbs[|lbs| - 1]));
    }
  }

  lemma OutlineIds(m: ModelView)
    ensures InfraIds(Outline(m)) == ModelIds(m)
  {
    var v, g := VpcsOutline(m.vpcs), (if |m.ec2Instances| > 0 || |m.rdsDatabases| > 0 then [Resource("aws_security_group")] else []);
    var e, r, l := Ec2Outline(m.ec2Instances), RdsOutline(m.rdsDatabases), LbsOutline(m.loadBalancers);
    assert Outline(m) == v + g + e + r + l;
    InfraIdsAppend(v, g);
    InfraIdsAppend(v + g, e);
    InfraIdsAppend(v + g + e, r);
    InfraIdsAppend(v + g + e + r, l);
    assert InfraIds(Outline(m)) == InfraIds(v) + InfraIds(g) + InfraIds(e) + InfraIds(r) + InfraIds(l);
    assert InfraIds(g) == [] by {
      if g != [] {
        assert g[..0] == [];
      }
    }
    VpcsOutlineIds(m.vpcs);
    Ec2OutlineIds(m.ec2Instances);
    RdsOutlineIds(m.rdsDatabases);
    LbsOutlineIds(m.loadBalancers);
    assert InfraIds(v) + InfraIds(g) == VpcIds(m.vpcs);
  }

  /**
   * Every VPC, subnet, EC2 instance, database and load balancer gets one
   * `# infra_id:` line, in the generator's order, and no other id line is written.
   */
  lemma TerraformIds(m: ModelView)
    ensures InfraIds(Decls(TerraformLines(m))) == ModelIds(m)
  {
    TerraformDecls(m);
    OutlineIds(m);
  }

  // ---------------------------------------------------------------------
  // Single lines of the file
  // ---------------------------------------------------------------------

  const ModelIdPrefix := "# Model ID"

  /** The file opens with the fixed header, whose third line names the model. */
  lemma PrefixAppend(a: seq<string>, b: seq<string>, c: seq<string>)
    requires a <= b
    ensures a <= b + c
  {
    assert (b + c)[..|a|] == b[..|a|];
  }

  lemma PrefixOfChain(h: seq<string>, a: seq<string>, b: seq<string>, c: seq<string>, d: seq<string>, e: seq<string>)
    ensures h <= h + a + b + c + d + e
    ensures forall k :: 0 <= k < |h| ==> (h + a + b + c + d + e)[k] == h[k]
  {
    PrefixAppend(h, h, a);
    PrefixAppend(h, h + a, b);
    PrefixAppend(h, h + a + b, c);
    PrefixAppend(h, h + a + b + c, d);
    PrefixAppend(h, h + a + b + c + d, e);
  }

  lemma HeaderModelIdLine(m: ModelView)
    ensures |HeaderLines(m)| > 2 && HeaderLines(m)[2] == ModelIdPrefix + ": " + m.modelId
  {
    assert HeaderLines(m)[2] == HeaderComments(m)[2];
  }

  lemma TerraformHeader(m: ModelView)
    ensures HeaderLines(m) <= TerraformLines(m)
    ensures |TerraformLines(m)| > 2 && TerraformLines(m)[2] == ModelIdPrefix + ": " + m.modelId
  {
    var h := HeaderLines(m);
    PrefixOfChain(h, VpcSections(m.vpcs), SecurityGroupBlock(m), Ec2Blocks(m.ec2Instances),
                  RdsBlocks(m.rdsDatabases), LbSections(m, m.loadBalancers));
    HeaderModelIdLine(m);
  }

  /** `key: value` is the key, a ':', and the value behind one space. */
  lemma ColonSpaceRegroup(key: string, value: string)
    ensures key + ": " + value == key + ":" + (" " + value)
  {
    assert ": " == ":" + " ";
  }

  /** A `key: value` line: its last ':'-piece, stripped, is the value. */
  lemma KeyValueReadBack(key: string, value: string)
    requires ':' !in value
    requires |value| == 0 || (!IsSpace(value[0]) && !IsSpace(value[|value| - 1]))
    ensures Strip(Last(Split(key + ": " + value, ":"))) == value
  {
    ColonSpaceRegroup(key, value);
    assert ':' !in " " + value;
    NotContainsByChar(" " + value, ":", 0);
    SplitLastPiece(key, ":", " " + value);
    StripPadded(value);
  }

  /**
   * Reading the model id back as `line.split(":")[-1].strip()` recovers it
   * when it holds no ':' and no surrounding whitespace.
   */
  lemma ModelIdReadBack(m: ModelView)
    requires ':' !in m.modelId
    requires |m.modelId| == 0 || (!IsSpace(m.modelId[0]) && !IsSpace(m.modelId[|m.modelId| - 1]))
    ensures |TerraformLines(m)| > 2 && Strip(Last(Split(TerraformLines(m)[2], ":"))) == m.modelId
  {
    TerraformHeader(m);
    KeyValueReadBack(ModelIdPrefix, m.modelId);
  }

  predicate IsVpcIdLine(l: string) { StartsWith(l, VpcIdKey) }

  /**
   * The security group carries a `vpc_id` line exactly when it is written and
   * there is a VPC, and that line then refers to the first VPC.
   */
  lemma SecurityGroupVpcRef(m: ModelView)
    ensures (exists k :: 0 <= k < |SecurityGroupBlock(m)| && IsVpcIdLine(SecurityGroupBlock(m)[k]))
            <==> (|m.ec2Instances| > 0 || |m.rdsDatabases| > 0) && |m.vpcs| > 0
    ensures (|m.ec2Instances| > 0 || |m.rdsDatabases| > 0) && |m.vpcs| > 0
            ==> SecurityGroupBlock(m)[4] == VpcRefLine(m.vpcs[0])
  {
    var b := SecurityGroupBlock(m);
    if (|m.ec2Instances| > 0 || |m.rdsDatabases| > 0) && |m.vpcs| > 0 {
      assert b[4] == VpcRefLine(m.vpcs[0]);
      assert VpcRefLine(m.vpcs[0]) == VpcIdKey + ("      = aws_vpc." + Label(m.vpcs[0].id) + ".id");
      StartsWithAppend(VpcIdKey, "      = aws_vpc." + Label(m.vpcs[0].id) + ".id");
      assert IsVpcIdLine(b[4]);
    } else {
      forall k | 0 <= k < |b| ensures !IsVpcIdLine(b[k]) {
        assert |b[k]| < 3 || b[k][2] != 'v';
        assert |b[k]| < |VpcIdKey| || b[k][..|VpcIdKey|][2] == b[k][2];
      }
    }
  }

  /**
   * A load balancer's target group is named after it with `-tg` and carries a
   * `vpc_id` line exactly when there is a VPC; the line then refers to the first VPC.
   */
  lemma TargetGroupVpcRef(m: ModelView, lb: LoadBalancer)
    ensures TargetGroupBlock(m, lb)[2] == "  name     = \"" + lb.name + "-tg\""
    ensures (exists k :: 0 <= k < |TargetGroupBlock(m, lb)| && IsVpcIdLine(TargetGroupBlock(m, lb)[k]))
            <==> |m.vpcs| > 0
    ensures |m.vpcs| > 0 ==> TargetGroupBlock(m, lb)[5] == TargetGroupVpcLine(m.vpcs[0])
  {
    if |m.vpcs| > 0 {
      TargetGroupWithVpc(m, lb);
    } else {
      TargetGroupWithoutVpc(m, lb);
    }
  }

  /** With a VPC, the sixth line of the target group is its `vpc_id` line. */
  lemma TargetGroupWithVpc(m: ModelView, lb: LoadBalancer)
    requires |m.vpcs| > 0
    ensures |TargetGroupBlock(m, lb)| == 8
    ensures TargetGroupBlock(m, lb)[5] == TargetGroupVpcLine(m.vpcs[0])
    ensures IsVpcIdLine(TargetGroupBlock(m, lb)[5])
  {
    StartsWithAppend(VpcIdKey, "   = aws_vpc." + Label(m.vpcs[0].id) + ".id");
  }

  /** A line whose third character is not `v` is no `vpc_id` line. */
  lemma NotVpcIdLine(l: string)
    requires |l| < 3 || l[2] != 'v'
    ensures !IsVpcIdLine(l)
  {
    assert |l| < |VpcIdKey| || l[..|VpcIdKey|][2] == l[2];
  }

  /** Without a VPC the target group has no `vpc_id` line. */
  lemma TargetGroupWithoutVpc(m: ModelView, lb: LoadBalancer)
    requires |m.vpcs| == 0
    ensures forall k :: 0 <= k < |TargetGroupBlock(m, lb)| ==> !IsVpcIdLine(TargetGroupBlock(m, lb)[k])
  {
    var b := TargetGroupBlock(m, lb);
    assert |b| == 7;
    NotVpcIdLine(b[0]);
    NotVpcIdLine(b[1]);
    NotVpcIdLine(b[2]);
    NotVpcIdLine(b[3]);
    NotVpcIdLine(b[4]);
    NotVpcIdLine(b[5]);
    NotVpcIdLine(b[6]);
  }

  /** One attachment block of six lines per target, in the order of the targets. */
  lemma {:induction false} AttachmentsInOrder(lb: LoadBalancer, targets: seq<string>)
    ensures |AttachmentBlocks(lb, targets)| == 6 * |targets|
    ensures forall k :: 0 <= k < |targets| ==>
              AttachmentBlocks(lb, targets)[6 * k]
              == ResourceHead("aws_lb_target_group_attachment", Label(lb.id) + "_" + Label(targets[k]))
    ensures forall k :: 0 <= k < |targets| ==>
              AttachmentBlocks(lb, targets)[6 * k + 2] == "  target_id        = aws_instance." + Label(targets[k]) + ".id"
  {
    if targets != [] {
      var n := |targets| - 1;
      var front, last := AttachmentBlocks(lb, targets[..n]), AttachmentBlock(lb, targets[n]);
      AttachmentsInOrder(lb, targets[..n]);
      assert AttachmentBlocks(lb, targets) == front + last;
      forall k | 0 <= k < |targets|
        ensures (front + last)[6 * k]
                == ResourceHead("aws_lb_target_group_attachment", Label(lb.id) + "_" + Label(targets[k]))
        ensures (front + last)[6 * k + 2] == "  target_id        = aws_instance." + Label(targets[k]) + ".id"
      {
        if k < n {
          assert targets[..n][k] == targets[k];
        }
      }
    }
  }

  /** The subnet references between the brackets of a `subnet_ids = [...]` or `subnets = [...]` line. */
  function ListedRefs(line: string, key: string): seq<string>
    requires |key| + 1 <= |line|
  {
    Split(line[|key|..|line| - 1], ", ")
  }

  lemma RefsWithoutComma(ids: seq<string>)
    requires forall k :: 0 <= k < |ids| ==> ',' !in ids[k]
    ensures forall k :: 0 <= k < |ids| ==> !Contains(SubnetRefs(ids)[k], ", ")
  {
    forall k | 0 <= k < |ids| ensures !Contains(SubnetRefs(ids)[k], ", ") {
      var name := Label(ids[k]);
      assert forall j :: 0 <= j < |name| ==> name[j] != ',';
      assert ',' !in "aws_subnet." + name + ".id";
      NotContainsByChar(SubnetRefs(ids)[k], ", ", 0);
    }
  }

  /**
   * A database's subnet group lists one reference per subnet id, in order:
   * splitting the bracketed list on ", " gives them back.
   */
  lemma RdsSubnetGroupLists(r: RdsDatabase)
    requires |r.subnetIds| > 0 && forall k :: 0 <= k < |r.subnetIds| ==> ',' !in r.subnetIds[k]
    ensures StartsWith(RdsBlock(r)[3], SubnetIdsKey)
    ensures ListedRefs(RdsBlock(r)[3], SubnetIdsKey) == SubnetRefs(r.subnetIds)
  {
    var list := Join(SubnetRefs(r.subnetIds), ", ");
    var line := SubnetIdsKey + list + "]";
    assert RdsBlock(r)[3] == line;
    StartsWithAppend(SubnetIdsKey, list + "]");
    assert line[|SubnetIdsKey|..|line| - 1] == list;
    RefsWithoutComma(r.subnetIds);
    SplitJoin(SubnetRefs(r.subnetIds), ", ");
  }

  /** Likewise for the `subnets` list of a load balancer. */
  lemma LbSubnetsLists(m: ModelView, lb: LoadBalancer)
    requires |lb.subnetIds| > 0 && forall k :: 0 <= k < |lb.subnetIds| ==> ',' !in lb.subnetIds[k]
    ensures StartsWith(LbSection(m, lb)[5], SubnetsKey)
    ensures ListedRefs(LbSection(m, lb)[5], SubnetsKey) == SubnetRefs(lb.subnetIds)
  {
    var list := Join(SubnetRefs(lb.subnetIds), ", ");
    var line := SubnetsKey + list + "]";
    assert LbSection(m, lb)[5] == line;
    StartsWithAppend(SubnetsKey, list + "]");
    assert line[|SubnetsKey|..|line| - 1] == list;
    RefsWithoutComma(lb.subnetIds);
    SplitJoin(SubnetRefs(lb.subnetIds), ", ");
  }
}
