/**
 * The Mermaid generator: VPCs become subgraphs holding one nested subgraph
 * per subnet, EC2 instances and databases become nodes inside the subnet
 * they belong to, load balancers become nodes outside, and the
 * relationships (load balancer to target, private instance to database)
 * become edges. The lines are joined with newlines. A one-line summary of
 * the model is built the same way from parts joined with ", ".
 */
module MermaidDiagram {
  import opened Wrappers
  import opened Strings
  import opened Model

  // ---------------------------------------------------------------------
  // The lines of generate_mermaid_diagram
  // ---------------------------------------------------------------------

  const Indent := "    "
  const NodeIndent := "            "
  const SubnetIndent := "        "

  /** The first line: a top-to-bottom graph. */
  const GraphLine := "graph TB"
  const VpcDirection := SubnetIndent + "direction TB"
  const VpcEnd := Indent + "end"
  const SubnetDirection := NodeIndent + "direction TB"
  const SubnetEnd := SubnetIndent + "end"

  const DiagramTitle := "Infrastructure Diagram Generated from Model"

  function HeadLines(): seq<string> {
    [GraphLine, Indent + "%% " + DiagramTitle, ""]
  }

  function VpcOpen(v: VpcView): string {
    Indent + "subgraph" + (" " + v.id + "[\"" + v.name + "<br/>" + v.cidr + "\"]")
  }

  function VpcStyle(v: VpcView): string {
    Indent + "style" + (" " + v.id + " fill:#e1e8f5,stroke:#333,stroke-width:2px")
  }

  /** Public subnets are filled green, private ones red. */
  function SubnetStyle(s: Subnet): string {
    if s.subnetType == Public then "fill:#e1f5e1" else "fill:#ffe1e1"
  }

  function SubnetOpen(s: Subnet): string {
    SubnetIndent + "subgraph" + (" " + s.id + "[\"" + s.name + "<br/>" + s.cidr + "<br/>(" + SubnetTypeValue(s.subnetType) + ")\"]")
  }

  function SubnetStyleLine(s: Subnet): string {
    SubnetIndent + "style" + (" " + s.id + " " + SubnetStyle(s))
  }

  /** A node line: `id["icon caption"]` after the indentation. */
  function NodeText(ind: string, id: string, icon: string, caption: string): string {
    ind + id + "[\"" + icon + " " + caption + "\"]"
  }

  function Ec2Node(e: Ec2Instance): string {
    NodeText(NodeIndent, e.id, "\U{1F5A5}\U{FE0F}", e.name + "<br/>" + InstanceTypeValue(e.instanceType))
  }

  function RdsNode(r: RdsDatabase): string {
    NodeText(NodeIndent, r.id, "\U{1F5C4}\U{FE0F}",
             r.name + "<br/>" + DatabaseEngineValue(r.engine) + "<br/>" + r.instanceClass)
  }

  /** The nodes of the instances placed in a subnet, in instance order. */
  function Ec2Nodes(es: seq<Ec2Instance>, subnetId: string): seq<string> {
    if es == [] then []
    else Ec2Nodes(es[..|es| - 1], subnetId)
         + (if es[|es| - 1].subnetId == subnetId then [Ec2Node(es[|es| - 1])] else [])
  }

  /** `subnet.id in rds.subnet_ids and subnet.id == rds.subnet_ids[0]` */
  predicate IsPrimarySubnet(r: RdsDatabase, subnetId: string) {
    subnetId in r.subnetIds && subnetId == r.subnetIds[0]
  }

  /** The nodes of the databases whose first subnet is this one, in database order. */
  function RdsNodes(rs: seq<RdsDatabase>, subnetId: string): seq<string> {
    if rs == [] then []
    else RdsNodes(rs[..|rs| - 1], subnetId)
         + (if IsPrimarySubnet(rs[|rs| - 1], subnetId) then [RdsNode(rs[|rs| - 1])] else [])
  }

  function SubnetLines(s: Subnet, es: seq<Ec2Instance>, rs: seq<RdsDatabase>): seq<string> {
    [SubnetOpen(s), SubnetDirection] + Ec2Nodes(es, s.id) + RdsNodes(rs, s.id)
    + [SubnetEnd, SubnetStyleLine(s)]
  }

  function SubnetsLines(ss: seq<Subnet>, es: seq<Ec2Instance>, rs: seq<RdsDatabase>): seq<string> {
    if ss == [] then [] else SubnetsLines(ss[..|ss| - 1], es, rs) + SubnetLines(ss[|ss| - 1], es, rs)
  }

  function VpcLines(v: VpcView, es: seq<Ec2Instance>, rs: seq<RdsDatabase>): seq<string> {
    [VpcOpen(v), VpcDirection] + SubnetsLines(v.subnets, es, rs) + [VpcEnd, VpcStyle(v), ""]
  }

  function VpcsLines(vs: seq<VpcView>, es: seq<Ec2Instance>, rs: seq<RdsDatabase>): seq<string> {
    if vs == [] then [] else VpcsLines(vs[..|vs| - 1], es, rs) + VpcLines(vs[|vs| - 1], es, rs)
  }

  function LbNode(lb: LoadBalancer): string {
    NodeText(Indent, lb.id, "\U{2696}\U{FE0F}", lb.name + "<br/>Application Load Balancer")
  }

  function LbStyle(lb: LoadBalancer): string {
    Indent + "style" + (" " + lb.id + " fill:#fff4e1,stroke:#333,stroke-width:2px")
  }

  function LbNodes(lbs: seq<LoadBalancer>): seq<string> {
    if lbs == [] then [] else LbNodes(lbs[..|lbs| - 1]) + [LbNode(lbs[|lbs| - 1]), LbStyle(lbs[|lbs| - 1])]
  }

  const RelationshipsTitle := "Relationships"
  const RelationshipLines := ["", Indent + "%% " + RelationshipsTitle]

  function TargetEdge(lb: LoadBalancer, target: string): string {
    Indent + lb.id + " --> " + target
  }

  /** One edge per target id of the load balancer, in order. */
  function TargetEdges(lb: LoadBalancer, targets: seq<string>): (edges: seq<string>)
    ensures |edges| == |targets|
    ensures forall k :: 0 <= k < |targets| ==> edges[k] == TargetEdge(lb, targets[k])
  {
    if targets == [] then []
    else TargetEdges(lb, targets[..|targets| - 1]) + [TargetEdge(lb, targets[|targets| - 1])]
  }

  function LbEdges(lbs: seq<LoadBalancer>): seq<string> {
    if lbs == [] then []
    else LbEdges(lbs[..|lbs| - 1]) + TargetEdges(lbs[|lbs| - 1], lbs[|lbs| - 1].targetInstanceIds)
  }

  function DbEdge(e: Ec2Instance, r: RdsDatabase): string {
    Indent + e.id + " -.-> " + r.id
  }

  /** One dotted edge from the instance to every database, in database order. */
  function DbEdges(e: Ec2Instance, rs: seq<RdsDatabase>): (edges: seq<string>)
    ensures |edges| == |rs|
    ensures forall k :: 0 <= k < |rs| ==> edges[k] == DbEdge(e, rs[k])
  {
    if rs == [] then [] else DbEdges(e, rs[..|rs| - 1]) + [DbEdge(e, rs[|rs| - 1])]
  }

  /** The instance's subnet id resolves to a private subnet. */
  predicate InPrivateSubnet(m: ModelView, e: Ec2Instance) {
    ResolvesTo(m, e.subnetId, Private)
  }

  function DbLinks(m: ModelView, es: seq<Ec2Instance>): seq<string> {
    if es == [] then []
    else DbLinks(m, es[..|es| - 1])
         + (if InPrivateSubnet(m, es[|es| - 1]) then DbEdges(es[|es| - 1], m.rdsDatabases) else [])
  }

  /** Every line of `generate_mermaid_diagram`, before the newline join. */
  function DiagramLines(m: ModelView): seq<string> {
    HeadLines() + VpcsLines(m.vpcs, m.ec2Instances, m.rdsDatabases) + LbNodes(m.loadBalancers)
    + RelationshipLines + LbEdges(m.loadBalancers) + DbLinks(m, m.ec2Instances)
  }

  // ---------------------------------------------------------------------
  // generate_mermaid_diagram
  // ---------------------------------------------------------------------

  lemma AppendAssoc(a: seq<string>, b: seq<string>, c: seq<string>)
    ensures a + b + c == a + (b + c)
  {
  }

  method AppendEc2Nodes(lines: seq<string>, es: seq<Ec2Instance>, subnetId: string) returns (out: seq<string>)
    ensures out == lines + Ec2Nodes(es, subnetId)
  {
    out := lines;
    var i := 0;
    while i < |es|
      invariant 0 <= i <= |es|
      invariant out == lines + Ec2Nodes(es[..i], subnetId)
    {
      assert es[..i + 1][..i] == es[..i];
      if es[i].subnetId == subnetId {
        AppendAssoc(lines, Ec2Nodes(es[..i], subnetId), [Ec2Node(es[i])]);
        out := out + [Ec2Node(es[i])];
      }
      i := i + 1;
    }
    assert es[..i] == es;
  }

  method AppendRdsNodes(lines: seq<string>, rs: seq<RdsDatabase>, subnetId: string) returns (out: seq<string>)
    ensures out == lines + RdsNodes(rs, subnetId)
  {
    out := lines;
    var i := 0;
    while i < |rs|
      invariant 0 <= i <= |rs|
      invariant out == lines + RdsNodes(rs[..i], subnetId)
    {
      assert rs[..i + 1][..i] == rs[..i];
      if subnetId in rs[i].subnetIds && subnetId == rs[i].subnetIds[0] {
        AppendAssoc(lines, RdsNodes(rs[..i], subnetId), [RdsNode(rs[i])]);
        out := out + [RdsNode(rs[i])];
      }
      i := i + 1;
    }
    assert rs[..i] == rs;
  }

  /** One subnet: its subgraph, the instances and databases placed in it, its end and style. */
  method AppendSubnet(lines: seq<string>, subnet: Subnet, es: seq<Ec2Instance>, rs: seq<RdsDatabase>)
    returns (out: seq<string>)
    ensures out == lines + SubnetLines(subnet, es, rs)
  {
    var open := [SubnetOpen(subnet), SubnetDirection];
    var close := [SubnetEnd, SubnetStyleLine(subnet)];
    out := AppendEc2Nodes(lines + open, es, subnet.id);
    AppendAssoc(lines, open, Ec2Nodes(es, subnet.id));
    out := AppendRdsNodes(out, rs, subnet.id);
    AppendAssoc(lines, open + Ec2Nodes(es, subnet.id), RdsNodes(rs, subnet.id));
    out := out + close;
    AppendAssoc(lines, open + Ec2Nodes(es, subnet.id) + RdsNodes(rs, subnet.id), close);
  }

  lemma SubnetsLinesStep(lines: seq<string>, ss: seq<Subnet>, es: seq<Ec2Instance>, rs: seq<RdsDatabase>, j: nat)
    requires j < |ss|
    ensures lines + SubnetsLines(ss[..j], es, rs) + SubnetLines(ss[j], es, rs) == lines + SubnetsLines(ss[..j + 1], es, rs)
  {
    assert ss[..j + 1][..j] == ss[..j];
    AppendAssoc(lines, SubnetsLines(ss[..j], es, rs), SubnetLines(ss[j], es, rs));
  }

  lemma VpcsLinesStep(lines: seq<string>, vs: seq<VpcView>, es: seq<Ec2Instance>, rs: seq<RdsDatabase>, i: nat)
    requires i < |vs|
    ensures lines + VpcsLines(vs[..i], es, rs) + VpcLines(vs[i], es, rs) == lines + VpcsLines(vs[..i + 1], es, rs)
  {
    assert vs[..i + 1][..i] == vs[..i];
    AppendAssoc(lines, VpcsLines(vs[..i], es, rs), VpcLines(vs[i], es, rs));
  }

  /** The subnet loop inside one VPC. */
  method AppendSubnets(lines: seq<string>, v: VpcView, es: seq<Ec2Instance>, rs: seq<RdsDatabase>)
    returns (out: seq<string>)
    ensures out == lines + SubnetsLines(v.subnets, es, rs)
  {
    out := lines;
    var j := 0;
    while j < |v.subnets|
      invariant 0 <= j <= |v.subnets|
      invariant out == lines + SubnetsLines(v.subnets[..j], es, rs)
    {
      SubnetsLinesStep(lines, v.subnets, es, rs, j);
      out := AppendSubnet(out, v.subnets[j], es, rs);
      j := j + 1;
    }
    assert v.subnets[..j] == v.subnets;
  }

  /** One VPC: its subgraph around its subnets, its end and style. */
  method AppendVpc(lines: seq<string>, vpc: VpcView, es: seq<Ec2Instance>, rs: seq<RdsDatabase>)
    returns (out: seq<string>)
    ensures out == lines + VpcLines(vpc, es, rs)
  {
    var open := [VpcOpen(vpc), VpcDirection];
    var close := [VpcEnd, VpcStyle(vpc), ""];
    out := AppendSubnets(lines + open, vpc, es, rs);
    AppendAssoc(lines, open, SubnetsLines(vpc.subnets, es, rs));
    out := out + close;
    AppendAssoc(lines, open + SubnetsLines(vpc.subnets, es, rs), close);
  }

  method AppendVpcs(lines: seq<string>, m: ModelView) returns (out: seq<string>)
    ensures out == lines + VpcsLines(m.vpcs, m.ec2Instances, m.rdsDatabases)
  {
    out := lines;
    var i := 0;
    while i < |m.vpcs|
      invariant 0 <= i <= |m.vpcs|
      invariant out == lines + VpcsLines(m.vpcs[..i], m.ec2Instances, m.rdsDatabases)
    {
      VpcsLinesStep(lines, m.vpcs, m.ec2Instances, m.rdsDatabases, i);
      out := AppendVpc(out, m.vpcs[i], m.ec2Instances, m.rdsDatabases);
      i := i + 1;
    }
    assert m.vpcs[..i] == m.vpcs;
  }

  method AppendLbNodes(lines: seq<string>, lbs: seq<LoadBalancer>) returns (out: seq<string>)
    ensures out == lines + LbNodes(lbs)
  {
    out := lines;
    var i := 0;
    while i < |lbs|
      invariant 0 <= i <= |lbs|
      invariant out == lines + LbNodes(lbs[..i])
    {
      AppendAssoc(lines, LbNodes(lbs[..i]), [LbNode(lbs[i]), LbStyle(lbs[i])]);
      out := out + [LbNode(lbs[i])];
      out := out + [LbStyle(lbs[i])];
      assert lbs[..i + 1][..i] == lbs[..i];
      i := i + 1;
    }
    assert lbs[..i] == lbs;
  }

  /** The target loop of one load balancer. */
  method AppendTargetEdges(lines: seq<string>, lb: LoadBalancer) returns (out: seq<string>)
    ensures out == lines + TargetEdges(lb, lb.targetInstanceIds)
  {
    out := lines;
    var t := 0;
    while t < |lb.targetInstanceIds|
      invariant 0 <= t <= |lb.targetInstanceIds|
      invariant out == lines + TargetEdges(lb, lb.targetInstanceIds[..t])
    {
      assert lb.targetInstanceIds[..t + 1][..t] == lb.targetInstanceIds[..t];
      AppendAssoc(lines, TargetEdges(lb, lb.targetInstanceIds[..t]), [TargetEdge(lb, lb.targetInstanceIds[t])]);
      out := out + [Indent + lb.id + " --> " + lb.targetInstanceIds[t]];
      t := t + 1;
    }
    assert lb.targetInstanceIds[..t] == lb.targetInstanceIds;
  }

  method AppendLbEdges(lines: seq<string>, lbs: seq<LoadBalancer>) returns (out: seq<string>)
    ensures out == lines + LbEdges(lbs)
  {
    out := lines;
    var i := 0;
    while i < |lbs|
      invariant 0 <= i <= |lbs|
      invariant out == lines + LbEdges(lbs[..i])
    {
      AppendAssoc(lines, LbEdges(lbs[..i]), TargetEdges(lbs[i], lbs[i].targetInstanceIds));
      out := AppendTargetEdges(out, lbs[i]);
      assert lbs[..i + 1][..i] == lbs[..i];
      i := i + 1;
    }
    assert lbs[..i] == lbs;
  }

  /** The database loop of one private instance. */
  method AppendDbEdges(lines: seq<string>, e: Ec2Instance, rs: seq<RdsDatabase>) returns (out: seq<string>)
    ensures out == lines + DbEdges(e, rs)
  {
    out := lines;
    var j := 0;
    while j < |rs|
      invariant 0 <= j <= |rs|
      invariant out == lines + DbEdges(e, rs[..j])
    {
      assert rs[..j + 1][..j] == rs[..j];
      AppendAssoc(lines, DbEdges(e, rs[..j]), [DbEdge(e, rs[j])]);
      out := out + [Indent + e.id + " -.-> " + rs[j].id];
      j := j + 1;
    }
    assert rs[..j] == rs;
  }

  method AppendDbLinks(lines: seq<string>, m: ModelView) returns (out: seq<string>)
    ensures out == lines + DbLinks(m, m.ec2Instances)
  {
    out := lines;
    var i := 0;
    while i < |m.ec2Instances|
      invariant 0 <= i <= |m.ec2Instances|
      invariant out == lines + DbLinks(m, m.ec2Instances[..i])
    {
      var e := m.ec2Instances[i];
      assert m.ec2Instances[..i + 1][..i] == m.ec2Instances[..i];
      var subnet := SubnetById(m.vpcs, e.subnetId);
      if subnet.Some? && subnet.value.subnetType == Private {
        AppendAssoc(lines, DbLinks(m, m.ec2Instances[..i]), DbEdges(e, m.rdsDatabases));
        out := AppendDbEdges(out, e, m.rdsDatabases);
      }
      i := i + 1;
    }
    assert m.ec2Instances[..i] == m.ec2Instances;
  }

  /** `generate_mermaid_diagram` */
  method GenerateMermaidDiagram(m: ModelView) returns (diagram: string)
    ensures diagram == Join(DiagramLines(m), "\n")
  {
    var lines := HeadLines();
    lines := AppendVpcs(lines, m);
    lines := AppendLbNodes(lines, m.loadBalancers);
    lines := lines + RelationshipLines;
    lines := AppendLbEdges(lines, m.loadBalancers);
    lines := AppendDbLinks(lines, m);
    diagram := Join(lines, "\n");
  }

  // ---------------------------------------------------------------------
  // generate_diagram_description
  // ---------------------------------------------------------------------

  function VpcSummary(v: VpcView): string {
    "VPC '" + v.name + "' (" + v.cidr + ") with " + NatToString(|v.subnets|) + " subnet(s)"
  }

  /** One summary per VPC, in order. */
  function VpcSummaries(vs: seq<VpcView>): (parts: seq<string>)
    ensures |parts| == |vs|
    ensures forall k :: 0 <= k < |vs| ==> parts[k] == VpcSummary(vs[k])
  {
    if vs == [] then [] else VpcSummaries(vs[..|vs| - 1]) + [VpcSummary(vs[|vs| - 1])]
  }

  function CountParts(m: ModelView): seq<string> {
    (if |m.ec2Instances| > 0 then [NatToString(|m.ec2Instances|) + " EC2 instance(s)"] else [])
    + (if |m.rdsDatabases| > 0 then [NatToString(|m.rdsDatabases|) + " RDS database(s)"] else [])
    + (if |m.loadBalancers| > 0 then [NatToString(|m.loadBalancers|) + " load balancer(s)"] else [])
  }

  function DescriptionParts(m: ModelView): seq<string> {
    VpcSummaries(m.vpcs) + CountParts(m)
  }

  /** `generate_diagram_description` */
  method GenerateDiagramDescription(m: ModelView) returns (description: string)
    ensures description == Join(DescriptionParts(m), ", ")
  {
    var parts: seq<string> := [];
    var i := 0;
    while i < |m.vpcs|
      invariant 0 <= i <= |m.vpcs|
      invariant parts == VpcSummaries(m.vpcs[..i])
    {
      assert m.vpcs[..i + 1][..i] == m.vpcs[..i];
      parts := parts + [VpcSummary(m.vpcs[i])];
      i := i + 1;
    }
    assert m.vpcs[..i] == m.vpcs;
    ghost var summaries := parts;
    if |m.ec2Instances| > 0 {
      parts := parts + [NatToString(|m.ec2Instances|) + " EC2 instance(s)"];
    }
    if |m.rdsDatabases| > 0 {
      parts := parts + [NatToString(|m.rdsDatabases|) + " RDS database(s)"];
    }
    if |m.loadBalancers| > 0 {
      parts := parts + [NatToString(|m.loadBalancers|) + " load balancer(s)"];
    }
    assert parts == summaries + CountParts(m);
    description := Join(parts, ", ");
  }

  // ---------------------------------------------------------------------
  // Reading the diagram back: subgraphs and nodes
  // ---------------------------------------------------------------------

  /** What a Mermaid reader finds on a line: a subgraph opening or closing, or a node. */
  datatype Item = Open | Close | Node(id: string)

  /** The first word of a line. */
  function Keyword(l: string): string {
    TakeUntil(StripLeft(l), ' ')
  }

  /** `subgraph` opens, `end` closes, a first word holding '[' declares the node named before it. */
  function ItemOf(l: string): seq<Item> {
    var w := Keyword(l);
    if w == "subgraph" then [Open]
    else if w == "end" then [Close]
    else if '[' in w then [Node(TakeUntil(w, '['))]
    else []
  }

  /** The items of a list of lines, in order. */
  function Items(lines: seq<string>): seq<Item> {
    if lines == [] then [] else Items(lines[..|lines| - 1]) + ItemOf(lines[|lines| - 1])
  }

  lemma {:induction false} ItemsAppend(a: seq<string>, b: seq<string>)
    ensures Items(a + b) == Items(a) + Items(b)
    decreases |b|
  {
    if b == [] {
      assert a + b == a;
    } else {
      assert (a + b)[..|a + b| - 1] == a + b[..|b| - 1];
      ItemsAppend(a, b[..|b| - 1]);
    }
  }

  lemma ItemsPair(x: string, y: string)
    ensures Items([x]) == ItemOf(x)
    ensures Items([x, y]) == ItemOf(x) + ItemOf(y)
  {
    assert [x, y][..1] == [x];
    assert [x][..0] == [];
  }

  /** An id Mermaid reads as one word: not empty, no whitespace or '[', not a keyword. */
  predicate PlainId(id: string) {
    |id| > 0 && id != "subgraph" && id != "end"
    && forall k :: 0 <= k < |id| ==> !IsSpace(id[k]) && id[k] != '['
  }

  predicate PlainEc2Ids(es: seq<Ec2Instance>) {
    forall k :: 0 <= k < |es| ==> PlainId(es[k].id)
  }

  predicate PlainRdsIds(rs: seq<RdsDatabase>) {
    forall k :: 0 <= k < |rs| ==> PlainId(rs[k].id)
  }

  predicate PlainLbIds(lbs: seq<LoadBalancer>) {
    forall k :: 0 <= k < |lbs| ==> PlainId(lbs[k].id)
  }

  predicate PlainIds(m: ModelView) {
    PlainEc2Ids(m.ec2Instances) && PlainRdsIds(m.rdsDatabases) && PlainLbIds(m.loadBalancers)
  }

  predicate Spaces(ind: string) {
    forall k :: 0 <= k < |ind| ==> ind[k] == ' '
  }

  /** The first word after the indentation, ended by a space or the end of the line. */
  lemma KeywordOf(ind: string, w: string, rest: string)
    requires Spaces(ind)
    requires |w| > 0 && !IsSpace(w[0]) && ' ' !in w
    requires rest == [] || rest[0] == ' '
    ensures Keyword(ind + w + rest) == w
  {
    assert ind + w + rest == ind + (w + rest);
    StripLeftIndent(ind, w + rest);
    if rest == [] {
      assert w + rest == w;
      TakeUntilNone(w, ' ');
    } else {
      assert w + rest == w + [' '] + rest[1..];
      TakeUntilOf(w, ' ', rest[1..]);
    }
  }

  /** A line whose first word is neither keyword nor node carries no item. */
  lemma QuietLine(ind: string, w: string, rest: string)
    requires Spaces(ind)
    requires |w| > 0 && !IsSpace(w[0]) && ' ' !in w && '[' !in w
    requires w != "subgraph" && w != "end"
    requires rest == [] || rest[0] == ' '
    ensures ItemOf(ind + w + rest) == []
  {
    KeywordOf(ind, w, rest);
  }

  lemma OpenLine(ind: string, rest: string)
    requires Spaces(ind)
    requires rest == [] || rest[0] == ' '
    ensures ItemOf(ind + "subgraph" + rest) == [Open]
  {
    KeywordOf(ind, "subgraph", rest);
  }

  lemma CloseLine(ind: string)
    requires Spaces(ind)
    ensures ItemOf(ind + "end") == [Close]
  {
    KeywordOf(ind, "end", []);
    assert ind + "end" + [] == ind + "end";
  }

  /** A node line: the id, then '[' and a tag up to the first space. */
  lemma NodeLine(ind: string, id: string, tag: string, rest: string)
    requires Spaces(ind) && PlainId(id) && ' ' !in tag
    requires rest == [] || rest[0] == ' '
    ensures ItemOf(ind + (id + "[" + tag) + rest) == [Node(id)]
  {
    var w := id + "[" + tag;
    assert w[0] == id[0];
    assert w[|id|] == '[';
    assert ' ' !in w by {
      forall k | 0 <= k < |w| ensures w[k] != ' ' {
        if k < |id| {
          assert w[k] == id[k];
        } else if k > |id| {
          assert w[k] == tag[k - |id| - 1];
        }
      }
    }
    KeywordOf(ind, w, rest);
    assert w != "subgraph" && w != "end" by {
      assert "subgraph"[..] == "subgraph";
      assert '[' !in "subgraph" && '[' !in "end";
    }
    TakeUntilOf(id, '[', tag);
  }

  lemma NodeTextItem(ind: string, id: string, icon: string, caption: string)
    requires Spaces(ind) && PlainId(id) && ' ' !in icon
    ensures ItemOf(NodeText(ind, id, icon, caption)) == [Node(id)]
  {
    var tag := "\"" + icon;
    assert ' ' !in tag by {
      forall k | 0 <= k < |tag| ensures tag[k] != ' ' {
        if k > 0 {
          assert tag[k] == icon[k - 1];
        }
      }
    }
    assert NodeText(ind, id, icon, caption) == ind + (id + "[" + tag) + (" " + caption + "\"]");
    NodeLine(ind, id, tag, " " + caption + "\"]");
  }

  /** An edge or other line whose first word is a plain id. */
  lemma IdLine(ind: string, id: string, rest: string)
    requires Spaces(ind) && PlainId(id)
    requires |rest| > 0 && rest[0] == ' '
    ensures ItemOf(ind + id + rest) == []
  {
    QuietLine(ind, id, rest);
  }

  // The outline: what the lines read back as.

  /** A node for each instance placed in the subnet. */
  function Ec2Items(es: seq<Ec2Instance>, subnetId: string): (items: seq<Item>)
    ensures forall k :: 0 <= k < |items| ==> items[k].Node?
  {
    if es == [] then []
    else Ec2Items(es[..|es| - 1], subnetId)
         + (if es[|es| - 1].subnetId == subnetId then [Node(es[|es| - 1].id)] else [])
  }

  /** A node for each database whose first subnet is this one. */
  function RdsItems(rs: seq<RdsDatabase>, subnetId: string): (items: seq<Item>)
    ensures forall k :: 0 <= k < |items| ==> items[k].Node?
  {
    if rs == [] then []
    else RdsItems(rs[..|rs| - 1], subnetId)
         + (if IsPrimarySubnet(rs[|rs| - 1], subnetId) then [Node(rs[|rs| - 1].id)] else [])
  }

  function SubnetItems(s: Subnet, es: seq<Ec2Instance>, rs: seq<RdsDatabase>): seq<Item> {
    [Open] + Ec2Items(es, s.id) + RdsItems(rs, s.id) + [Close]
  }

  function SubnetsItems(ss: seq<Subnet>, es: seq<Ec2Instance>, rs: seq<RdsDatabase>): seq<Item> {
    if ss == [] then [] else SubnetsItems(ss[..|ss| - 1], es, rs) + SubnetItems(ss[|ss| - 1], es, rs)
  }

  function VpcItems(v: VpcView, es: seq<Ec2Instance>, rs: seq<RdsDatabase>): seq<Item> {
    [Open] + SubnetsItems(v.subnets, es, rs) + [Close]
  }

  function VpcsItems(vs: seq<VpcView>, es: seq<Ec2Instance>, rs: seq<RdsDatabase>): seq<Item> {
    if vs == [] then [] else VpcsItems(vs[..|vs| - 1], es, rs) + VpcItems(vs[|vs| - 1], es, rs)
  }

  function LbItems(lbs: seq<LoadBalancer>): (items: seq<Item>)
    ensures forall k :: 0 <= k < |items| ==> items[k].Node?
  {
    if lbs == [] then [] else LbItems(lbs[..|lbs| - 1]) + [Node(lbs[|lbs| - 1].id)]
  }

  /**
   * The diagram as a reader sees it: per VPC a subgraph holding one subgraph
   * per subnet, which holds the nodes placed there; then the load balancers.
   */
  function DiagramOutline(m: ModelView): seq<Item> {
    VpcsItems(m.vpcs, m.ec2Instances, m.rdsDatabases) + LbItems(m.loadBalancers)
  }

  // The lines read back as the outline.

  /** A `%%` comment line. */
  lemma CommentLineQuiet(text: string)
    ensures ItemOf(Indent + "%% " + text) == []
  {
    assert Indent + "%% " + text == Indent + "%%" + (" " + text);
    QuietLine(Indent, "%%", " " + text);
  }

  lemma GraphLineQuiet()
    ensures ItemOf(GraphLine) == []
  {
    assert "" + "graph" + " TB" == GraphLine by {
      assert "graph TB" == "graph" + " TB";
    }
    QuietLine("", "graph", " TB");
  }

  lemma HeadLinesItems()
    ensures Items(HeadLines()) == []
  {
    var comment := Indent + "%% " + DiagramTitle;
    assert HeadLines() == [GraphLine, comment] + [""];
    ItemsAppend([GraphLine, comment], [""]);
    ItemsPair(GraphLine, comment);
    ItemsPair("", "");
    GraphLineQuiet();
    CommentLineQuiet(DiagramTitle);
    EmptyLineQuiet();
  }

  lemma RelationshipLinesItems()
    ensures Items(RelationshipLines) == []
  {
    ItemsPair("", Indent + "%% " + RelationshipsTitle);
    CommentLineQuiet(RelationshipsTitle);
    assert Keyword("") == "";
  }

  lemma Ec2NodeItem(e: Ec2Instance)
    requires PlainId(e.id)
    ensures ItemOf(Ec2Node(e)) == [Node(e.id)]
  {
    NodeTextItem(NodeIndent, e.id, "\U{1F5A5}\U{FE0F}", e.name + "<br/>" + InstanceTypeValue(e.instanceType));
  }

  lemma RdsNodeItem(r: RdsDatabase)
    requires PlainId(r.id)
    ensures ItemOf(RdsNode(r)) == [Node(r.id)]
  {
    NodeTextItem(NodeIndent, r.id, "\U{1F5C4}\U{FE0F}",
                 r.name + "<br/>" + DatabaseEngineValue(r.engine) + "<br/>" + r.instanceClass);
  }

  lemma {:induction false} Ec2NodesItems(es: seq<Ec2Instance>, subnetId: string)
    requires PlainEc2Ids(es)
    ensures Items(Ec2Nodes(es, subnetId)) == Ec2Items(es, subnetId)
  {
    if es != [] {
      var e := es[|es| - 1];
      Ec2NodesItems(es[..|es| - 1], subnetId);
      if e.subnetId == subnetId {
        ItemsAppend(Ec2Nodes(es[..|es| - 1], subnetId), [Ec2Node(e)]);
        ItemsPair(Ec2Node(e), Ec2Node(e));
        Ec2NodeItem(e);
      } else {
        assert Ec2Nodes(es, subnetId) == Ec2Nodes(es[..|es| - 1], subnetId);
      }
    }
  }

  lemma {:induction false} RdsNodesItems(rs: seq<RdsDatabase>, subnetId: string)
    requires PlainRdsIds(rs)
    ensures Items(RdsNodes(rs, subnetId)) == RdsItems(rs, subnetId)
  {
    if rs != [] {
      var r := rs[|rs| - 1];
      RdsNodesItems(rs[..|rs| - 1], subnetId);
      if IsPrimarySubnet(r, subnetId) {
        ItemsAppend(RdsNodes(rs[..|rs| - 1], subnetId), [RdsNode(r)]);
        ItemsPair(RdsNode(r), RdsNode(r));
        RdsNodeItem(r);
      } else {
        assert RdsNodes(rs, subnetId) == RdsNodes(rs[..|rs| - 1], subnetId);
      }
    }
  }

  lemma EmptyLineQuiet()
    ensures ItemOf("") == []
  {
    assert Keyword("") == "";
  }

  lemma StyleLineQuiet(ind: string, rest: string)
    requires Spaces(ind)
    requires |rest| > 0 && rest[0] == ' '
    ensures ItemOf(ind + "style" + rest) == []
  {
    QuietLine(ind, "style", rest);
  }

  lemma DirectionLineQuiet(ind: string)
    requires Spaces(ind)
    ensures ItemOf(ind + "direction TB") == []
  {
    assert ind + "direction TB" == ind + "direction" + " TB";
    QuietLine(ind, "direction", " TB");
  }

  lemma SubnetLineItems(s: Subnet)
    ensures ItemOf(SubnetOpen(s)) == [Open]
    ensures ItemOf(SubnetDirection) == []
    ensures ItemOf(SubnetEnd) == [Close]
    ensures ItemOf(SubnetStyleLine(s)) == []
  {
    OpenLine(SubnetIndent, " " + s.id + "[\"" + s.name + "<br/>" + s.cidr + "<br/>(" + SubnetTypeValue(s.subnetType) + ")\"]");
    DirectionLineQuiet(NodeIndent);
    CloseLine(SubnetIndent);
    StyleLineQuiet(SubnetIndent, " " + s.id + " " + SubnetStyle(s));
  }

  lemma VpcLineItems(v: VpcView)
    ensures ItemOf(VpcOpen(v)) == [Open]
    ensures ItemOf(VpcDirection) == []
    ensures ItemOf(VpcEnd) == [Close]
    ensures ItemOf(VpcStyle(v)) == []
  {
    OpenLine(Indent, " " + v.id + "[\"" + v.name + "<br/>" + v.cidr + "\"]");
    DirectionLineQuiet(SubnetIndent);
    CloseLine(Indent);
    StyleLineQuiet(Indent, " " + v.id + " fill:#e1e8f5,stroke:#333,stroke-width:2px");
  }

  lemma LbLineItems(lb: LoadBalancer)
    requires PlainId(lb.id)
    ensures ItemOf(LbNode(lb)) == [Node(lb.id)]
    ensures ItemOf(LbStyle(lb)) == []
  {
    NodeTextItem(Indent, lb.id, "\U{2696}\U{FE0F}", lb.name + "<br/>Application Load Balancer");
    StyleLineQuiet(Indent, " " + lb.id + " fill:#fff4e1,stroke:#333,stroke-width:2px");
  }

  lemma TargetEdgeQuiet(lb: LoadBalancer, t: string)
    requires PlainId(lb.id)
    ensures ItemOf(TargetEdge(lb, t)) == []
  {
    assert TargetEdge(lb, t) == Indent + lb.id + (" --> " + t);
    IdLine(Indent, lb.id, " --> " + t);
  }

  lemma DbEdgeQuiet(e: Ec2Instance, r: RdsDatabase)
    requires PlainId(e.id)
    ensures ItemOf(DbEdge(e, r)) == []
  {
    assert DbEdge(e, r) == Indent + e.id + (" -.-> " + r.id);
    IdLine(Indent, e.id, " -.-> " + r.id);
  }

  lemma SubnetFrameItems(s: Subnet)
    ensures Items([SubnetOpen(s), SubnetDirection]) == [Open]
    ensures Items([SubnetEnd, SubnetStyleLine(s)]) == [Close]
  {
    SubnetLineItems(s);
    ItemsPair(SubnetOpen(s), SubnetDirection);
    ItemsPair(SubnetEnd, SubnetStyleLine(s));
  }

  /** The lines of one subnet read as its subgraph around its nodes. */
  lemma SubnetLinesItems(s: Subnet, es: seq<Ec2Instance>, rs: seq<RdsDatabase>)
    requires PlainEc2Ids(es) && PlainRdsIds(rs)
    ensures Items(SubnetLines(s, es, rs)) == SubnetItems(s, es, rs)
  {
    var open := [SubnetOpen(s), SubnetDirection];
    var close := [SubnetEnd, SubnetStyleLine(s)];
    var nodes := Ec2Nodes(es, s.id);
    var dbs := RdsNodes(rs, s.id);
    assert SubnetLines(s, es, rs) == open + nodes + dbs + close;
    SubnetFrameItems(s);
    Ec2NodesItems(es, s.id);
    RdsNodesItems(rs, s.id);
    ItemsAppend(open, nodes);
    ItemsAppend(open + nodes, dbs);
    ItemsAppend(open + nodes + dbs, close);
  }

  lemma {:induction false} SubnetsLinesItems(ss: seq<Subnet>, es: seq<Ec2Instance>, rs: seq<RdsDatabase>)
    requires PlainEc2Ids(es) && PlainRdsIds(rs)
    ensures Items(SubnetsLines(ss, es, rs)) == SubnetsItems(ss, es, rs)
  {
    if ss != [] {
      SubnetsLinesItems(ss[..|ss| - 1], es, rs);
      ItemsAppend(SubnetsLines(ss[..|ss| - 1], es, rs), SubnetLines(ss[|ss| - 1], es, rs));
      SubnetLinesItems(ss[|ss| - 1], es, rs);
    }
  }

  lemma VpcFrameItems(v: VpcView)
    ensures Items([VpcOpen(v), VpcDirection]) == [Open]
    ensures Items([VpcEnd, VpcStyle(v), ""]) == [Close]
  {
    VpcLineItems(v);
    EmptyLineQuiet();
    ItemsPair(VpcOpen(v), VpcDirection);
    ItemsPair(VpcEnd, VpcStyle(v));
    assert [VpcEnd, VpcStyle(v), ""] == [VpcEnd, VpcStyle(v)] + [""];
    ItemsAppend([VpcEnd, VpcStyle(v)], [""]);
    ItemsPair("", "");
  }

  /** The lines of one VPC read as its subgraph around its subnets' subgraphs. */
  lemma VpcLinesItems(v: VpcView, es: seq<Ec2Instance>, rs: seq<RdsDatabase>)
    requires PlainEc2Ids(es) && PlainRdsIds(rs)
    ensures Items(VpcLines(v, es, rs)) == VpcItems(v, es, rs)
  {
    var open := [VpcOpen(v), VpcDirection];
    var close := [VpcEnd, VpcStyle(v), ""];
    var inner := SubnetsLines(v.subnets, es, rs);
    assert VpcLines(v, es, rs) == open + inner + close;
    ItemsAppend(open + inner, close);
    ItemsAppend(open, inner);
    VpcFrameItems(v);
    SubnetsLinesItems(v.subnets, es, rs);
  }

  lemma {:induction false} VpcsLinesItems(vs: seq<VpcView>, es: seq<Ec2Instance>, rs: seq<RdsDatabase>)
    requires PlainEc2Ids(es) && PlainRdsIds(rs)
    ensures Items(VpcsLines(vs, es, rs)) == VpcsItems(vs, es, rs)
  {
    if vs != [] {
      VpcsLinesItems(vs[..|vs| - 1], es, rs);
      ItemsAppend(VpcsLines(vs[..|vs| - 1], es, rs), VpcLines(vs[|vs| - 1], es, rs));
      VpcLinesItems(vs[|vs| - 1], es, rs);
    }
  }

  lemma {:induction false} LbNodesItems(lbs: seq<LoadBalancer>)
    requires PlainLbIds(lbs)
    ensures Items(LbNodes(lbs)) == LbItems(lbs)
  {
    if lbs != [] {
      var lb := lbs[|lbs| - 1];
      LbNodesItems(lbs[..|lbs| - 1]);
      ItemsAppend(LbNodes(lbs[..|lbs| - 1]), [LbNode(lb), LbStyle(lb)]);
      ItemsPair(LbNode(lb), LbStyle(lb));
      LbLineItems(lb);
    }
  }

  lemma {:induction false} TargetEdgesItems(lb: LoadBalancer, targets: seq<string>)
    requires PlainId(lb.id)
    ensures Items(TargetEdges(lb, targets)) == []
  {
    if targets != [] {
      var t := targets[|targets| - 1];
      TargetEdgesItems(lb, targets[..|targets| - 1]);
      ItemsAppend(TargetEdges(lb, targets[..|targets| - 1]), [TargetEdge(lb, t)]);
      ItemsPair(TargetEdge(lb, t), TargetEdge(lb, t));
      TargetEdgeQuiet(lb, t);
    }
  }

  lemma {:induction false} LbEdgesItems(lbs: seq<LoadBalancer>)
    requires PlainLbIds(lbs)
    ensures Items(LbEdges(lbs)) == []
  {
    if lbs != [] {
      var lb := lbs[|lbs| - 1];
      LbEdgesItems(lbs[..|lbs| - 1]);
      ItemsAppend(LbEdges(lbs[..|lbs| - 1]), TargetEdges(lb, lb.targetInstanceIds));
      TargetEdgesItems(lb, lb.targetInstanceIds);
    }
  }

  lemma {:induction false} DbEdgesItems(e: Ec2Instance, rs: seq<RdsDatabase>)
    requires PlainId(e.id)
    ensures Items(DbEdges(e, rs)) == []
  {
    if rs != [] {
      var r := rs[|rs| - 1];
      DbEdgesItems(e, rs[..|rs| - 1]);
      ItemsAppend(DbEdges(e, rs[..|rs| - 1]), [DbEdge(e, r)]);
      ItemsPair(DbEdge(e, r), DbEdge(e, r));
      DbEdgeQuiet(e, r);
    }
  }

  lemma {:induction false} DbLinksItems(m: ModelView, es: seq<Ec2Instance>)
    requires PlainEc2Ids(es)
    ensures Items(DbLinks(m, es)) == []
  {
    if es != [] {
      var e := es[|es| - 1];
      DbLinksItems(m, es[..|es| - 1]);
      if InPrivateSubnet(m, e) {
        ItemsAppend(DbLinks(m, es[..|es| - 1]), DbEdges(e, m.rdsDatabases));
        DbEdgesItems(e, m.rdsDatabases);
      } else {
        assert DbLinks(m, es) == DbLinks(m, es[..|es| - 1]);
      }
    }
  }

  /**
   * With Mermaid-safe ids, the diagram reads back as its outline: the VPC
   * subgraphs with their subnet subgraphs and the nodes placed in them, then
   * the load balancer nodes; edges and styles add no items.
   */
  lemma DiagramItems(m: ModelView)
    requires PlainIds(m)
    ensures Items(DiagramLines(m)) == DiagramOutline(m)
  {
    var h := HeadLines();
    var v := VpcsLines(m.vpcs, m.ec2Instances, m.rdsDatabases);
    var n := LbNodes(m.loadBalancers);
    var e := LbEdges(m.loadBalancers);
    var d := DbLinks(m, m.ec2Instances);
    assert DiagramLines(m) == h + v + n + RelationshipLines + e + d;
    HeadLinesItems();
    VpcsLinesItems(m.vpcs, m.ec2Instances, m.rdsDatabases);
    ItemsAppend(h, v);
    assert Items(h + v) == VpcsItems(m.vpcs, m.ec2Instances, m.rdsDatabases);
    LbNodesItems(m.loadBalancers);
    ItemsAppend(h + v, n);
    assert Items(h + v + n) == DiagramOutline(m);
    RelationshipLinesItems();
    ItemsAppend(h + v + n, RelationshipLines);
    assert Items(h + v + n + RelationshipLines) == DiagramOutline(m);
    LbEdgesItems(m.loadBalancers);
    ItemsAppend(h + v + n + RelationshipLines, e);
    assert Items(h + v + n + RelationshipLines + e) == DiagramOutline(m);
    DbLinksItems(m, m.ec2Instances);
    ItemsAppend(h + v + n + RelationshipLines + e, d);
  }


  // Subgraphs: one per VPC and one per subnet, each opened and closed.

  function CountItem(items: seq<Item>, it: Item): nat {
    if items == [] then 0
    else CountItem(items[..|items| - 1], it) + (if items[|items| - 1] == it then 1 else 0)
  }

  lemma {:induction false} CountItemAppend(a: seq<Item>, b: seq<Item>, it: Item)
    ensures CountItem(a + b, it) == CountItem(a, it) + CountItem(b, it)
    decreases |b|
  {
    if b == [] {
      assert a + b == a;
    } else {
      assert (a + b)[..|a + b| - 1] == a + b[..|b| - 1];
      CountItemAppend(a, b[..|b| - 1], it);
    }
  }

  lemma {:induction false} NodesHaveNoSubgraph(items: seq<Item>)
    requires forall k :: 0 <= k < |items| ==> items[k].Node?
    ensures CountItem(items, Open) == 0 && CountItem(items, Close) == 0
  {
    if items != [] {
      NodesHaveNoSubgraph(items[..|items| - 1]);
    }
  }

  lemma SubnetItemsSubgraphs(s: Subnet, es: seq<Ec2Instance>, rs: seq<RdsDatabase>)
    ensures CountItem(SubnetItems(s, es, rs), Open) == 1
    ensures CountItem(SubnetItems(s, es, rs), Close) == 1
  {
    var nodes := Ec2Items(es, s.id);
    var dbs := RdsItems(rs, s.id);
    assert SubnetItems(s, es, rs) == [Open] + nodes + dbs + [Close];
    NodesHaveNoSubgraph(nodes);
    NodesHaveNoSubgraph(dbs);
    assert CountItem([Open], Open) == 1 && CountItem([Open], Close) == 0 by {
      assert [Open][..0] == [];
    }
    assert CountItem([Close], Open) == 0 && CountItem([Close], Close) == 1 by {
      assert [Close][..0] == [];
    }
    forall it | it == Open || it == Close
      ensures CountItem(SubnetItems(s, es, rs), it) == CountItem([Open], it) + CountItem([Close], it)
    {
      CountItemAppend([Open], nodes, it);
      CountItemAppend([Open] + nodes, dbs, it);
      CountItemAppend([Open] + nodes + dbs, [Close], it);
    }
  }

  lemma {:induction false} SubnetsItemsSubgraphs(ss: seq<Subnet>, es: seq<Ec2Instance>, rs: seq<RdsDatabase>)
    ensures CountItem(SubnetsItems(ss, es, rs), Open) == |ss|
    ensures CountItem(SubnetsItems(ss, es, rs), Close) == |ss|
  {
    if ss != [] {
      SubnetsItemsSubgraphs(ss[..|ss| - 1], es, rs);
      SubnetItemsSubgraphs(ss[|ss| - 1], es, rs);
      CountItemAppend(SubnetsItems(ss[..|ss| - 1], es, rs), SubnetItems(ss[|ss| - 1], es, rs), Open);
      CountItemAppend(SubnetsItems(ss[..|ss| - 1], es, rs), SubnetItems(ss[|ss| - 1], es, rs), Close);
    }
  }

  lemma VpcItemsSubgraphs(v: VpcView, es: seq<Ec2Instance>, rs: seq<RdsDatabase>)
    ensures CountItem(VpcItems(v, es, rs), Open) == 1 + |v.subnets|
    ensures CountItem(VpcItems(v, es, rs), Close) == 1 + |v.subnets|
  {
    var inner := SubnetsItems(v.subnets, es, rs);
    SubnetsItemsSubgraphs(v.subnets, es, rs);
    assert CountItem([Open], Open) == 1 && CountItem([Open], Close) == 0 by {
      assert [Open][..0] == [];
    }
    assert CountItem([Close], Open) == 0 && CountItem([Close], Close) == 1 by {
      assert [Close][..0] == [];
    }
    forall it | it == Open || it == Close
      ensures CountItem(VpcItems(v, es, rs), it) == CountItem([Open], it) + CountItem(inner, it) + CountItem([Close], it)
    {
      CountItemAppend([Open], inner, it);
      CountItemAppend([Open] + inner, [Close], it);
    }
  }

  lemma {:induction false} VpcsItemsSubgraphs(vs: seq<VpcView>, es: seq<Ec2Instance>, rs: seq<RdsDatabase>)
    ensures CountItem(VpcsItems(vs, es, rs), Open) == |vs| + SubnetTotal(vs)
    ensures CountItem(VpcsItems(vs, es, rs), Close) == |vs| + SubnetTotal(vs)
  {
    if vs != [] {
      VpcsItemsSubgraphs(vs[..|vs| - 1], es, rs);
      VpcItemsSubgraphs(vs[|vs| - 1], es, rs);
      CountItemAppend(VpcsItems(vs[..|vs| - 1], es, rs), VpcItems(vs[|vs| - 1], es, rs), Open);
      CountItemAppend(VpcsItems(vs[..|vs| - 1], es, rs), VpcItems(vs[|vs| - 1], es, rs), Close);
    }
  }

  /** The diagram opens one subgraph per VPC and per subnet, and closes as many. */
  lemma DiagramSubgraphs(m: ModelView)
    requires PlainIds(m)
    ensures CountItem(Items(DiagramLines(m)), Open) == |m.vpcs| + SubnetTotal(m.vpcs)
    ensures CountItem(Items(DiagramLines(m)), Close) == |m.vpcs| + SubnetTotal(m.vpcs)
  {
    DiagramItems(m);
    VpcsItemsSubgraphs(m.vpcs, m.ec2Instances, m.rdsDatabases);
    NodesHaveNoSubgraph(LbItems(m.loadBalancers));
    CountItemAppend(VpcsItems(m.vpcs, m.ec2Instances, m.rdsDatabases), LbItems(m.loadBalancers), Open);
    CountItemAppend(VpcsItems(m.vpcs, m.ec2Instances, m.rdsDatabases), LbItems(m.loadBalancers), Close);
  }

  // Nodes: which resources are drawn, and where.

  /** The node `x` is an instance placed in the subnet or a database whose first subnet it is. */
  predicate DrawnIn(s: Subnet, es: seq<Ec2Instance>, rs: seq<RdsDatabase>, x: string) {
    (exists k :: 0 <= k < |es| && es[k].id == x && es[k].subnetId == s.id)
    || (exists k :: 0 <= k < |rs| && rs[k].id == x && IsPrimarySubnet(rs[k], s.id))
  }

  /** Some subnet of some VPC draws the node `x`. */
  predicate DrawnInVpcs(vs: seq<VpcView>, es: seq<Ec2Instance>, rs: seq<RdsDatabase>, x: string) {
    exists i, j :: 0 <= i < |vs| && 0 <= j < |vs[i].subnets| && DrawnIn(vs[i].subnets[j], es, rs, x)
  }

  lemma {:induction false} Ec2ItemsPlaced(es: seq<Ec2Instance>, subnetId: string, x: string)
    ensures Node(x) in Ec2Items(es, subnetId)
            <==> exists k :: 0 <= k < |es| && es[k].id == x && es[k].subnetId == subnetId
  {
    if es != [] {
      var init := es[..|es| - 1];
      Ec2ItemsPlaced(init, subnetId, x);
      if exists k :: 0 <= k < |init| && init[k].id == x && init[k].subnetId == subnetId {
        var k :| 0 <= k < |init| && init[k].id == x && init[k].subnetId == subnetId;
        assert es[k] == init[k];
      }
      if exists k :: 0 <= k < |es| && es[k].id == x && es[k].subnetId == subnetId {
        var k :| 0 <= k < |es| && es[k].id == x && es[k].subnetId == subnetId;
        if k < |init| {
          assert init[k] == es[k];
        }
      }
    }
  }

  lemma RdsItemsSnoc(rs: seq<RdsDatabase>, subnetId: string, x: string)
    requires rs != []
    ensures Node(x) in RdsItems(rs, subnetId)
            <==> Node(x) in RdsItems(rs[..|rs| - 1], subnetId)
                 || (rs[|rs| - 1].id == x && IsPrimarySubnet(rs[|rs| - 1], subnetId))
  {
  }

  lemma {:induction false} RdsItemsPlaced(rs: seq<RdsDatabase>, subnetId: string, x: string)
    ensures Node(x) in RdsItems(rs, subnetId)
            <==> exists k :: 0 <= k < |rs| && rs[k].id == x && IsPrimarySubnet(rs[k], subnetId)
  {
    if rs != [] {
      var init := rs[..|rs| - 1];
      RdsItemsPlaced(init, subnetId, x);
      RdsItemsSnoc(rs, subnetId, x);
      if exists k :: 0 <= k < |init| && init[k].id == x && IsPrimarySubnet(init[k], subnetId) {
        var k :| 0 <= k < |init| && init[k].id == x && IsPrimarySubnet(init[k], subnetId);
        assert rs[k] == init[k];
      }
      if exists k :: 0 <= k < |rs| && rs[k].id == x && IsPrimarySubnet(rs[k], subnetId) {
        var k :| 0 <= k < |rs| && rs[k].id == x && IsPrimarySubnet(rs[k], subnetId);
        if k < |init| {
          assert init[k] == rs[k];
        }
      }
    }
  }

  /** A subnet's subgraph holds exactly the instances placed in it and the databases it comes first for. */
  lemma SubnetItemsNodes(s: Subnet, es: seq<Ec2Instance>, rs: seq<RdsDatabase>, x: string)
    ensures Node(x) in SubnetItems(s, es, rs) <==> DrawnIn(s, es, rs, x)
  {
    Ec2ItemsPlaced(es, s.id, x);
    RdsItemsPlaced(rs, s.id, x);
    assert SubnetItems(s, es, rs) == [Open] + (Ec2Items(es, s.id) + RdsItems(rs, s.id)) + [Close];
  }

  lemma {:induction false} SubnetsItemsNodes(ss: seq<Subnet>, es: seq<Ec2Instance>, rs: seq<RdsDatabase>, x: string)
    ensures Node(x) in SubnetsItems(ss, es, rs) <==> exists j :: 0 <= j < |ss| && DrawnIn(ss[j], es, rs, x)
  {
    if ss != [] {
      SubnetsItemsNodes(ss[..|ss| - 1], es, rs, x);
      SubnetItemsNodes(ss[|ss| - 1], es, rs, x);
      DrawnInSomeSnoc(ss, es, rs, x);
    }
  }

  /** Some subnet of `ss` draws the node `x`. */
  predicate DrawnInSome(ss: seq<Subnet>, es: seq<Ec2Instance>, rs: seq<RdsDatabase>, x: string) {
    exists j :: 0 <= j < |ss| && DrawnIn(ss[j], es, rs, x)
  }

  /** Some subnet of `ss` draws `x` exactly when one before the last does or the last does. */
  lemma DrawnInSomeSnoc(ss: seq<Subnet>, es: seq<Ec2Instance>, rs: seq<RdsDatabase>, x: string)
    requires ss != []
    ensures DrawnInSome(ss, es, rs, x)
            <==> DrawnInSome(ss[..|ss| - 1], es, rs, x) || DrawnIn(ss[|ss| - 1], es, rs, x)
  {
    var init := ss[..|ss| - 1];
    if exists j :: 0 <= j < |init| && DrawnIn(init[j], es, rs, x) {
      var j :| 0 <= j < |init| && DrawnIn(init[j], es, rs, x);
      assert ss[j] == init[j];
    }
    if exists j :: 0 <= j < |ss| && DrawnIn(ss[j], es, rs, x) {
      var j :| 0 <= j < |ss| && DrawnIn(ss[j], es, rs, x);
      if j < |init| {
        assert init[j] == ss[j];
      }
    }
  }

  /** A VPC's subgraph holds exactly the nodes some subnet of it draws. */
  lemma VpcItemsNodes(v: VpcView, es: seq<Ec2Instance>, rs: seq<RdsDatabase>, x: string)
    ensures Node(x) in VpcItems(v, es, rs) <==> DrawnInSome(v.subnets, es, rs, x)
  {
    SubnetsItemsNodes(v.subnets, es, rs, x);
  }

  /** Some VPC of `vs` draws `x` exactly when one before the last does or a subnet of the last does. */
  lemma DrawnInVpcsSnoc(vs: seq<VpcView>, es: seq<Ec2Instance>, rs: seq<RdsDatabase>, x: string)
    requires vs != []
    ensures DrawnInVpcs(vs, es, rs, x)
            <==> DrawnInVpcs(vs[..|vs| - 1], es, rs, x) || DrawnInSome(vs[|vs| - 1].subnets, es, rs, x)
  {
    var init := vs[..|vs| - 1];
    var v := vs[|vs| - 1];
    if DrawnInVpcs(init, es, rs, x) {
      var i, j :| 0 <= i < |init| && 0 <= j < |init[i].subnets| && DrawnIn(init[i].subnets[j], es, rs, x);
      assert vs[i] == init[i];
    }
    if DrawnInSome(v.subnets, es, rs, x) {
      var j :| 0 <= j < |v.subnets| && DrawnIn(v.subnets[j], es, rs, x);
      assert vs[|vs| - 1].subnets[j] == v.subnets[j];
    }
    if DrawnInVpcs(vs, es, rs, x) {
      var i, j :| 0 <= i < |vs| && 0 <= j < |vs[i].subnets| && DrawnIn(vs[i].subnets[j], es, rs, x);
      if i < |init| {
        assert init[i] == vs[i];
      }
    }
  }

  lemma {:induction false} VpcsItemsNodes(vs: seq<VpcView>, es: seq<Ec2Instance>, rs: seq<RdsDatabase>, x: string)
    ensures Node(x) in VpcsItems(vs, es, rs) <==> DrawnInVpcs(vs, es, rs, x)
  {
    if vs != [] {
      VpcsItemsNodes(vs[..|vs| - 1], es, rs, x);
      VpcItemsNodes(vs[|vs| - 1], es, rs, x);
      DrawnInVpcsSnoc(vs, es, rs, x);
    }
  }

  lemma LbItemsSnoc(lbs: seq<LoadBalancer>, x: string)
    requires lbs != []
    ensures Node(x) in LbItems(lbs) <==> Node(x) in LbItems(lbs[..|lbs| - 1]) || lbs[|lbs| - 1].id == x
  {
  }

  lemma {:induction false} LbItemsNodes(lbs: seq<LoadBalancer>, x: string)
    ensures Node(x) in LbItems(lbs) <==> exists k :: 0 <= k < |lbs| && lbs[k].id == x
  {
    if lbs != [] {
      var init := lbs[..|lbs| - 1];
      LbItemsNodes(init, x);
      LbItemsSnoc(lbs, x);
      if exists k :: 0 <= k < |init| && init[k].id == x {
        var k :| 0 <= k < |init| && init[k].id == x;
        assert lbs[k] == init[k];
      }
      if exists k :: 0 <= k < |lbs| && lbs[k].id == x {
        var k :| 0 <= k < |lbs| && lbs[k].id == x;
        if k < |init| {
          assert init[k] == lbs[k];
        }
      }
    }
  }

  /**
   * A node appears in the diagram exactly when some subnet subgraph draws it
   * or it is a load balancer.
   */
  lemma DiagramNodes(m: ModelView, x: string)
    requires PlainIds(m)
    ensures Node(x) in Items(DiagramLines(m))
            <==> DrawnInVpcs(m.vpcs, m.ec2Instances, m.rdsDatabases, x)
                 || exists k :: 0 <= k < |m.loadBalancers| && m.loadBalancers[k].id == x
  {
    DiagramItems(m);
    VpcsItemsNodes(m.vpcs, m.ec2Instances, m.rdsDatabases, x);
    LbItemsNodes(m.loadBalancers, x);
  }

  lemma Ec2PlacedIsDrawn(vs: seq<VpcView>, es: seq<Ec2Instance>, rs: seq<RdsDatabase>, k: int)
    requires 0 <= k < |es| && HasSubnet(vs, es[k].subnetId)
    ensures DrawnInVpcs(vs, es, rs, es[k].id)
  {
    var i, j :| SubnetAt(vs, i, j, es[k].subnetId);
    assert DrawnIn(vs[i].subnets[j], es, rs, es[k].id);
  }

  lemma Ec2DrawnIsPlaced(vs: seq<VpcView>, es: seq<Ec2Instance>, rs: seq<RdsDatabase>, k: int)
    requires 0 <= k < |es| && DrawnInVpcs(vs, es, rs, es[k].id)
    requires forall j :: 0 <= j < |es| && es[j].id == es[k].id ==> j == k
    requires forall j :: 0 <= j < |rs| ==> rs[j].id != es[k].id
    ensures HasSubnet(vs, es[k].subnetId)
  {
    var i, j :| 0 <= i < |vs| && 0 <= j < |vs[i].subnets| && DrawnIn(vs[i].subnets[j], es, rs, es[k].id);
    var k' :| 0 <= k' < |es| && es[k'].id == es[k].id && es[k'].subnetId == vs[i].subnets[j].id;
    assert SubnetAt(vs, i, j, es[k].subnetId);
  }

  /**
   * With unique ids, an instance is drawn exactly when its subnet id names a
   * subnet of some VPC; an instance whose subnet is in no VPC is left out.
   */
  lemma Ec2DrawnIffPlaced(m: ModelView, k: int)
    requires PlainIds(m) && 0 <= k < |m.ec2Instances|
    requires forall j :: 0 <= j < |m.ec2Instances| && m.ec2Instances[j].id == m.ec2Instances[k].id ==> j == k
    requires forall j :: 0 <= j < |m.rdsDatabases| ==> m.rdsDatabases[j].id != m.ec2Instances[k].id
    requires forall j :: 0 <= j < |m.loadBalancers| ==> m.loadBalancers[j].id != m.ec2Instances[k].id
    ensures Node(m.ec2Instances[k].id) in Items(DiagramLines(m)) <==> HasSubnet(m.vpcs, m.ec2Instances[k].subnetId)
  {
    DiagramNodes(m, m.ec2Instances[k].id);
    if HasSubnet(m.vpcs, m.ec2Instances[k].subnetId) {
      Ec2PlacedIsDrawn(m.vpcs, m.ec2Instances, m.rdsDatabases, k);
    }
    if DrawnInVpcs(m.vpcs, m.ec2Instances, m.rdsDatabases, m.ec2Instances[k].id) {
      Ec2DrawnIsPlaced(m.vpcs, m.ec2Instances, m.rdsDatabases, k);
    }
  }

  lemma RdsPlacedIsDrawn(vs: seq<VpcView>, es: seq<Ec2Instance>, rs: seq<RdsDatabase>, k: int)
    requires 0 <= k < |rs| && |rs[k].subnetIds| > 0 && HasSubnet(vs, rs[k].subnetIds[0])
    ensures DrawnInVpcs(vs, es, rs, rs[k].id)
  {
    var i, j :| SubnetAt(vs, i, j, rs[k].subnetIds[0]);
    assert IsPrimarySubnet(rs[k], vs[i].subnets[j].id);
    assert DrawnIn(vs[i].subnets[j], es, rs, rs[k].id);
  }

  lemma RdsDrawnIsPlaced(vs: seq<VpcView>, es: seq<Ec2Instance>, rs: seq<RdsDatabase>, k: int)
    requires 0 <= k < |rs| && DrawnInVpcs(vs, es, rs, rs[k].id)
    requires forall j :: 0 <= j < |rs| && rs[j].id == rs[k].id ==> j == k
    requires forall j :: 0 <= j < |es| ==> es[j].id != rs[k].id
    ensures |rs[k].subnetIds| > 0 && HasSubnet(vs, rs[k].subnetIds[0])
  {
    var i, j :| 0 <= i < |vs| && 0 <= j < |vs[i].subnets| && DrawnIn(vs[i].subnets[j], es, rs, rs[k].id);
    var k' :| 0 <= k' < |rs| && rs[k'].id == rs[k].id && IsPrimarySubnet(rs[k'], vs[i].subnets[j].id);
    assert SubnetAt(vs, i, j, rs[k].subnetIds[0]);
  }

  /**
   * With unique ids, a database is drawn exactly when it has subnet ids and
   * the first of them names a subnet of some VPC.
   */
  lemma RdsDrawnIffPlaced(m: ModelView, k: int)
    requires PlainIds(m) && 0 <= k < |m.rdsDatabases|
    requires forall j :: 0 <= j < |m.rdsDatabases| && m.rdsDatabases[j].id == m.rdsDatabases[k].id ==> j == k
    requires forall j :: 0 <= j < |m.ec2Instances| ==> m.ec2Instances[j].id != m.rdsDatabases[k].id
    requires forall j :: 0 <= j < |m.loadBalancers| ==> m.loadBalancers[j].id != m.rdsDatabases[k].id
    ensures Node(m.rdsDatabases[k].id) in Items(DiagramLines(m))
            <==> |m.rdsDatabases[k].subnetIds| > 0 && HasSubnet(m.vpcs, m.rdsDatabases[k].subnetIds[0])
  {
    DiagramNodes(m, m.rdsDatabases[k].id);
    if |m.rdsDatabases[k].subnetIds| > 0 && HasSubnet(m.vpcs, m.rdsDatabases[k].subnetIds[0]) {
      RdsPlacedIsDrawn(m.vpcs, m.ec2Instances, m.rdsDatabases, k);
    }
    if DrawnInVpcs(m.vpcs, m.ec2Instances, m.rdsDatabases, m.rdsDatabases[k].id) {
      RdsDrawnIsPlaced(m.vpcs, m.ec2Instances, m.rdsDatabases, k);
    }
  }

  // ---------------------------------------------------------------------
  // Edges
  // ---------------------------------------------------------------------

  /** One edge per (load balancer, target id) pair, and no other edge. */
  lemma {:induction false} LbEdgesPairs(lbs: seq<LoadBalancer>)
    ensures |LbEdges(lbs)| == TargetTotal(lbs)
    ensures forall i, k :: 0 <= i < |lbs| && 0 <= k < |lbs[i].targetInstanceIds|
              ==> TargetEdge(lbs[i], lbs[i].targetInstanceIds[k]) in LbEdges(lbs)
    ensures forall l :: l in LbEdges(lbs) ==>
              (exists i, k :: 0 <= i < |lbs| && 0 <= k < |lbs[i].targetInstanceIds|
                 && l == TargetEdge(lbs[i], lbs[i].targetInstanceIds[k]))
  {
    if lbs != [] {
      var init := lbs[..|lbs| - 1];
      var lb := lbs[|lbs| - 1];
      var last := TargetEdges(lb, lb.targetInstanceIds);
      LbEdgesPairs(init);
      assert LbEdges(lbs) == LbEdges(init) + last;
      forall i, k | 0 <= i < |lbs| && 0 <= k < |lbs[i].targetInstanceIds|
        ensures TargetEdge(lbs[i], lbs[i].targetInstanceIds[k]) in LbEdges(lbs)
      {
        if i < |init| {
          assert init[i] == lbs[i];
          assert TargetEdge(init[i], init[i].targetInstanceIds[k]) in LbEdges(init);
        } else {
          assert last[k] == TargetEdge(lb, lb.targetInstanceIds[k]);
        }
      }
      forall l | l in LbEdges(lbs)
        ensures exists i, k :: 0 <= i < |lbs| && 0 <= k < |lbs[i].targetInstanceIds|
                  && l == TargetEdge(lbs[i], lbs[i].targetInstanceIds[k])
      {
        if l in LbEdges(init) {
          var i, k :| 0 <= i < |init| && 0 <= k < |init[i].targetInstanceIds|
                      && l == TargetEdge(init[i], init[i].targetInstanceIds[k]);
          assert lbs[i] == init[i];
        } else {
          var k :| 0 <= k < |last| && last[k] == l;
          assert lbs[|lbs| - 1] == lb;
        }
      }
    }
  }

  /** The instances that `generate_mermaid_diagram` links to the databases. */
  function PrivateIn(m: ModelView): Ec2Instance -> bool {
    (e: Ec2Instance) => InPrivateSubnet(m, e)
  }

  lemma DbLinksStep(m: ModelView, es: seq<Ec2Instance>)
    requires es != []
    ensures DbLinks(m, es) == DbLinks(m, es[..|es| - 1])
              + (if InPrivateSubnet(m, es[|es| - 1]) then DbEdges(es[|es| - 1], m.rdsDatabases) else [])
    ensures Count(es, PrivateIn(m))
            == Count(es[..|es| - 1], PrivateIn(m)) + (if InPrivateSubnet(m, es[|es| - 1]) then 1 else 0)
  {
  }

  lemma MulSucc(c: nat, n: nat)
    ensures (c + 1) * n == c * n + n
  {
  }

  /** As many dotted edges as private instances times databases. */
  lemma {:induction false} DbLinksCount(m: ModelView, es: seq<Ec2Instance>)
    ensures |DbLinks(m, es)| == Count(es, PrivateIn(m)) * |m.rdsDatabases|
  {
    if es != [] {
      var init := es[..|es| - 1];
      var n := |m.rdsDatabases|;
      DbLinksCount(m, init);
      DbLinksStep(m, es);
      MulSucc(Count(init, PrivateIn(m)), n);
    }
  }

  /** Every instance in a private subnet gets a dotted edge to every database. */
  lemma {:induction false} DbLinksComplete(m: ModelView, es: seq<Ec2Instance>)
    ensures forall k, j :: 0 <= k < |es| && 0 <= j < |m.rdsDatabases| && InPrivateSubnet(m, es[k])
              ==> DbEdge(es[k], m.rdsDatabases[j]) in DbLinks(m, es)
  {
    if es != [] {
      var init := es[..|es| - 1];
      var e := es[|es| - 1];
      var rs := m.rdsDatabases;
      DbLinksComplete(m, init);
      DbLinksStep(m, es);
      forall k, j | 0 <= k < |es| && 0 <= j < |rs| && InPrivateSubnet(m, es[k])
        ensures DbEdge(es[k], rs[j]) in DbLinks(m, es)
      {
        if k < |init| {
          assert init[k] == es[k];
          assert DbEdge(init[k], rs[j]) in DbLinks(m, init);
        } else {
          assert DbEdges(e, rs)[j] == DbEdge(e, rs[j]);
        }
      }
    }
  }

  /** Every dotted edge runs from an instance in a private subnet to a database. */
  lemma {:induction false} DbLinksSound(m: ModelView, es: seq<Ec2Instance>)
    ensures forall l :: l in DbLinks(m, es) ==>
              (exists k, j :: 0 <= k < |es| && 0 <= j < |m.rdsDatabases|
                 && InPrivateSubnet(m, es[k]) && l == DbEdge(es[k], m.rdsDatabases[j]))
  {
    if es != [] {
      var init := es[..|es| - 1];
      var e := es[|es| - 1];
      var rs := m.rdsDatabases;
      DbLinksSound(m, init);
      DbLinksStep(m, es);
      forall l | l in DbLinks(m, es)
        ensures exists k, j :: 0 <= k < |es| && 0 <= j < |rs| && InPrivateSubnet(m, es[k]) && l == DbEdge(es[k], rs[j])
      {
        if l in DbLinks(m, init) {
          var k, j :| 0 <= k < |init| && 0 <= j < |rs| && InPrivateSubnet(m, init[k]) && l == DbEdge(init[k], rs[j]);
          assert es[k] == init[k];
        } else {
          var j :| 0 <= j < |rs| && DbEdges(e, rs)[j] == l;
          assert es[|es| - 1] == e;
        }
      }
    }
  }

  // ---------------------------------------------------------------------
  // The text as a whole
  // ---------------------------------------------------------------------

  /** The diagram text begins with the `graph TB` declaration. */
  lemma DiagramStartsWithGraph(m: ModelView)
    ensures DiagramLines(m)[0] == GraphLine
    ensures StartsWith(Join(DiagramLines(m), "\n"), GraphLine)
  {
    var lines := DiagramLines(m);
    assert lines[0] == HeadLines()[0];
    assert |lines| > 1;
    assert Join(lines, "\n") == GraphLine + ("\n" + Join(lines[1..], "\n"));
    StartsWithAppend(GraphLine, "\n" + Join(lines[1..], "\n"));
  }

  /**
   * The description has one summary per VPC, in order, then a count for each
   * non-empty kind among instances, databases and load balancers; no part is empty.
   */
  lemma DescriptionShape(m: ModelView)
    ensures |DescriptionParts(m)| == |m.vpcs| + (if |m.ec2Instances| > 0 then 1 else 0)
              + (if |m.rdsDatabases| > 0 then 1 else 0) + (if |m.loadBalancers| > 0 then 1 else 0)
    ensures forall k :: 0 <= k < |m.vpcs| ==> DescriptionParts(m)[k] == VpcSummary(m.vpcs[k])
    ensures |m.ec2Instances| > 0 ==>
              DescriptionParts(m)[|m.vpcs|] == NatToString(|m.ec2Instances|) + " EC2 instance(s)"
    ensures |m.rdsDatabases| > 0 ==>
              DescriptionParts(m)[|m.vpcs| + (if |m.ec2Instances| > 0 then 1 else 0)]
              == NatToString(|m.rdsDatabases|) + " RDS database(s)"
    ensures |m.loadBalancers| > 0 ==>
              Last(DescriptionParts(m)) == NatToString(|m.loadBalancers|) + " load balancer(s)"
    ensures forall k :: 0 <= k < |DescriptionParts(m)| ==> |DescriptionParts(m)[k]| > 0
  {
    var parts := DescriptionParts(m);
    var counts := CountParts(m);
    assert parts == VpcSummaries(m.vpcs) + counts;
    forall k | 0 <= k < |parts| ensures |parts[k]| > 0 {
      if k < |m.vpcs| {
        assert parts[k] == VpcSummary(m.vpcs[k]);
      } else {
        assert parts[k] == counts[k - |m.vpcs|];
      }
    }
  }

  /** The description is empty exactly when the model has no VPC, instance, database or load balancer. */
  lemma DescriptionEmptyIff(m: ModelView)
    ensures Join(DescriptionParts(m), ", ") == ""
            <==> |m.vpcs| == 0 && |m.ec2Instances| == 0 && |m.rdsDatabases| == 0 && |m.loadBalancers| == 0
  {
    DescriptionShape(m);
    JoinEmpty(DescriptionParts(m), ", ");
  }
}
