/**
 * The security and compliance validator: eight fixed checks over the
 * model, each adding severity-tagged findings in order, and the
 * human-readable report that groups the findings by severity.
 */
module Security {
  import opened Wrappers
  import opened Strings
  import opened Model

  // ---------------------------------------------------------------------
  // Findings
  // ---------------------------------------------------------------------

  const High := "HIGH"
  const Medium := "MEDIUM"
  const Low := "LOW"

  /** `SecurityWarning`; the severity is free text, the checks use HIGH, MEDIUM and LOW. */
  datatype SecurityWarning = SecurityWarning(severity: string, resource: string, message: string, recommendation: string)

  const PublicRdsMessage := "Database is deployed in a public subnet"
  const PublicRdsRecommendation := "Move RDS instances to private subnets to prevent direct internet access"
  const MultiAzMessage := "Database is not configured for multi-AZ deployment"
  const MultiAzRecommendation := "Use at least 2 subnets in different availability zones for high availability"
  const NoPrivateSubnetsMessage := "VPC has no private subnets"
  const NoPrivateSubnetsRecommendation := "Create private subnets for internal resources like databases and application servers"
  const NoPublicSubnetsMessage := "VPC has no public subnets but load balancers are defined"
  const NoPublicSubnetsRecommendation := "Create public subnets for internet-facing resources like load balancers"
  const PrivateLbMessage := "Load balancer is in a private subnet"
  const PrivateLbRecommendation := "Place internet-facing load balancers in public subnets"
  const NoLbMessage := "EC2 instances are not behind a load balancer"
  const NoLbRecommendation := "Use a load balancer for better availability, scalability, and security"
  // This message and HomeRangeMessage are written in two pieces: the verifier
  // reads the characters of a short literal but not of a long one, and
  // PublicEc2MessageIsDistinct needs their first characters.
  const CredentialsMessage := "Database credentials may be " + "using default/hardcoded values"
  const CredentialsRecommendation := "Use AWS Secrets Manager or Parameter Store for database credentials in production"
  const PublicEc2MessageSuffix := " EC2 instance(s) in public subnet with load balancer present"
  const PublicEc2Recommendation := "Consider moving application servers to private subnets and only expose them via load balancer"
  const HomeRangePrefix := "192.168."
  const HomeRangeMessage := "VPC uses 192.168.x.x range " + "which may conflict with home networks"
  const HomeRangeRecommendation := "Consider using 10.x.x.x or 172.16-31.x.x ranges for better compatibility"
  const Ec2Resource := "EC2 Instances"
  const RdsDatabasesResource := "RDS Databases"

  function RdsResource(r: RdsDatabase): string { "RDS: " + r.name + " (" + r.id + ")" }
  function VpcResource(v: VpcView): string { "VPC: " + v.name + " (" + v.id + ")" }
  function LbResource(lb: LoadBalancer): string { "Load Balancer: " + lb.name + " (" + lb.id + ")" }

  function PublicRdsWarning(r: RdsDatabase): SecurityWarning {
    SecurityWarning(High, RdsResource(r), PublicRdsMessage, PublicRdsRecommendation)
  }
  function MultiAzWarning(r: RdsDatabase): SecurityWarning {
    SecurityWarning(Medium, RdsResource(r), MultiAzMessage, MultiAzRecommendation)
  }
  function NoPrivateSubnetsWarning(v: VpcView): SecurityWarning {
    SecurityWarning(Medium, VpcResource(v), NoPrivateSubnetsMessage, NoPrivateSubnetsRecommendation)
  }
  function NoPublicSubnetsWarning(v: VpcView): SecurityWarning {
    SecurityWarning(Medium, VpcResource(v), NoPublicSubnetsMessage, NoPublicSubnetsRecommendation)
  }
  function PrivateLbWarning(lb: LoadBalancer): SecurityWarning {
    SecurityWarning(Medium, LbResource(lb), PrivateLbMessage, PrivateLbRecommendation)
  }
  const NoLbWarning := SecurityWarning(Low, Ec2Resource, NoLbMessage, NoLbRecommendation)
  const CredentialsWarning := SecurityWarning(Medium, RdsDatabasesResource, CredentialsMessage, CredentialsRecommendation)
  function PublicEc2Message(count: nat): string { NatToString(count) + PublicEc2MessageSuffix }
  function PublicEc2Warning(count: nat): SecurityWarning {
    SecurityWarning(Medium, Ec2Resource, PublicEc2Message(count), PublicEc2Recommendation)
  }
  function HomeRangeWarning(v: VpcView): SecurityWarning {
    SecurityWarning(Low, VpcResource(v), HomeRangeMessage, HomeRangeRecommendation)
  }

  // ---------------------------------------------------------------------
  // The conditions the checks test
  // ---------------------------------------------------------------------

  /** Some id of the list resolves to a subnet of that type. */
  predicate AnyResolvesTo(m: ModelView, ids: seq<string>, t: SubnetType) {
    exists k :: 0 <= k < |ids| && ResolvesTo(m, ids[k], t)
  }

  function RdsInPublicSubnet(m: ModelView): RdsDatabase -> bool { (r: RdsDatabase) => AnyResolvesTo(m, r.subnetIds, Public) }
  function RdsSingleZone(): RdsDatabase -> bool { (r: RdsDatabase) => |r.subnetIds| < 2 }
  function VpcLacks(t: SubnetType): VpcView -> bool { (v: VpcView) => !VpcHasType(v, t) }
  function LbInPrivateSubnet(m: ModelView): LoadBalancer -> bool { (lb: LoadBalancer) => AnyResolvesTo(m, lb.subnetIds, Private) }
  function Ec2InPublicSubnet(m: ModelView): Ec2Instance -> bool { (e: Ec2Instance) => ResolvesTo(m, e.subnetId, Public) }
  function VpcInHomeRange(): VpcView -> bool { (v: VpcView) => StartsWith(v.cidr, HomeRangePrefix) }

  // ---------------------------------------------------------------------
  // The eight checks, as specifications over prefixes of the lists
  // ---------------------------------------------------------------------

  /** Check 1: one HIGH finding per database with some subnet resolving to public. */
  function PublicRdsFindings(m: ModelView, rs: seq<RdsDatabase>): seq<SecurityWarning> {
    if rs == [] then []
    else PublicRdsFindings(m, rs[..|rs| - 1])
         + (if AnyResolvesTo(m, rs[|rs| - 1].subnetIds, Public) then [PublicRdsWarning(rs[|rs| - 1])] else [])
  }

  /** Check 2: one MEDIUM finding per database with fewer than two subnets. */
  function MultiAzFindings(rs: seq<RdsDatabase>): seq<SecurityWarning> {
    if rs == [] then []
    else MultiAzFindings(rs[..|rs| - 1])
         + (if |rs[|rs| - 1].subnetIds| < 2 then [MultiAzWarning(rs[|rs| - 1])] else [])
  }

  /** Check 3 for one VPC: no private subnet; no public subnet while load balancers exist. */
  function SegmentationFindingsOf(m: ModelView, v: VpcView): seq<SecurityWarning> {
    (if !VpcHasType(v, Private) then [NoPrivateSubnetsWarning(v)] else [])
    + (if !VpcHasType(v, Public) && |m.loadBalancers| > 0 then [NoPublicSubnetsWarning(v)] else [])
  }

  function SegmentationFindings(m: ModelView, vs: seq<VpcView>): seq<SecurityWarning> {
    if vs == [] then [] else SegmentationFindings(m, vs[..|vs| - 1]) + SegmentationFindingsOf(m, vs[|vs| - 1])
  }

  /** Check 4: one MEDIUM finding per load balancer with some subnet resolving to private. */
  function PrivateLbFindings(m: ModelView, lbs: seq<LoadBalancer>): seq<SecurityWarning> {
    if lbs == [] then []
    else PrivateLbFindings(m, lbs[..|lbs| - 1])
         + (if AnyResolvesTo(m, lbs[|lbs| - 1].subnetIds, Private) then [PrivateLbWarning(lbs[|lbs| - 1])] else [])
  }

  /** Check 5 */
  function NoLbFindings(m: ModelView): seq<SecurityWarning> {
    if |m.ec2Instances| > 0 && |m.loadBalancers| == 0 then [NoLbWarning] else []
  }

  /** Check 6 */
  function CredentialsFindings(m: ModelView): seq<SecurityWarning> {
    if |m.rdsDatabases| > 0 then [CredentialsWarning] else []
  }

  /** Check 7: the number of instances whose subnet resolves to public, reported once. */
  function PublicEc2Findings(m: ModelView): seq<SecurityWarning> {
    var count := Count(m.ec2Instances, Ec2InPublicSubnet(m));
    if count > 0 && |m.loadBalancers| > 0 then [PublicEc2Warning(count)] else []
  }

  /** Check 8 */
  function HomeRangeFindings(vs: seq<VpcView>): seq<SecurityWarning> {
    if vs == [] then []
    else HomeRangeFindings(vs[..|vs| - 1])
         + (if StartsWith(vs[|vs| - 1].cidr, HomeRangePrefix) then [HomeRangeWarning(vs[|vs| - 1])] else [])
  }

  /** Everything `validate_security` reports, in the order of the checks. */
  function SecurityFindings(m: ModelView): seq<SecurityWarning> {
    PublicRdsFindings(m, m.rdsDatabases)
    + MultiAzFindings(m.rdsDatabases)
    + SegmentationFindings(m, m.vpcs)
    + PrivateLbFindings(m, m.loadBalancers)
    + NoLbFindings(m)
    + CredentialsFindings(m)
    + PublicEc2Findings(m)
    + HomeRangeFindings(m.vpcs)
  }

  // ---------------------------------------------------------------------
  // validate_security
  // ---------------------------------------------------------------------

  /** Check 1 of `validate_security`, with its early exit from the subnet scan. */
  method CheckPublicRds(m: ModelView) returns (found: seq<SecurityWarning>)
    ensures found == PublicRdsFindings(m, m.rdsDatabases)
  {
    found := [];
    var i := 0;
    while i < |m.rdsDatabases|
      invariant 0 <= i <= |m.rdsDatabases|
      invariant found == PublicRdsFindings(m, m.rdsDatabases[..i])
    {
      var rds := m.rdsDatabases[i];
      ghost var before := found;
      var j := 0;
      while j < |rds.subnetIds|
        invariant 0 <= j <= |rds.subnetIds|
        invariant found == before
        invariant forall k :: 0 <= k < j ==> !ResolvesTo(m, rds.subnetIds[k], Public)
      {
        var subnet := SubnetById(m.vpcs, rds.subnetIds[j]);
        if subnet.Some? && subnet.value.subnetType == Public {
          found := found + [PublicRdsWarning(rds)];
          break;
        }
        j := j + 1;
      }
      assert m.rdsDatabases[..i + 1][..i] == m.rdsDatabases[..i];
      i := i + 1;
    }
    assert m.rdsDatabases[..i] == m.rdsDatabases;
  }

  /** Check 2 */
  method CheckMultiAz(m: ModelView) returns (found: seq<SecurityWarning>)
    ensures found == MultiAzFindings(m.rdsDatabases)
  {
    found := [];
    var i := 0;
    while i < |m.rdsDatabases|
      invariant 0 <= i <= |m.rdsDatabases|
      invariant found == MultiAzFindings(m.rdsDatabases[..i])
    {
      var rds := m.rdsDatabases[i];
      if |rds.subnetIds| < 2 {
        found := found + [MultiAzWarning(rds)];
      }
      assert m.rdsDatabases[..i + 1][..i] == m.rdsDatabases[..i];
      i := i + 1;
    }
    assert m.rdsDatabases[..i] == m.rdsDatabases;
  }

  /** Check 3 */
  method CheckSegmentation(m: ModelView) returns (found: seq<SecurityWarning>)
    ensures found == SegmentationFindings(m, m.vpcs)
  {
    found := [];
    var i := 0;
    while i < |m.vpcs|
      invariant 0 <= i <= |m.vpcs|
      invariant found == SegmentationFindings(m, m.vpcs[..i])
    {
      var vpc := m.vpcs[i];
      var hasPublic := VpcHasType(vpc, Public);
      var hasPrivate := VpcHasType(vpc, Private);
      ghost var before := found;
      if !hasPrivate {
        found := found + [NoPrivateSubnetsWarning(vpc)];
      }
      if !hasPublic && |m.loadBalancers| > 0 {
        found := found + [NoPublicSubnetsWarning(vpc)];
      }
      assert found == before + SegmentationFindingsOf(m, vpc);
      assert m.vpcs[..i + 1][..i] == m.vpcs[..i];
      i := i + 1;
    }
    assert m.vpcs[..i] == m.vpcs;
  }

  /** Check 4, with its early exit from the subnet scan. */
  method CheckPrivateLb(m: ModelView) returns (found: seq<SecurityWarning>)
    ensures found == PrivateLbFindings(m, m.loadBalancers)
  {
    found := [];
    var i := 0;
    while i < |m.loadBalancers|
      invariant 0 <= i <= |m.loadBalancers|
      invariant found == PrivateLbFindings(m, m.loadBalancers[..i])
    {
      var lb := m.loadBalancers[i];
      ghost var before := found;
      var j := 0;
      while j < |lb.subnetIds|
        invariant 0 <= j <= |lb.subnetIds|
        invariant found == before
        invariant forall k :: 0 <= k < j ==> !ResolvesTo(m, lb.subnetIds[k], Private)
      {
        var subnet := SubnetById(m.vpcs, lb.subnetIds[j]);
        if subnet.Some? && subnet.value.subnetType == Private {
          found := found + [PrivateLbWarning(lb)];
          break;
        }
        j := j + 1;
      }
      assert m.loadBalancers[..i + 1][..i] == m.loadBalancers[..i];
      i := i + 1;
    }
    assert m.loadBalancers[..i] == m.loadBalancers;
  }

  /** Check 7: count the instances whose subnet resolves to public. */
  method CheckPublicEc2(m: ModelView) returns (found: seq<SecurityWarning>)
    ensures found == PublicEc2Findings(m)
  {
    var publicEc2Count := 0;
    var i := 0;
    while i < |m.ec2Instances|
      invariant 0 <= i <= |m.ec2Instances|
      invariant publicEc2Count == Count(m.ec2Instances[..i], Ec2InPublicSubnet(m))
    {
      var subnet := SubnetById(m.vpcs, m.ec2Instances[i].subnetId);
      if subnet.Some? && subnet.value.subnetType == Public {
        publicEc2Count := publicEc2Count + 1;
      }
      assert m.ec2Instances[..i + 1][..i] == m.ec2Instances[..i];
      i := i + 1;
    }
    assert m.ec2Instances[..i] == m.ec2Instances;
    found := [];
    if publicEc2Count > 0 && |m.loadBalancers| > 0 {
      found := [PublicEc2Warning(publicEc2Count)];
    }
  }

  /** Check 8 */
  method CheckHomeRange(m: ModelView) returns (found: seq<SecurityWarning>)
    ensures found == HomeRangeFindings(m.vpcs)
  {
    found := [];
    var i := 0;
    while i < |m.vpcs|
      invariant 0 <= i <= |m.vpcs|
      invariant found == HomeRangeFindings(m.vpcs[..i])
    {
      if StartsWith(m.vpcs[i].cidr, HomeRangePrefix) {
        found := found + [HomeRangeWarning(m.vpcs[i])];
      }
      assert m.vpcs[..i + 1][..i] == m.vpcs[..i];
      i := i + 1;
    }
    assert m.vpcs[..i] == m.vpcs;
  }

  /** `validate_security`: the eight checks one after the other, findings appended in order. */
  method ValidateSecurity(m: ModelView) returns (warnings: seq<SecurityWarning>)
    ensures warnings == SecurityFindings(m)
  {
    warnings := CheckPublicRds(m);
    var more := CheckMultiAz(m);
    warnings := warnings + more;
    more := CheckSegmentation(m);
    warnings := warnings + more;
    more := CheckPrivateLb(m);
    warnings := warnings + more;
    ghost var firstFour := warnings;
    if |m.ec2Instances| > 0 && |m.loadBalancers| == 0 {
      warnings := warnings + [NoLbWarning];
    }
    assert warnings == firstFour + NoLbFindings(m);
    if |m.rdsDatabases| > 0 {
      warnings := warnings + [CredentialsWarning];
    }
    assert warnings == firstFour + NoLbFindings(m) + CredentialsFindings(m);
    more := CheckPublicEc2(m);
    warnings := warnings + more;
    more := CheckHomeRange(m);
    warnings := warnings + more;
  }

  // ---------------------------------------------------------------------
  // What the checks report
  // ---------------------------------------------------------------------

  /** How many findings carry the message `msg`. */
  function CountMessage(ws: seq<SecurityWarning>, msg: string): nat {
    if ws == [] then 0
    else CountMessage(ws[..|ws| - 1], msg) + (if ws[|ws| - 1].message == msg then 1 else 0)
  }

  lemma {:induction false} CountMessageAppend(a: seq<SecurityWarning>, b: seq<SecurityWarning>, msg: string)
    ensures CountMessage(a + b, msg) == CountMessage(a, msg) + CountMessage(b, msg)
    decreases |b|
  {
    if b != [] {
      assert (a + b)[..|a + b| - 1] == a + b[..|b| - 1];
      assert (a + b)[|a + b| - 1] == b[|b| - 1];
      CountMessageAppend(a, b[..|b| - 1], msg);
    } else {
      assert a + b == a;
    }
  }

  lemma {:induction false} CountMessageUniform(ws: seq<SecurityWarning>, msg0: string, msg: string)
    requires forall w | w in ws :: w.message == msg0
    ensures CountMessage(ws, msg) == if msg == msg0 then |ws| else 0
  {
    if ws != [] {
      assert ws[|ws| - 1] in ws;
      forall w | w in ws[..|ws| - 1] ensures w.message == msg0 {
        assert w in ws;
      }
      CountMessageUniform(ws[..|ws| - 1], msg0, msg);
    }
  }

  /** A count message starts with a digit, so it differs from every fixed message. */
  lemma PublicEc2MessageIsDistinct(count: nat)
    ensures PublicEc2Message(count) != PublicRdsMessage
    ensures PublicEc2Message(count) != MultiAzMessage
    ensures PublicEc2Message(count) != NoPrivateSubnetsMessage
    ensures PublicEc2Message(count) != NoPublicSubnetsMessage
    ensures PublicEc2Message(count) != PrivateLbMessage
    ensures PublicEc2Message(count) != NoLbMessage
    ensures PublicEc2Message(count) != CredentialsMessage
    ensures PublicEc2Message(count) != HomeRangeMessage
  {
    assert IsDigit(PublicEc2Message(count)[0]);
    assert CredentialsMessage[0] == 'D';
    assert HomeRangeMessage[0] == 'V';
    assert PublicRdsMessage[0] == 'D';
    assert MultiAzMessage[0] == 'D';
    assert NoPrivateSubnetsMessage[0] == 'V';
    assert NoPublicSubnetsMessage[0] == 'V';
    assert PrivateLbMessage[0] == 'L';
    assert NoLbMessage[0] == 'E';
  }

  /** Check 1 reports exactly the databases with some subnet resolving to public, as HIGH. */
  lemma {:induction false} PublicRdsFindingsShape(m: ModelView, rs: seq<RdsDatabase>)
    ensures |PublicRdsFindings(m, rs)| == Count(rs, RdsInPublicSubnet(m))
    ensures forall w | w in PublicRdsFindings(m, rs) :: w.severity == High && w.message == PublicRdsMessage
    ensures forall k | 0 <= k < |rs| && AnyResolvesTo(m, rs[k].subnetIds, Public) ::
              PublicRdsWarning(rs[k]) in PublicRdsFindings(m, rs)
    ensures forall w | w in PublicRdsFindings(m, rs) ::
              exists k :: 0 <= k < |rs| && AnyResolvesTo(m, rs[k].subnetIds, Public) && w == PublicRdsWarning(rs[k])
  {
    if rs != [] {
      var init := rs[..|rs| - 1];
      PublicRdsFindingsShape(m, init);
      forall k | 0 <= k < |rs| && AnyResolvesTo(m, rs[k].subnetIds, Public)
        ensures PublicRdsWarning(rs[k]) in PublicRdsFindings(m, rs)
      {
        if k < |init| {
          assert rs[k] == init[k];
        }
      }
      forall w | w in PublicRdsFindings(m, rs)
        ensures exists k :: 0 <= k < |rs| && AnyResolvesTo(m, rs[k].subnetIds, Public) && w == PublicRdsWarning(rs[k])
      {
        if w in PublicRdsFindings(m, init) {
          var k :| 0 <= k < |init| && AnyResolvesTo(m, init[k].subnetIds, Public) && w == PublicRdsWarning(init[k]);
          assert rs[k] == init[k];
        }
      }
    }
  }

  /** Check 2 reports exactly the databases with fewer than two subnets, as MEDIUM. */
  lemma {:induction false} MultiAzFindingsShape(rs: seq<RdsDatabase>)
    ensures |MultiAzFindings(rs)| == Count(rs, RdsSingleZone())
    ensures forall w | w in MultiAzFindings(rs) :: w.severity == Medium && w.message == MultiAzMessage
    ensures forall k | 0 <= k < |rs| && |rs[k].subnetIds| < 2 :: MultiAzWarning(rs[k]) in MultiAzFindings(rs)
    ensures forall w | w in MultiAzFindings(rs) ::
              exists k :: 0 <= k < |rs| && |rs[k].subnetIds| < 2 && w == MultiAzWarning(rs[k])
  {
    if rs != [] {
      var init := rs[..|rs| - 1];
      MultiAzFindingsShape(init);
      forall k | 0 <= k < |rs| && |rs[k].subnetIds| < 2
        ensures MultiAzWarning(rs[k]) in MultiAzFindings(rs)
      {
        if k < |init| {
          assert rs[k] == init[k];
        }
      }
      forall w | w in MultiAzFindings(rs)
        ensures exists k :: 0 <= k < |rs| && |rs[k].subnetIds| < 2 && w == MultiAzWarning(rs[k])
      {
        if w in MultiAzFindings(init) {
          var k :| 0 <= k < |init| && |init[k].subnetIds| < 2 && w == MultiAzWarning(init[k]);
          assert rs[k] == init[k];
        }
      }
    }
  }

  /** What check 3 reports about one VPC. */
  lemma SegmentationFindingsOfShape(m: ModelView, v: VpcView, msg: string)
    ensures CountMessage(SegmentationFindingsOf(m, v), msg)
            == (if msg == NoPrivateSubnetsMessage && VpcLacks(Private)(v) then 1 else 0)
               + (if msg == NoPublicSubnetsMessage && |m.loadBalancers| > 0 && VpcLacks(Public)(v) then 1 else 0)
    ensures forall w | w in SegmentationFindingsOf(m, v) ::
              w.severity == Medium && (w.message == NoPrivateSubnetsMessage || w.message == NoPublicSubnetsMessage)
  {
    var a := if !VpcHasType(v, Private) then [NoPrivateSubnetsWarning(v)] else [];
    var b := if !VpcHasType(v, Public) && |m.loadBalancers| > 0 then [NoPublicSubnetsWarning(v)] else [];
    CountMessageAppend(a, b, msg);
    CountMessageUniform(a, NoPrivateSubnetsMessage, msg);
    CountMessageUniform(b, NoPublicSubnetsMessage, msg);
  }

  lemma {:induction false} SegmentationFindingsCount(m: ModelView, vs: seq<VpcView>, msg: string)
    ensures CountMessage(SegmentationFindings(m, vs), msg)
            == (if msg == NoPrivateSubnetsMessage then Count(vs, VpcLacks(Private)) else 0)
               + (if msg == NoPublicSubnetsMessage && |m.loadBalancers| > 0 then Count(vs, VpcLacks(Public)) else 0)
  {
    if vs != [] {
      var v := vs[|vs| - 1];
      SegmentationFindingsCount(m, vs[..|vs| - 1], msg);
      CountMessageAppend(SegmentationFindings(m, vs[..|vs| - 1]), SegmentationFindingsOf(m, v), msg);
      SegmentationFindingsOfShape(m, v, msg);
    }
  }

  lemma {:induction false} SegmentationFindingsKinds(m: ModelView, vs: seq<VpcView>)
    ensures forall w | w in SegmentationFindings(m, vs) ::
              w.severity == Medium && (w.message == NoPrivateSubnetsMessage || w.message == NoPublicSubnetsMessage)
  {
    if vs != [] {
      SegmentationFindingsKinds(m, vs[..|vs| - 1]);
      SegmentationFindingsOfShape(m, vs[|vs| - 1], "");
    }
  }

  /** One of the two warnings check 3 raises about a VPC, under the condition that raises it. */
  predicate SegmentationWarningFor(m: ModelView, v: VpcView, w: SecurityWarning) {
    (!VpcHasType(v, Private) && w == NoPrivateSubnetsWarning(v))
    || (!VpcHasType(v, Public) && |m.loadBalancers| > 0 && w == NoPublicSubnetsWarning(v))
  }

  /** The warnings check 3 raises about one VPC. */
  lemma SegmentationFindingsOfFor(m: ModelView, v: VpcView)
    ensures !VpcHasType(v, Private) ==> NoPrivateSubnetsWarning(v) in SegmentationFindingsOf(m, v)
    ensures !VpcHasType(v, Public) && |m.loadBalancers| > 0 ==> NoPublicSubnetsWarning(v) in SegmentationFindingsOf(m, v)
    ensures forall w | w in SegmentationFindingsOf(m, v) :: SegmentationWarningFor(m, v, w)
  {
  }

  /** Check 3 names every VPC lacking a private tier. */
  lemma {:induction false} SegmentationFindingsCoverPrivate(m: ModelView, vs: seq<VpcView>)
    ensures forall k | 0 <= k < |vs| && !VpcHasType(vs[k], Private) ::
              NoPrivateSubnetsWarning(vs[k]) in SegmentationFindings(m, vs)
  {
    if vs != [] {
      var init := vs[..|vs| - 1];
      var v := vs[|vs| - 1];
      SegmentationFindingsCoverPrivate(m, init);
      SegmentationFindingsOfFor(m, v);
      assert SegmentationFindings(m, vs) == SegmentationFindings(m, init) + SegmentationFindingsOf(m, v);
      forall k | 0 <= k < |vs| && !VpcHasType(vs[k], Private)
        ensures NoPrivateSubnetsWarning(vs[k]) in SegmentationFindings(m, vs)
      {
        if k < |init| {
          assert vs[k] == init[k];
        }
      }
    }
  }

  /** With load balancers present, check 3 names every VPC lacking a public tier. */
  lemma {:induction false} SegmentationFindingsCoverPublic(m: ModelView, vs: seq<VpcView>)
    ensures forall k | 0 <= k < |vs| && !VpcHasType(vs[k], Public) && |m.loadBalancers| > 0 ::
              NoPublicSubnetsWarning(vs[k]) in SegmentationFindings(m, vs)
  {
    if vs != [] {
      var init := vs[..|vs| - 1];
      var v := vs[|vs| - 1];
      SegmentationFindingsCoverPublic(m, init);
      SegmentationFindingsOfFor(m, v);
      assert SegmentationFindings(m, vs) == SegmentationFindings(m, init) + SegmentationFindingsOf(m, v);
      forall k | 0 <= k < |vs| && !VpcHasType(vs[k], Public) && |m.loadBalancers| > 0
        ensures NoPublicSubnetsWarning(vs[k]) in SegmentationFindings(m, vs)
      {
        if k < |init| {
          assert vs[k] == init[k];
        }
      }
    }
  }

  /** Check 3 names nothing but VPCs lacking a tier. */
  lemma {:induction false} SegmentationFindingsOnly(m: ModelView, vs: seq<VpcView>)
    ensures forall w | w in SegmentationFindings(m, vs) ::
              exists k :: 0 <= k < |vs| && SegmentationWarningFor(m, vs[k], w)
  {
    if vs != [] {
      var init := vs[..|vs| - 1];
      var v := vs[|vs| - 1];
      SegmentationFindingsOnly(m, init);
      SegmentationFindingsOfFor(m, v);
      assert SegmentationFindings(m, vs) == SegmentationFindings(m, init) + SegmentationFindingsOf(m, v);
      forall w | w in SegmentationFindings(m, vs)
        ensures exists k :: 0 <= k < |vs| && SegmentationWarningFor(m, vs[k], w)
      {
        if w in SegmentationFindings(m, init) {
          var k :| 0 <= k < |init| && SegmentationWarningFor(m, init[k], w);
          assert vs[k] == init[k];
        } else {
          assert SegmentationWarningFor(m, vs[|vs| - 1], w);
        }
      }
    }
  }

  /** Check 3 reports, per VPC, a missing private tier and (with load balancers) a missing public tier. */
  lemma SegmentationFindingsShape(m: ModelView, vs: seq<VpcView>, msg: string)
    ensures CountMessage(SegmentationFindings(m, vs), msg)
            == (if msg == NoPrivateSubnetsMessage then Count(vs, VpcLacks(Private)) else 0)
               + (if msg == NoPublicSubnetsMessage && |m.loadBalancers| > 0 then Count(vs, VpcLacks(Public)) else 0)
    ensures forall w | w in SegmentationFindings(m, vs) :: w.severity == Medium
    ensures forall w | w in SegmentationFindings(m, vs) ::
              w.message == NoPrivateSubnetsMessage || w.message == NoPublicSubnetsMessage
    ensures forall k | 0 <= k < |vs| && !VpcHasType(vs[k], Private) ::
              NoPrivateSubnetsWarning(vs[k]) in SegmentationFindings(m, vs)
    ensures forall k | 0 <= k < |vs| && !VpcHasType(vs[k], Public) && |m.loadBalancers| > 0 ::
              NoPublicSubnetsWarning(vs[k]) in SegmentationFindings(m, vs)
    ensures forall w | w in SegmentationFindings(m, vs) ::
              exists k :: 0 <= k < |vs| && SegmentationWarningFor(m, vs[k], w)
  {
    SegmentationFindingsCount(m, vs, msg);
    SegmentationFindingsKinds(m, vs);
    SegmentationFindingsCoverPrivate(m, vs);
    SegmentationFindingsCoverPublic(m, vs);
    SegmentationFindingsOnly(m, vs);
  }

  /** Check 4 reports exactly the load balancers with some subnet resolving to private. */
  lemma {:induction false} PrivateLbFindingsShape(m: ModelView, lbs: seq<LoadBalancer>)
    ensures |PrivateLbFindings(m, lbs)| == Count(lbs, LbInPrivateSubnet(m))
    ensures forall w | w in PrivateLbFindings(m, lbs) :: w.severity == Medium && w.message == PrivateLbMessage
    ensures forall k | 0 <= k < |lbs| && AnyResolvesTo(m, lbs[k].subnetIds, Private) ::
              PrivateLbWarning(lbs[k]) in PrivateLbFindings(m, lbs)
    ensures forall w | w in PrivateLbFindings(m, lbs) ::
              exists k :: 0 <= k < |lbs| && AnyResolvesTo(m, lbs[k].subnetIds, Private) && w == PrivateLbWarning(lbs[k])
  {
    if lbs != [] {
      var init := lbs[..|lbs| - 1];
      PrivateLbFindingsShape(m, init);
      forall k | 0 <= k < |lbs| && AnyResolvesTo(m, lbs[k].subnetIds, Private)
        ensures PrivateLbWarning(lbs[k]) in PrivateLbFindings(m, lbs)
      {
        if k < |init| {
          assert lbs[k] == init[k];
        }
      }
      forall w | w in PrivateLbFindings(m, lbs)
        ensures exists k :: 0 <= k < |lbs| && AnyResolvesTo(m, lbs[k].subnetIds, Private) && w == PrivateLbWarning(lbs[k])
      {
        if w in PrivateLbFindings(m, init) {
          var k :| 0 <= k < |init| && AnyResolvesTo(m, init[k].subnetIds, Private) && w == PrivateLbWarning(init[k]);
          assert lbs[k] == init[k];
        }
      }
    }
  }

  /** Check 8 reports exactly the VPCs whose block starts with the home-router prefix, as LOW. */
  lemma {:induction false} HomeRangeFindingsShape(vs: seq<VpcView>)
    ensures |HomeRangeFindings(vs)| == Count(vs, VpcInHomeRange())
    ensures forall w | w in HomeRangeFindings(vs) :: w.severity == Low && w.message == HomeRangeMessage
    ensures forall k | 0 <= k < |vs| && StartsWith(vs[k].cidr, HomeRangePrefix) ::
              HomeRangeWarning(vs[k]) in HomeRangeFindings(vs)
    ensures forall w | w in HomeRangeFindings(vs) ::
              exists k :: 0 <= k < |vs| && StartsWith(vs[k].cidr, HomeRangePrefix) && w == HomeRangeWarning(vs[k])
  {
    if vs != [] {
      var init := vs[..|vs| - 1];
      HomeRangeFindingsShape(init);
      forall k | 0 <= k < |vs| && StartsWith(vs[k].cidr, HomeRangePrefix)
        ensures HomeRangeWarning(vs[k]) in HomeRangeFindings(vs)
      {
        if k < |init| {
          assert vs[k] == init[k];
        }
      }
      forall w | w in HomeRangeFindings(vs)
        ensures exists k :: 0 <= k < |vs| && StartsWith(vs[k].cidr, HomeRangePrefix) && w == HomeRangeWarning(vs[k])
      {
        if w in HomeRangeFindings(init) {
          var k :| 0 <= k < |init| && StartsWith(init[k].cidr, HomeRangePrefix) && w == HomeRangeWarning(init[k]);
          assert vs[k] == init[k];
        }
      }
    }
  }

  /** The count of one message in the whole report, check by check. */
  /** Counting a message over all findings adds up the counts of the eight checks. */
  lemma CountMessageSplit(m: ModelView, msg: string)
    ensures CountMessage(SecurityFindings(m), msg)
            == CountMessage(PublicRdsFindings(m, m.rdsDatabases), msg)
               + CountMessage(MultiAzFindings(m.rdsDatabases), msg)
               + CountMessage(SegmentationFindings(m, m.vpcs), msg)
               + CountMessage(PrivateLbFindings(m, m.loadBalancers), msg)
               + CountMessage(NoLbFindings(m), msg)
               + CountMessage(CredentialsFindings(m), msg)
               + CountMessage(PublicEc2Findings(m), msg)
               + CountMessage(HomeRangeFindings(m.vpcs), msg)
  {
    var c1 := PublicRdsFindings(m, m.rdsDatabases);
    var c2 := MultiAzFindings(m.rdsDatabases);
    var c3 := SegmentationFindings(m, m.vpcs);
    var c4 := PrivateLbFindings(m, m.loadBalancers);
    var c5 := NoLbFindings(m);
    var c6 := CredentialsFindings(m);
    var c7 := PublicEc2Findings(m);
    var c8 := HomeRangeFindings(m.vpcs);
    CountMessageAppend(c1, c2, msg);
    CountMessageAppend(c1 + c2, c3, msg);
    CountMessageAppend(c1 + c2 + c3, c4, msg);
    CountMessageAppend(c1 + c2 + c3 + c4, c5, msg);
    CountMessageAppend(c1 + c2 + c3 + c4 + c5, c6, msg);
    CountMessageAppend(c1 + c2 + c3 + c4 + c5 + c6, c7, msg);
    CountMessageAppend(c1 + c2 + c3 + c4 + c5 + c6 + c7, c8, msg);
  }

  /** The counts of a message in the findings of checks 1 to 4. */
  lemma CountMessageFirstChecks(m: ModelView, msg: string)
    ensures CountMessage(PublicRdsFindings(m, m.rdsDatabases), msg)
            + CountMessage(MultiAzFindings(m.rdsDatabases), msg)
            + CountMessage(SegmentationFindings(m, m.vpcs), msg)
            + CountMessage(PrivateLbFindings(m, m.loadBalancers), msg)
            == (if msg == PublicRdsMessage then Count(m.rdsDatabases, RdsInPublicSubnet(m)) else 0)
               + (if msg == MultiAzMessage then Count(m.rdsDatabases, RdsSingleZone()) else 0)
               + (if msg == NoPrivateSubnetsMessage then Count(m.vpcs, VpcLacks(Private)) else 0)
               + (if msg == NoPublicSubnetsMessage && |m.loadBalancers| > 0 then Count(m.vpcs, VpcLacks(Public)) else 0)
               + (if msg == PrivateLbMessage then Count(m.loadBalancers, LbInPrivateSubnet(m)) else 0)
  {
    PublicRdsFindingsShape(m, m.rdsDatabases);
    MultiAzFindingsShape(m.rdsDatabases);
    PrivateLbFindingsShape(m, m.loadBalancers);
    CountMessageUniform(PublicRdsFindings(m, m.rdsDatabases), PublicRdsMessage, msg);
    CountMessageUniform(MultiAzFindings(m.rdsDatabases), MultiAzMessage, msg);
    SegmentationFindingsShape(m, m.vpcs, msg);
    CountMessageUniform(PrivateLbFindings(m, m.loadBalancers), PrivateLbMessage, msg);
  }

  /** The counts of a message in the findings of checks 5 to 8. */
  lemma CountMessageLastChecks(m: ModelView, msg: string)
    ensures var c := Count(m.ec2Instances, Ec2InPublicSubnet(m));
            CountMessage(NoLbFindings(m), msg)
            + CountMessage(CredentialsFindings(m), msg)
            + CountMessage(PublicEc2Findings(m), msg)
            + CountMessage(HomeRangeFindings(m.vpcs), msg)
            == (if msg == NoLbMessage then |NoLbFindings(m)| else 0)
               + (if msg == CredentialsMessage then |CredentialsFindings(m)| else 0)
               + (if msg == PublicEc2Message(c) then |PublicEc2Findings(m)| else 0)
               + (if msg == HomeRangeMessage then Count(m.vpcs, VpcInHomeRange()) else 0)
  {
    var c := Count(m.ec2Instances, Ec2InPublicSubnet(m));
    HomeRangeFindingsShape(m.vpcs);
    CountMessageUniform(NoLbFindings(m), NoLbMessage, msg);
    CountMessageUniform(CredentialsFindings(m), CredentialsMessage, msg);
    CountMessageUniform(PublicEc2Findings(m), PublicEc2Message(c), msg);
    CountMessageUniform(HomeRangeFindings(m.vpcs), HomeRangeMessage, msg);
  }

  lemma CountMessageOfFindings(m: ModelView, msg: string)
    ensures var c := Count(m.ec2Instances, Ec2InPublicSubnet(m));
            CountMessage(SecurityFindings(m), msg)
            == (if msg == PublicRdsMessage then Count(m.rdsDatabases, RdsInPublicSubnet(m)) else 0)
               + (if msg == MultiAzMessage then Count(m.rdsDatabases, RdsSingleZone()) else 0)
               + (if msg == NoPrivateSubnetsMessage then Count(m.vpcs, VpcLacks(Private)) else 0)
               + (if msg == NoPublicSubnetsMessage && |m.loadBalancers| > 0 then Count(m.vpcs, VpcLacks(Public)) else 0)
               + (if msg == PrivateLbMessage then Count(m.loadBalancers, LbInPrivateSubnet(m)) else 0)
               + (if msg == NoLbMessage then |NoLbFindings(m)| else 0)
               + (if msg == CredentialsMessage then |CredentialsFindings(m)| else 0)
               + (if msg == PublicEc2Message(c) then |PublicEc2Findings(m)| else 0)
               + (if msg == HomeRangeMessage then Count(m.vpcs, VpcInHomeRange()) else 0)
  {
    CountMessageSplit(m, msg);
    CountMessageFirstChecks(m, msg);
    CountMessageLastChecks(m, msg);
  }

  /** How many times `validate_security` reports each of its messages. */
  lemma SecurityFindingCounts(m: ModelView)
    ensures CountMessage(SecurityFindings(m), PublicRdsMessage) == Count(m.rdsDatabases, RdsInPublicSubnet(m))
    ensures CountMessage(SecurityFindings(m), MultiAzMessage) == Count(m.rdsDatabases, RdsSingleZone())
    ensures CountMessage(SecurityFindings(m), NoPrivateSubnetsMessage) == Count(m.vpcs, VpcLacks(Private))
    ensures CountMessage(SecurityFindings(m), NoPublicSubnetsMessage)
            == if |m.loadBalancers| > 0 then Count(m.vpcs, VpcLacks(Public)) else 0
    ensures CountMessage(SecurityFindings(m), PrivateLbMessage) == Count(m.loadBalancers, LbInPrivateSubnet(m))
    ensures CountMessage(SecurityFindings(m), NoLbMessage)
            == if |m.ec2Instances| > 0 && |m.loadBalancers| == 0 then 1 else 0
    ensures CountMessage(SecurityFindings(m), CredentialsMessage) == if |m.rdsDatabases| > 0 then 1 else 0
    ensures var c := Count(m.ec2Instances, Ec2InPublicSubnet(m));
            CountMessage(SecurityFindings(m), PublicEc2Message(c)) == if c > 0 && |m.loadBalancers| > 0 then 1 else 0
    ensures CountMessage(SecurityFindings(m), HomeRangeMessage) == Count(m.vpcs, VpcInHomeRange())
  {
    var c := Count(m.ec2Instances, Ec2InPublicSubnet(m));
    CountMessageOfFindings(m, PublicRdsMessage);
    CountMessageOfFindings(m, MultiAzMessage);
    CountMessageOfFindings(m, NoPrivateSubnetsMessage);
    CountMessageOfFindings(m, NoPublicSubnetsMessage);
    CountMessageOfFindings(m, PrivateLbMessage);
    CountMessageOfFindings(m, NoLbMessage);
    CountMessageOfFindings(m, CredentialsMessage);
    CountMessageOfFindings(m, PublicEc2Message(c));
    CountMessageOfFindings(m, HomeRangeMessage);
    PublicEc2MessageIsDistinct(c);
  }

  /** The three severities `validate_security` uses. */
  predicate KnownSeverity(severity: string) {
    severity == High || severity == Medium || severity == Low
  }

  /** The severity of a finding agrees with its message as `validate_security` pairs them. */
  predicate SeverityFits(w: SecurityWarning) {
    && KnownSeverity(w.severity)
    && (w.severity == High <==> w.message == PublicRdsMessage)
    && (w.severity == Low <==> w.message == NoLbMessage || w.message == HomeRangeMessage)
  }

  /** Every finding is HIGH, MEDIUM or LOW; only check 1 reports HIGH; only checks 5 and 8 report LOW. */
  lemma FindingSeverities(m: ModelView)
    ensures forall w | w in SecurityFindings(m) :: SeverityFits(w)
  {
    var c := Count(m.ec2Instances, Ec2InPublicSubnet(m));
    var c1 := PublicRdsFindings(m, m.rdsDatabases);
    var c2 := MultiAzFindings(m.rdsDatabases);
    var c3 := SegmentationFindings(m, m.vpcs);
    var c4 := PrivateLbFindings(m, m.loadBalancers);
    var c5 := NoLbFindings(m);
    var c6 := CredentialsFindings(m);
    var c7 := PublicEc2Findings(m);
    var c8 := HomeRangeFindings(m.vpcs);
    PublicRdsFindingsShape(m, m.rdsDatabases);
    MultiAzFindingsShape(m.rdsDatabases);
    SegmentationFindingsShape(m, m.vpcs, "");
    PrivateLbFindingsShape(m, m.loadBalancers);
    HomeRangeFindingsShape(m.vpcs);
    PublicEc2MessageIsDistinct(c);
    assert SecurityFindings(m) == c1 + c2 + c3 + c4 + c5 + c6 + c7 + c8;
    forall w | w in SecurityFindings(m) ensures SeverityFits(w) {
      if w in c1 {
        assert w.message == PublicRdsMessage && w.severity == High;
      } else if w in c2 {
        assert w.message == MultiAzMessage && w.severity == Medium;
      } else if w in c3 {
        assert w.severity == Medium;
      } else if w in c4 {
        assert w.message == PrivateLbMessage && w.severity == Medium;
      } else if w in c5 {
        assert w == NoLbWarning;
      } else if w in c6 {
        assert w == CredentialsWarning;
      } else if w in c7 {
        assert w == PublicEc2Warning(c);
      } else {
        assert w in c8;
      }
    }
  }

  /** A model with no VPC, instance, database or load balancer yields no warning, and the report says so. */
  lemma EmptyModelIsClean(m: ModelView)
    requires |m.vpcs| == 0 && |m.ec2Instances| == 0 && |m.rdsDatabases| == 0 && |m.loadBalancers| == 0
    ensures SecurityFindings(m) == []
    ensures SecurityReport(SecurityFindings(m)) == NoWarningsReport
  {
  }

  // ---------------------------------------------------------------------
  // generate_security_report
  // ---------------------------------------------------------------------

  const NoWarningsReport := "\U{2705} No security warnings found. Infrastructure follows best practices."
  const IssuePrefix := "    Issue: "
  const FixPrefix := "    Fix: "

  function ReportHeader(n: nat): string {
    "\U{26A0}\U{FE0F}  Found " + NatToString(n) + " security warning(s):\n"
  }

  function GroupHeader(severity: string, n: nat): string {
    "\n" + severity + " SEVERITY (" + NatToString(n) + "):"
  }

  function ResourceLine(w: SecurityWarning): string { "\n  \U{2022} " + w.resource }
  function IssueLine(w: SecurityWarning): string { IssuePrefix + w.message }
  function FixLine(w: SecurityWarning): string { FixPrefix + w.recommendation }

  /** The findings whose severity is exactly `severity`, in their original order. */
  function OfSeverity(ws: seq<SecurityWarning>, severity: string): seq<SecurityWarning> {
    if ws == [] then []
    else OfSeverity(ws[..|ws| - 1], severity)
         + (if ws[|ws| - 1].severity == severity then [ws[|ws| - 1]] else [])
  }

  /** Three lines per finding: resource, issue, fix. */
  function WarningLines(ws: seq<SecurityWarning>): seq<string> {
    if ws == [] then []
    else WarningLines(ws[..|ws| - 1]) + [ResourceLine(ws[|ws| - 1]), IssueLine(ws[|ws| - 1]), FixLine(ws[|ws| - 1])]
  }

  /** A group prints nothing when it is empty, otherwise a header and its findings. */
  function GroupLines(severity: string, ws: seq<SecurityWarning>): seq<string> {
    if ws == [] then [] else [GroupHeader(severity, |ws|)] + WarningLines(ws)
  }

  function GroupsLines(groups: seq<(string, seq<SecurityWarning>)>): seq<string> {
    if groups == [] then []
    else GroupsLines(groups[..|groups| - 1]) + GroupLines(groups[|groups| - 1].0, groups[|groups| - 1].1)
  }

  function SeverityGroups(ws: seq<SecurityWarning>): seq<(string, seq<SecurityWarning>)> {
    [(High, OfSeverity(ws, High)), (Medium, OfSeverity(ws, Medium)), (Low, OfSeverity(ws, Low))]
  }

  function ReportLines(ws: seq<SecurityWarning>): seq<string> {
    [ReportHeader(|ws|)] + GroupsLines(SeverityGroups(ws))
  }

  function SecurityReport(ws: seq<SecurityWarning>): string {
    if ws == [] then NoWarningsReport else Join(ReportLines(ws), "\n")
  }

  /** The inner loop of `generate_security_report`: three lines per finding. */
  method AppendWarningLines(lines: seq<string>, warningList: seq<SecurityWarning>) returns (out: seq<string>)
    ensures out == lines + WarningLines(warningList)
  {
    out := lines;
    var k := 0;
    while k < |warningList|
      invariant 0 <= k <= |warningList|
      invariant out == lines + WarningLines(warningList[..k])
    {
      var w := warningList[k];
      out := out + [ResourceLine(w)];
      out := out + [IssueLine(w)];
      out := out + [FixLine(w)];
      assert warningList[..k + 1][..k] == warningList[..k];
      k := k + 1;
    }
    assert warningList[..k] == warningList;
  }

  /** One pass of the outer loop of `generate_security_report`: an empty group prints nothing. */
  method AppendGroup(lines: seq<string>, severity: string, warningList: seq<SecurityWarning>) returns (out: seq<string>)
    ensures out == lines + GroupLines(severity, warningList)
  {
    out := lines;
    if |warningList| > 0 {
      out := out + [GroupHeader(severity, |warningList|)];
      out := AppendWarningLines(out, warningList);
    }
  }

  lemma GroupsLinesStep(lines: seq<string>, groups: seq<(string, seq<SecurityWarning>)>, g: nat)
    requires g < |groups|
    ensures lines + GroupsLines(groups[..g]) + GroupLines(groups[g].0, groups[g].1) == lines + GroupsLines(groups[..g + 1])
  {
    assert groups[..g + 1][..g] == groups[..g];
  }

  /** The outer loop of `generate_security_report`: a header and the findings of each non-empty group. */
  method AppendGroups(lines: seq<string>, groups: seq<(string, seq<SecurityWarning>)>) returns (out: seq<string>)
    ensures out == lines + GroupsLines(groups)
  {
    out := lines;
    var g := 0;
    while g < |groups|
      invariant 0 <= g <= |groups|
      invariant out == lines + GroupsLines(groups[..g])
    {
      out := AppendGroup(out, groups[g].0, groups[g].1);
      GroupsLinesStep(lines, groups, g);
      g := g + 1;
    }
    assert groups[..g] == groups;
  }

  /** `generate_security_report` */
  method GenerateSecurityReport(ws: seq<SecurityWarning>) returns (report: string)
    ensures report == SecurityReport(ws)
  {
    if |ws| == 0 {
      return NoWarningsReport;
    }
    var high := OfSeverity(ws, High);
    var medium := OfSeverity(ws, Medium);
    var low := OfSeverity(ws, Low);
    var lines := AppendGroups([ReportHeader(|ws|)], [(High, high), (Medium, medium), (Low, low)]);
    report := Join(lines, "\n");
  }

  // ---------------------------------------------------------------------
  // What the report shows
  // ---------------------------------------------------------------------

  /** A group header line: starts with a newline not followed by a space. */
  predicate IsGroupHeaderLine(l: string) {
    StartsWith(l, "\n") && !StartsWith(l, "\n ")
  }

  /** The group header lines of a report, in order. */
  function GroupHeaders(lines: seq<string>): seq<string> {
    if lines == [] then []
    else GroupHeaders(lines[..|lines| - 1]) + (if IsGroupHeaderLine(lines[|lines| - 1]) then [lines[|lines| - 1]] else [])
  }

  /** The messages read back from the issue lines of a report, in order. */
  function IssueMessages(lines: seq<string>): seq<string> {
    if lines == [] then []
    else
      var l := lines[|lines| - 1];
      IssueMessages(lines[..|lines| - 1]) + (if StartsWith(l, IssuePrefix) then [l[|IssuePrefix|..]] else [])
  }

  function Messages(ws: seq<SecurityWarning>): seq<string> {
    if ws == [] then [] else Messages(ws[..|ws| - 1]) + [ws[|ws| - 1].message]
  }

  /** The header expected for each severity of `order` that has findings. */
  function ExpectedHeaders(ws: seq<SecurityWarning>, order: seq<string>): seq<string> {
    if order == [] then []
    else
      var sev := order[|order| - 1];
      ExpectedHeaders(ws, order[..|order| - 1])
      + (if OfSeverity(ws, sev) != [] then [GroupHeader(sev, |OfSeverity(ws, sev)|)] else [])
  }

  lemma {:induction false} GroupHeadersAppend(a: seq<string>, b: seq<string>)
    ensures GroupHeaders(a + b) == GroupHeaders(a) + GroupHeaders(b)
    decreases |b|
  {
    if b == [] {
      assert a + b == a;
    } else {
      assert (a + b)[..|a + b| - 1] == a + b[..|b| - 1];
      GroupHeadersAppend(a, b[..|b| - 1]);
    }
  }

  lemma {:induction false} IssueMessagesAppend(a: seq<string>, b: seq<string>)
    ensures IssueMessages(a + b) == IssueMessages(a) + IssueMessages(b)
    decreases |b|
  {
    if b == [] {
      assert a + b == a;
    } else {
      assert (a + b)[..|a + b| - 1] == a + b[..|b| - 1];
      IssueMessagesAppend(a, b[..|b| - 1]);
    }
  }

  lemma {:induction false} MessagesAppend(a: seq<SecurityWarning>, b: seq<SecurityWarning>)
    ensures Messages(a + b) == Messages(a) + Messages(b)
    decreases |b|
  {
    if b == [] {
      assert a + b == a;
    } else {
      assert (a + b)[..|a + b| - 1] == a + b[..|b| - 1];
      MessagesAppend(a, b[..|b| - 1]);
    }
  }

  /** Which of the two readers picks up each kind of line. */
  lemma LineKinds(w: SecurityWarning, severity: string, n: nat)
    requires |severity| > 0 && severity[0] != ' '
    ensures IsGroupHeaderLine(GroupHeader(severity, n)) && !StartsWith(GroupHeader(severity, n), IssuePrefix)
    ensures !IsGroupHeaderLine(ResourceLine(w)) && !StartsWith(ResourceLine(w), IssuePrefix)
    ensures !IsGroupHeaderLine(IssueLine(w)) && StartsWith(IssueLine(w), IssuePrefix)
    ensures IssueLine(w)[|IssuePrefix|..] == w.message
    ensures !IsGroupHeaderLine(FixLine(w)) && !StartsWith(FixLine(w), IssuePrefix)
    ensures !IsGroupHeaderLine(ReportHeader(n)) && !StartsWith(ReportHeader(n), IssuePrefix)
  {
    var h := GroupHeader(severity, n);
    assert h[0] == '\n' && h[1] == severity[0];
    assert h[..1] == "\n";
    assert h[..2] != "\n " by { assert h[..2][1] == severity[0]; }
    var r := ResourceLine(w);
    assert r[..2] == "\n ";
    assert |r| < |IssuePrefix| || r[..|IssuePrefix|][0] == '\n';
    var i := IssueLine(w);
    assert i[..|IssuePrefix|] == IssuePrefix;
    assert i[..1] != "\n" by { assert i[0] == ' '; }
    var f := FixLine(w);
    assert f[..1] != "\n" by { assert f[0] == ' '; }
    assert |f| < |IssuePrefix| || f[..|IssuePrefix|][4] == 'F';
    var t := ReportHeader(n);
    assert t[..1] != "\n" by { assert t[0] == '\U{26A0}'; }
    assert t[..|IssuePrefix|] != IssuePrefix by { assert t[0] == '\U{26A0}'; }
  }

  /** What the two readers take from one more line. */
  lemma ReadOneMore(lines: seq<string>, l: string)
    ensures GroupHeaders(lines + [l]) == GroupHeaders(lines) + (if IsGroupHeaderLine(l) then [l] else [])
    ensures IssueMessages(lines + [l]) == IssueMessages(lines) + (if StartsWith(l, IssuePrefix) then [l[|IssuePrefix|..]] else [])
  {
    assert (lines + [l])[..|lines|] == lines;
  }

  /** What the two readers take from the three lines of one finding. */
  lemma ReadOneWarning(prev: seq<string>, w: SecurityWarning)
    ensures GroupHeaders(prev + [ResourceLine(w), IssueLine(w), FixLine(w)]) == GroupHeaders(prev)
    ensures IssueMessages(prev + [ResourceLine(w), IssueLine(w), FixLine(w)]) == IssueMessages(prev) + [w.message]
  {
    LineKinds(w, High, 0);
    ReadOneMore(prev, ResourceLine(w));
    ReadOneMore(prev + [ResourceLine(w)], IssueLine(w));
    ReadOneMore(prev + [ResourceLine(w)] + [IssueLine(w)], FixLine(w));
    assert prev + [ResourceLine(w)] + [IssueLine(w)] + [FixLine(w)] == prev + [ResourceLine(w), IssueLine(w), FixLine(w)];
  }

  lemma {:induction false} WarningLinesRead(ws: seq<SecurityWarning>)
    ensures GroupHeaders(WarningLines(ws)) == []
    ensures IssueMessages(WarningLines(ws)) == Messages(ws)
    ensures |WarningLines(ws)| == 3 * |ws|
  {
    if ws != [] {
      WarningLinesRead(ws[..|ws| - 1]);
      ReadOneWarning(WarningLines(ws[..|ws| - 1]), ws[|ws| - 1]);
    }
  }

  lemma GroupLinesRead(severity: string, ws: seq<SecurityWarning>)
    requires |severity| > 0 && severity[0] != ' '
    ensures GroupHeaders(GroupLines(severity, ws)) == if ws == [] then [] else [GroupHeader(severity, |ws|)]
    ensures IssueMessages(GroupLines(severity, ws)) == Messages(ws)
    ensures |GroupLines(severity, ws)| == if ws == [] then 0 else 1 + 3 * |ws|
    ensures |GroupLines(severity, ws)| == |GroupHeaders(GroupLines(severity, ws))| + 3 * |ws|
  {
    if ws != [] {
      var h := [GroupHeader(severity, |ws|)];
      WarningLinesRead(ws);
      LineKinds(ws[0], severity, |ws|);
      ReadOneMore([], GroupHeader(severity, |ws|));
      assert [] + h == h;
      GroupHeadersAppend(h, WarningLines(ws));
      IssueMessagesAppend(h, WarningLines(ws));
    }
  }

  /** Three groups are written one after the other. */
  lemma {:induction false} ThreeGroupsLines(a: (string, seq<SecurityWarning>), b: (string, seq<SecurityWarning>),
                                            c: (string, seq<SecurityWarning>))
    ensures GroupsLines([a, b, c]) == GroupLines(a.0, a.1) + GroupLines(b.0, b.1) + GroupLines(c.0, c.1)
  {
    var gs := [a, b, c];
    assert GroupsLines(gs[..1]) == GroupLines(a.0, a.1) by {
      assert gs[..1][..0] == [];
    }
    assert GroupsLines(gs[..2]) == GroupLines(a.0, a.1) + GroupLines(b.0, b.1) by {
      assert gs[..2][..1] == gs[..1];
    }
    assert gs[..2] == gs[..|gs| - 1];
  }

  /** The report is its header followed by the HIGH, MEDIUM and LOW groups. */
  lemma ReportLinesSplit(ws: seq<SecurityWarning>)
    ensures ReportLines(ws)
            == [ReportHeader(|ws|)] + (GroupLines(High, OfSeverity(ws, High))
               + GroupLines(Medium, OfSeverity(ws, Medium)) + GroupLines(Low, OfSeverity(ws, Low)))
  {
    ThreeGroupsLines((High, OfSeverity(ws, High)), (Medium, OfSeverity(ws, Medium)), (Low, OfSeverity(ws, Low)));
  }

  lemma ExpectedHeadersInOrder(ws: seq<SecurityWarning>)
    ensures ExpectedHeaders(ws, [High, Medium, Low])
            == (if OfSeverity(ws, High) != [] then [GroupHeader(High, |OfSeverity(ws, High)|)] else [])
               + (if OfSeverity(ws, Medium) != [] then [GroupHeader(Medium, |OfSeverity(ws, Medium)|)] else [])
               + (if OfSeverity(ws, Low) != [] then [GroupHeader(Low, |OfSeverity(ws, Low)|)] else [])
  {
    var order := [High, Medium, Low];
    var a := if OfSeverity(ws, High) != [] then [GroupHeader(High, |OfSeverity(ws, High)|)] else [];
    var b := if OfSeverity(ws, Medium) != [] then [GroupHeader(Medium, |OfSeverity(ws, Medium)|)] else [];
    var c := if OfSeverity(ws, Low) != [] then [GroupHeader(Low, |OfSeverity(ws, Low)|)] else [];
    assert ExpectedHeaders(ws, order[..1]) == a by {
      assert order[..1][..0] == [] && order[..1][0] == High;
    }
    assert ExpectedHeaders(ws, order[..2]) == a + b by {
      assert order[..2][..1] == order[..1] && order[..2][1] == Medium;
    }
    assert ExpectedHeaders(ws, order) == a + b + c by {
      assert order[..2] == order[..|order| - 1];
    }
  }

  /**
   * The report prints one header per severity that has findings, in the
   * order HIGH, MEDIUM, LOW, each with the number of findings of that
   * severity; the issue lines give back the messages grouped in that order.
   */
  lemma ReportGroups(ws: seq<SecurityWarning>)
    ensures GroupHeaders(ReportLines(ws)) == ExpectedHeaders(ws, [High, Medium, Low])
    ensures IssueMessages(ReportLines(ws))
            == Messages(OfSeverity(ws, High)) + Messages(OfSeverity(ws, Medium)) + Messages(OfSeverity(ws, Low))
    ensures |ReportLines(ws)|
            == 1 + |GroupHeaders(ReportLines(ws))|
               + 3 * (|OfSeverity(ws, High)| + |OfSeverity(ws, Medium)| + |OfSeverity(ws, Low)|)
  {
    ReportHeaderRead(ws);
    ThreeGroupsRead(ws);
  }

  /** The report's first line is neither a group header nor an issue line. */
  lemma ReportHeaderRead(ws: seq<SecurityWarning>)
    ensures var body := GroupLines(High, OfSeverity(ws, High))
                        + GroupLines(Medium, OfSeverity(ws, Medium)) + GroupLines(Low, OfSeverity(ws, Low));
            && GroupHeaders(ReportLines(ws)) == GroupHeaders(body)
            && IssueMessages(ReportLines(ws)) == IssueMessages(body)
            && |ReportLines(ws)| == 1 + |body|
  {
    var body := GroupLines(High, OfSeverity(ws, High))
                + GroupLines(Medium, OfSeverity(ws, Medium)) + GroupLines(Low, OfSeverity(ws, Low));
    var head := [ReportHeader(|ws|)];
    ReportLinesSplit(ws);
    LineKinds(SecurityWarning("", "", "", ""), High, |ws|);
    ReadOneMore([], ReportHeader(|ws|));
    assert [] + head == head;
    GroupHeadersAppend(head, body);
    IssueMessagesAppend(head, body);
  }

  /** What the readers take from three groups printed one after the other. */
  lemma ThreeGroupsReadOf(s1: string, w1: seq<SecurityWarning>, s2: string, w2: seq<SecurityWarning>,
                          s3: string, w3: seq<SecurityWarning>)
    requires |s1| > 0 && s1[0] != ' ' && |s2| > 0 && s2[0] != ' ' && |s3| > 0 && s3[0] != ' '
    ensures var g := GroupLines(s1, w1) + GroupLines(s2, w2) + GroupLines(s3, w3);
            && GroupHeaders(g)
               == (if w1 != [] then [GroupHeader(s1, |w1|)] else [])
                  + (if w2 != [] then [GroupHeader(s2, |w2|)] else [])
                  + (if w3 != [] then [GroupHeader(s3, |w3|)] else [])
            && IssueMessages(g) == Messages(w1) + Messages(w2) + Messages(w3)
            && |g| == |GroupHeaders(g)| + 3 * (|w1| + |w2| + |w3|)
  {
    GroupLinesRead(s1, w1);
    GroupLinesRead(s2, w2);
    GroupLinesRead(s3, w3);
    ReadThree(GroupLines(s1, w1), GroupLines(s2, w2), GroupLines(s3, w3));
  }

  /** The readers take from three blocks of lines what they take from each, in order. */
  lemma ReadThree(a: seq<string>, b: seq<string>, c: seq<string>)
    ensures GroupHeaders(a + b + c) == GroupHeaders(a) + GroupHeaders(b) + GroupHeaders(c)
    ensures IssueMessages(a + b + c) == IssueMessages(a) + IssueMessages(b) + IssueMessages(c)
  {
    GroupHeadersAppend(a + b, c);
    GroupHeadersAppend(a, b);
    IssueMessagesAppend(a + b, c);
    IssueMessagesAppend(a, b);
  }

  /** What the readers take from the HIGH, MEDIUM and LOW groups printed one after the other. */
  lemma ThreeGroupsRead(ws: seq<SecurityWarning>)
    ensures var hl := GroupLines(High, OfSeverity(ws, High));
            var ml := GroupLines(Medium, OfSeverity(ws, Medium));
            var ll := GroupLines(Low, OfSeverity(ws, Low));
            && GroupHeaders(hl + ml + ll) == ExpectedHeaders(ws, [High, Medium, Low])
            && IssueMessages(hl + ml + ll)
               == Messages(OfSeverity(ws, High)) + Messages(OfSeverity(ws, Medium)) + Messages(OfSeverity(ws, Low))
            && |hl + ml + ll|
               == |GroupHeaders(hl + ml + ll)|
                  + 3 * (|OfSeverity(ws, High)| + |OfSeverity(ws, Medium)| + |OfSeverity(ws, Low)|)
  {
    ExpectedHeadersInOrder(ws);
    ThreeGroupsReadOf(High, OfSeverity(ws, High), Medium, OfSeverity(ws, Medium), Low, OfSeverity(ws, Low));
  }

  lemma OfSeverityStep(ws: seq<SecurityWarning>, severity: string)
    requires ws != []
    ensures multiset(OfSeverity(ws, severity))
            == multiset(OfSeverity(ws[..|ws| - 1], severity))
               + (if ws[|ws| - 1].severity == severity then multiset{ws[|ws| - 1]} else multiset{})
  {
  }

  /** The three groups of `init + [x]` are those of `init` with `x` added to one of them. */
  lemma SeverityPartitionStep(ws: seq<SecurityWarning>)
    requires ws != [] && KnownSeverity(ws[|ws| - 1].severity)
    ensures multiset(OfSeverity(ws, High)) + multiset(OfSeverity(ws, Medium)) + multiset(OfSeverity(ws, Low))
            == multiset(OfSeverity(ws[..|ws| - 1], High)) + multiset(OfSeverity(ws[..|ws| - 1], Medium))
               + multiset(OfSeverity(ws[..|ws| - 1], Low)) + multiset{ws[|ws| - 1]}
  {
    OfSeverityStep(ws, High);
    OfSeverityStep(ws, Medium);
    OfSeverityStep(ws, Low);
  }

  lemma MultisetOfLast(ws: seq<SecurityWarning>)
    requires ws != []
    ensures multiset(ws) == multiset(ws[..|ws| - 1]) + multiset{ws[|ws| - 1]}
  {
    assert ws == ws[..|ws| - 1] + [ws[|ws| - 1]];
  }

  /** When every severity is HIGH, MEDIUM or LOW the three groups together are a permutation of the findings. */
  lemma {:induction false} SeverityPartition(ws: seq<SecurityWarning>)
    requires forall w | w in ws :: KnownSeverity(w.severity)
    ensures multiset(OfSeverity(ws, High)) + multiset(OfSeverity(ws, Medium)) + multiset(OfSeverity(ws, Low))
            == multiset(ws)
  {
    if ws != [] {
      assert ws[|ws| - 1] in ws;
      assert forall w | w in ws[..|ws| - 1] :: w in ws;
      SeverityPartition(ws[..|ws| - 1]);
      SeverityPartitionStep(ws);
      MultisetOfLast(ws);
    }
  }

  /** The three groups hold as many findings as there are. */
  lemma SeverityGroupSizes(ws: seq<SecurityWarning>)
    requires forall w | w in ws :: KnownSeverity(w.severity)
    ensures |OfSeverity(ws, High)| + |OfSeverity(ws, Medium)| + |OfSeverity(ws, Low)| == |ws|
  {
    SeverityPartition(ws);
    assert |OfSeverity(ws, High)| + |OfSeverity(ws, Medium)| + |OfSeverity(ws, Low)|
           == |multiset(OfSeverity(ws, High))| + |multiset(OfSeverity(ws, Medium))| + |multiset(OfSeverity(ws, Low))|
           == |multiset(ws)|;
  }

  /** Every finding of `validate_security` reaches the report: one issue line each. */
  lemma ReportListsEveryFinding(m: ModelView)
    ensures var ws := SecurityFindings(m);
            |IssueMessages(ReportLines(ws))| == |ws|
  {
    var ws := SecurityFindings(m);
    FindingSeverities(m);
    assert forall w | w in ws :: KnownSeverity(w.severity);
    SeverityGroupSizes(ws);
    ReportGroups(ws);
    MessagesLength(OfSeverity(ws, High));
    MessagesLength(OfSeverity(ws, Medium));
    MessagesLength(OfSeverity(ws, Low));
  }

  lemma {:induction false} MessagesLength(ws: seq<SecurityWarning>)
    ensures |Messages(ws)| == |ws|
  {
    if ws != [] {
      MessagesLength(ws[..|ws| - 1]);
    }
  }
}
