/**
 * The infrastructure model: the single source of truth that the text
 * parser fills and the diagram, Terraform and security generators read.
 * Resources are plain records; a VPC and the model itself are objects
 * whose lists grow in place.
 */
module Model {
  import opened Wrappers
  import opened Strings

  // ---------------------------------------------------------------------
  // Enumerations and their string values
  // ---------------------------------------------------------------------

  /** Where the last edit of a model came from. */
  datatype EditSource = Text | Diagram | Terraform | Initial

  function EditSourceValue(e: EditSource): string {
    match e
    case Text => "text"
    case Diagram => "diagram"
    case Terraform => "terraform"
    case Initial => "initial"
  }

  datatype SubnetType = Public | Private

  function SubnetTypeValue(t: SubnetType): string {
    match t
    case Public => "public"
    case Private => "private"
  }

  datatype InstanceType = T2Micro | T2Small | T2Medium | T3Micro | T3Small

  function InstanceTypeValue(t: InstanceType): string {
    match t
    case T2Micro => "t2.micro"
    case T2Small => "t2.small"
    case T2Medium => "t2.medium"
    case T3Micro => "t3.micro"
    case T3Small => "t3.small"
  }

  datatype DatabaseEngine = Postgres | MySql | MariaDb

  function DatabaseEngineValue(e: DatabaseEngine): string {
    match e
    case Postgres => "postgres"
    case MySql => "mysql"
    case MariaDb => "mariadb"
  }

  /** `SubnetType(value)`: the member whose value is `s`, or ValueError. */
  function ParseSubnetType(s: string): (r: Option<SubnetType>)
    ensures r.Some? ==> SubnetTypeValue(r.value) == s
    ensures r.None? ==> forall t: SubnetType :: SubnetTypeValue(t) != s
  {
    if s == "public" then Some(Public)
    else if s == "private" then Some(Private)
    else None
  }

  /** `InstanceType(value)` */
  function ParseInstanceType(s: string): (r: Option<InstanceType>)
    ensures r.Some? ==> InstanceTypeValue(r.value) == s
    ensures r.None? ==> forall t: InstanceType :: InstanceTypeValue(t) != s
  {
    if s == "t2.micro" then Some(T2Micro)
    else if s == "t2.small" then Some(T2Small)
    else if s == "t2.medium" then Some(T2Medium)
    else if s == "t3.micro" then Some(T3Micro)
    else if s == "t3.small" then Some(T3Small)
    else None
  }

  /** `DatabaseEngine(value)` */
  function ParseDatabaseEngine(s: string): (r: Option<DatabaseEngine>)
    ensures r.Some? ==> DatabaseEngineValue(r.value) == s
    ensures r.None? ==> forall e: DatabaseEngine :: DatabaseEngineValue(e) != s
  {
    if s == "postgres" then Some(Postgres)
    else if s == "mysql" then Some(MySql)
    else if s == "mariadb" then Some(MariaDb)
    else None
  }

  /** Looking up the value of a member gives that member back. */
  lemma EnumValuesRoundTrip(t: SubnetType, i: InstanceType, e: DatabaseEngine)
    ensures ParseSubnetType(SubnetTypeValue(t)) == Some(t)
    ensures ParseInstanceType(InstanceTypeValue(i)) == Some(i)
    ensures ParseDatabaseEngine(DatabaseEngineValue(e)) == Some(e)
  {
  }

  // ---------------------------------------------------------------------
  // Resources
  // ---------------------------------------------------------------------

  const DefaultAvailabilityZone := "us-east-1a"
  const DefaultAmi := "ami-0c55b159cbfafe1f0"
  const DefaultAllocatedStorage := 20

  datatype Subnet = Subnet(id: string, name: string, cidr: string, subnetType: SubnetType, availabilityZone: string)

  datatype Ec2Instance = Ec2Instance(id: string, name: string, instanceType: InstanceType, subnetId: string, ami: string)

  datatype RdsDatabase = RdsDatabase(
    id: string, name: string, engine: DatabaseEngine, instanceClass: string,
    subnetIds: seq<string>, allocatedStorage: int)

  datatype LoadBalancer = LoadBalancer(id: string, name: string, subnetIds: seq<string>, targetInstanceIds: seq<string>)

  datatype S3Bucket = S3Bucket(id: string, name: string, versioningEnabled: bool, encryptionEnabled: bool)

  /** A firewall rule is an untyped dictionary in the source. */
  type Rule = map<string, string>

  datatype SecurityGroup = SecurityGroup(
    id: string, name: string, vpcId: string, description: string,
    ingressRules: seq<Rule>, egressRules: seq<Rule>)

  /**
   * A dataclass field declared with an enum type accepts either a member or
   * a string; `__post_init__` turns a string into the member with that value.
   */
  datatype Coercible<T> = Member(member: T) | Named(name: string)

  /** Why constructing a resource failed: `Enum(value)` raised ValueError. */
  datatype ModelError = NotAValidMember(enumName: string, value: string)

  function CoerceSubnetType(t: Coercible<SubnetType>): (r: Result<SubnetType, ModelError>)
    ensures t.Member? ==> r == Success(t.member)
    ensures t.Named? ==> (r.Success? <==> t.name in {"public", "private"})
    ensures t.Named? && r.Success? ==> SubnetTypeValue(r.value) == t.name
  {
    match t
    case Member(v) => Success(v)
    case Named(n) =>
      match ParseSubnetType(n)
      case Some(v) => Success(v)
      case None => Failure(NotAValidMember("SubnetType", n))
  }

  function CoerceInstanceType(t: Coercible<InstanceType>): (r: Result<InstanceType, ModelError>)
    ensures t.Member? ==> r == Success(t.member)
    ensures t.Named? ==> (r.Success? <==> t.name in {"t2.micro", "t2.small", "t2.medium", "t3.micro", "t3.small"})
    ensures t.Named? && r.Success? ==> InstanceTypeValue(r.value) == t.name
  {
    match t
    case Member(v) => Success(v)
    case Named(n) =>
      match ParseInstanceType(n)
      case Some(v) => Success(v)
      case None => Failure(NotAValidMember("InstanceType", n))
  }

  function CoerceDatabaseEngine(e: Coercible<DatabaseEngine>): (r: Result<DatabaseEngine, ModelError>)
    ensures e.Member? ==> r == Success(e.member)
    ensures e.Named? ==> (r.Success? <==> e.name in {"postgres", "mysql", "mariadb"})
    ensures e.Named? && r.Success? ==> DatabaseEngineValue(r.value) == e.name
  {
    match e
    case Member(v) => Success(v)
    case Named(n) =>
      match ParseDatabaseEngine(n)
      case Some(v) => Success(v)
      case None => Failure(NotAValidMember("DatabaseEngine", n))
  }

  /** `Subnet(...)` including `__post_init__` */
  function NewSubnet(id: string, name: string, cidr: string, subnetType: Coercible<SubnetType>,
                     availabilityZone: string := DefaultAvailabilityZone): (r: Result<Subnet, ModelError>)
    ensures r.Success? <==> CoerceSubnetType(subnetType).Success?
    ensures r.Success? ==> r.value == Subnet(id, name, cidr, CoerceSubnetType(subnetType).value, availabilityZone)
  {
    match CoerceSubnetType(subnetType)
    case Success(t) => Success(Subnet(id, name, cidr, t, availabilityZone))
    case Failure(e) => Failure(e)
  }

  /** `EC2Instance(...)` including `__post_init__` */
  function NewEc2Instance(id: string, name: string, instanceType: Coercible<InstanceType>, subnetId: string,
                          ami: string := DefaultAmi): (r: Result<Ec2Instance, ModelError>)
    ensures r.Success? <==> CoerceInstanceType(instanceType).Success?
    ensures r.Success? ==> r.value == Ec2Instance(id, name, CoerceInstanceType(instanceType).value, subnetId, ami)
  {
    match CoerceInstanceType(instanceType)
    case Success(t) => Success(Ec2Instance(id, name, t, subnetId, ami))
    case Failure(e) => Failure(e)
  }

  /** `RDSDatabase(...)` including `__post_init__` */
  function NewRdsDatabase(id: string, name: string, engine: Coercible<DatabaseEngine>, instanceClass: string,
                          subnetIds: seq<string>, allocatedStorage: int := DefaultAllocatedStorage)
    : (r: Result<RdsDatabase, ModelError>)
    ensures r.Success? <==> CoerceDatabaseEngine(engine).Success?
    ensures r.Success? ==> r.value == RdsDatabase(id, name, CoerceDatabaseEngine(engine).value, instanceClass, subnetIds, allocatedStorage)
  {
    match CoerceDatabaseEngine(engine)
    case Success(e) => Success(RdsDatabase(id, name, e, instanceClass, subnetIds, allocatedStorage))
    case Failure(err) => Failure(err)
  }

  // ---------------------------------------------------------------------
  // Read-only views of the mutable objects
  // ---------------------------------------------------------------------

  datatype VpcView = VpcView(id: string, name: string, cidr: string, subnets: seq<Subnet>)

  /** Everything the generators and the validator read from a model. */
  datatype ModelView = ModelView(
    vpcs: seq<VpcView>,
    ec2Instances: seq<Ec2Instance>,
    rdsDatabases: seq<RdsDatabase>,
    loadBalancers: seq<LoadBalancer>,
    s3Buckets: seq<S3Bucket>,
    securityGroups: seq<SecurityGroup>,
    lastEditSource: EditSource,
    modelId: string)

  /** `any(s.subnet_type == t for s in vpc.subnets)` */
  predicate VpcHasType(v: VpcView, t: SubnetType) {
    exists k :: 0 <= k < |v.subnets| && v.subnets[k].subnetType == t
  }

  /** How many elements of `s` satisfy `p`. */
  function Count<T>(s: seq<T>, p: T -> bool): nat {
    if s == [] then 0 else Count(s[..|s| - 1], p) + (if p(s[|s| - 1]) then 1 else 0)
  }

  /** How many subnets the VPCs hold together. */
  function SubnetTotal(vs: seq<VpcView>): nat {
    if vs == [] then 0 else SubnetTotal(vs[..|vs| - 1]) + |vs[|vs| - 1].subnets|
  }

  /** The number of target ids over all load balancers. */
  function TargetTotal(lbs: seq<LoadBalancer>): nat {
    if lbs == [] then 0 else TargetTotal(lbs[..|lbs| - 1]) + |lbs[|lbs| - 1].targetInstanceIds|
  }

  /** The wall-clock value `datetime.now()` returns; supplied by the caller. */
  datatype Timestamp = Timestamp(ticks: int)

  // ---------------------------------------------------------------------
  // Subnet lookups, as specifications over the VPC list
  // ---------------------------------------------------------------------

  /** Subnet `j` of VPC `i` carries the id. */
  predicate SubnetAt(vpcs: seq<VpcView>, i: int, j: int, id: string) {
    0 <= i < |vpcs| && 0 <= j < |vpcs[i].subnets| && vpcs[i].subnets[j].id == id
  }

  ghost predicate HasSubnet(vpcs: seq<VpcView>, id: string) {
    exists i, j :: SubnetAt(vpcs, i, j, id)
  }

  /** No subnet of the first `n` VPCs carries the id. */
  ghost predicate NoSubnetBefore(vpcs: seq<VpcView>, n: int, id: string) {
    forall i, j :: 0 <= i < n && 0 <= i < |vpcs| && 0 <= j < |vpcs[i].subnets| ==> vpcs[i].subnets[j].id != id
  }

  /** (i, j) is the first position, VPC order then subnet order, holding the id. */
  ghost predicate FirstSubnetAt(vpcs: seq<VpcView>, i: int, j: int, id: string) {
    && SubnetAt(vpcs, i, j, id)
    && NoSubnetBefore(vpcs, i, id)
    && (forall j' :: 0 <= j' < j ==> vpcs[i].subnets[j'].id != id)
  }

  /** Index of the first subnet in `subnets` with the id. */
  function IndexOfSubnet(subnets: seq<Subnet>, id: string): (r: Option<nat>)
    ensures r.Some? ==> (r.value < |subnets| && subnets[r.value].id == id
                         && forall k :: 0 <= k < r.value ==> subnets[k].id != id)
    ensures r.None? ==> forall k :: 0 <= k < |subnets| ==> subnets[k].id != id
  {
    if |subnets| == 0 then None
    else if subnets[0].id == id then Some(0)
    else match IndexOfSubnet(subnets[1..], id)
      case Some(k) => Some(k + 1)
      case None => None
  }

  /** Index of the first VPC having a subnet with the id. */
  function VpcIndexForSubnet(vpcs: seq<VpcView>, id: string): (r: Option<nat>)
    ensures r.Some? ==> (r.value < |vpcs| && IndexOfSubnet(vpcs[r.value].subnets, id).Some?
                         && forall k :: 0 <= k < r.value ==> IndexOfSubnet(vpcs[k].subnets, id).None?)
    ensures r.None? ==> forall k :: 0 <= k < |vpcs| ==> IndexOfSubnet(vpcs[k].subnets, id).None?
  {
    if |vpcs| == 0 then None
    else if IndexOfSubnet(vpcs[0].subnets, id).Some? then Some(0)
    else match VpcIndexForSubnet(vpcs[1..], id)
      case Some(k) => Some(k + 1)
      case None => None
  }

  /** The subnet `get_subnet_by_id` returns. */
  function SubnetById(vpcs: seq<VpcView>, id: string): Option<Subnet> {
    match VpcIndexForSubnet(vpcs, id)
    case Some(i) => Some(vpcs[i].subnets[IndexOfSubnet(vpcs[i].subnets, id).value])
    case None => None
  }

  /** The id resolves (through `get_subnet_by_id`) to a subnet of that type. */
  predicate ResolvesTo(m: ModelView, subnetId: string, t: SubnetType) {
    var s := SubnetById(m.vpcs, subnetId);
    s.Some? && s.value.subnetType == t
  }

  /**
   * `get_subnet_by_id` finds the first subnet, VPC order then subnet order,
   * that carries the id, and finds nothing exactly when no VPC has one.
   */
  lemma SubnetByIdIsFirstMatch(vpcs: seq<VpcView>, id: string)
    ensures SubnetById(vpcs, id).None? <==> !HasSubnet(vpcs, id)
    ensures forall i, j :: FirstSubnetAt(vpcs, i, j, id) ==> SubnetById(vpcs, id) == Some(vpcs[i].subnets[j])
  {
    forall i, j | FirstSubnetAt(vpcs, i, j, id) ensures SubnetById(vpcs, id) == Some(vpcs[i].subnets[j]) {
      SubnetByIdAtFirst(vpcs, id, i, j);
    }
    if !HasSubnet(vpcs, id) {
      forall i, j | 0 <= i < |vpcs| && 0 <= j < |vpcs[i].subnets| ensures vpcs[i].subnets[j].id != id {
        assert !SubnetAt(vpcs, i, j, id);
      }
      SubnetByIdNone(vpcs, id);
    }
  }

  /** The search answers with the subnet at the first position holding the id. */
  lemma SubnetByIdAtFirst(vpcs: seq<VpcView>, id: string, i: int, j: int)
    requires FirstSubnetAt(vpcs, i, j, id)
    ensures VpcIndexForSubnet(vpcs, id) == Some(i)
    ensures SubnetById(vpcs, id) == Some(vpcs[i].subnets[j])
  {
    forall k | 0 <= k < i ensures IndexOfSubnet(vpcs[k].subnets, id).None? {
    }
    assert IndexOfSubnet(vpcs[i].subnets, id) == Some(j as nat);
  }

  /** The search answers None when no VPC has a subnet with the id. */
  lemma SubnetByIdNone(vpcs: seq<VpcView>, id: string)
    requires NoSubnetBefore(vpcs, |vpcs|, id)
    ensures VpcIndexForSubnet(vpcs, id).None? && SubnetById(vpcs, id).None?
  {
    forall k | 0 <= k < |vpcs| ensures IndexOfSubnet(vpcs[k].subnets, id).None? {
    }
  }

  /**
   * `get_vpc_for_subnet` succeeds exactly when `get_subnet_by_id` does, and
   * the subnet found lies in the VPC found.
   */
  lemma VpcForSubnetAgrees(vpcs: seq<VpcView>, id: string)
    ensures VpcIndexForSubnet(vpcs, id).Some? <==> SubnetById(vpcs, id).Some?
    ensures VpcIndexForSubnet(vpcs, id).Some? ==>
      SubnetById(vpcs, id).value in vpcs[VpcIndexForSubnet(vpcs, id).value].subnets
      && SubnetById(vpcs, id).value.id == id
  {
  }

  // ---------------------------------------------------------------------
  // Version tracking
  // ---------------------------------------------------------------------

  const InitialModelId := "model-v1"
  const VersionSeparator := "-v"

  /** `int(model_id.split('-v')[-1])`, or None where `int` raises ValueError. */
  function ModelVersion(modelId: string): Option<int> {
    ParseInt(Last(Split(modelId, VersionSeparator)))
  }

  /** `f"model-v{version}"` */
  function ModelIdOf(version: int): string {
    "model" + VersionSeparator + IntToString(version)
  }

  /** The id `update_edit_tracking` gives the model, or None where it raises. */
  function NextModelId(modelId: string): Option<string> {
    match ModelVersion(modelId)
    case Some(v) => Some(ModelIdOf(v + 1))
    case None => None
  }

  /** The version written into an id is the version read back from it. */
  lemma ModelVersionOfModelId(v: int)
    ensures ModelVersion(ModelIdOf(v)) == Some(v)
  {
    var d := IntToString(v);
    assert 'v' !in d;
    NotContainsByChar(d, VersionSeparator, 1);
    assert VersionSeparator[0] !in VersionSeparator[1..];
    SplitLastPiece("model", VersionSeparator, d);
    ParseIntToString(v);
  }

  /** Every successful update raises the version by exactly one. */
  lemma NextModelIdIncrements(modelId: string)
    ensures NextModelId(modelId).Some? <==> ModelVersion(modelId).Some?
    ensures NextModelId(modelId).Some? ==>
      ModelVersion(NextModelId(modelId).value) == Some(ModelVersion(modelId).value + 1)
  {
    if ModelVersion(modelId).Some? {
      ModelVersionOfModelId(ModelVersion(modelId).value + 1);
    }
  }

  lemma InitialModelIdIsVersionOne()
    ensures ModelVersion(InitialModelId) == Some(1)
  {
    ModelVersionOfModelId(1);
    assert ModelIdOf(1) == InitialModelId;
  }

  // ---------------------------------------------------------------------
  // to_dict
  // ---------------------------------------------------------------------

  datatype SubnetEntry = SubnetEntry(id: string, name: string, cidr: string, subnetType: string)
  datatype VpcEntry = VpcEntry(id: string, name: string, cidr: string, subnets: seq<SubnetEntry>)
  datatype Ec2Entry = Ec2Entry(id: string, name: string, instanceType: string, subnet: string)
  datatype RdsEntry = RdsEntry(id: string, name: string, engine: string, subnets: seq<string>)
  datatype LbEntry = LbEntry(id: string, name: string, subnets: seq<string>, targets: seq<string>)
  datatype ModelDict = ModelDict(
    vpcs: seq<VpcEntry>, ec2Instances: seq<Ec2Entry>, rdsDatabases: seq<RdsEntry>, loadBalancers: seq<LbEntry>)

  function SubnetEntryOf(s: Subnet): SubnetEntry {
    SubnetEntry(s.id, s.name, s.cidr, SubnetTypeValue(s.subnetType))
  }

  function VpcEntryOf(v: VpcView): VpcEntry {
    VpcEntry(v.id, v.name, v.cidr, seq(|v.subnets|, k requires 0 <= k < |v.subnets| => SubnetEntryOf(v.subnets[k])))
  }

  /** `to_dict`: the debugging summary of a model. */
  function ToDict(m: ModelView): (d: ModelDict)
    ensures |d.vpcs| == |m.vpcs| && |d.ec2Instances| == |m.ec2Instances|
    ensures |d.rdsDatabases| == |m.rdsDatabases| && |d.loadBalancers| == |m.loadBalancers|
    ensures forall i :: 0 <= i < |m.vpcs| ==>
      d.vpcs[i].id == m.vpcs[i].id && d.vpcs[i].name == m.vpcs[i].name && d.vpcs[i].cidr == m.vpcs[i].cidr
      && |d.vpcs[i].subnets| == |m.vpcs[i].subnets|
      && forall j :: 0 <= j < |m.vpcs[i].subnets| ==>
        d.vpcs[i].subnets[j].id == m.vpcs[i].subnets[j].id
        && d.vpcs[i].subnets[j].name == m.vpcs[i].subnets[j].name
        && d.vpcs[i].subnets[j].cidr == m.vpcs[i].subnets[j].cidr
        && ParseSubnetType(d.vpcs[i].subnets[j].subnetType) == Some(m.vpcs[i].subnets[j].subnetType)
    ensures forall i :: 0 <= i < |m.ec2Instances| ==>
      d.ec2Instances[i].id == m.ec2Instances[i].id && d.ec2Instances[i].name == m.ec2Instances[i].name
      && d.ec2Instances[i].subnet == m.ec2Instances[i].subnetId
      && ParseInstanceType(d.ec2Instances[i].instanceType) == Some(m.ec2Instances[i].instanceType)
    ensures forall i :: 0 <= i < |m.rdsDatabases| ==>
      d.rdsDatabases[i].id == m.rdsDatabases[i].id && d.rdsDatabases[i].name == m.rdsDatabases[i].name
      && d.rdsDatabases[i].subnets == m.rdsDatabases[i].subnetIds
      && ParseDatabaseEngine(d.rdsDatabases[i].engine) == Some(m.rdsDatabases[i].engine)
    ensures forall i :: 0 <= i < |m.loadBalancers| ==>
      d.loadBalancers[i].id == m.loadBalancers[i].id && d.loadBalancers[i].name == m.loadBalancers[i].name
      && d.loadBalancers[i].subnets == m.loadBalancers[i].subnetIds
      && d.loadBalancers[i].targets == m.loadBalancers[i].targetInstanceIds
  {
    EnumRoundTrips();
    ModelDict(
      seq(|m.vpcs|, i requires 0 <= i < |m.vpcs| => VpcEntryOf(m.vpcs[i])),
      seq(|m.ec2Instances|, i requires 0 <= i < |m.ec2Instances| =>
        var e := m.ec2Instances[i]; Ec2Entry(e.id, e.name, InstanceTypeValue(e.instanceType), e.subnetId)),
      seq(|m.rdsDatabases|, i requires 0 <= i < |m.rdsDatabases| =>
        var r := m.rdsDatabases[i]; RdsEntry(r.id, r.name, DatabaseEngineValue(r.engine), r.subnetIds)),
      seq(|m.loadBalancers|, i requires 0 <= i < |m.loadBalancers| =>
        var lb := m.loadBalancers[i]; LbEntry(lb.id, lb.name, lb.subnetIds, lb.targetInstanceIds)))
  }

  lemma EnumRoundTrips()
    ensures forall t :: ParseSubnetType(SubnetTypeValue(t)) == Some(t)
    ensures forall t :: ParseInstanceType(InstanceTypeValue(t)) == Some(t)
    ensures forall e :: ParseDatabaseEngine(DatabaseEngineValue(e)) == Some(e)
  {
    forall t: SubnetType ensures ParseSubnetType(SubnetTypeValue(t)) == Some(t) { EnumValuesRoundTrip(t, T2Micro, Postgres); }
    forall t: InstanceType ensures ParseInstanceType(InstanceTypeValue(t)) == Some(t) { EnumValuesRoundTrip(Public, t, Postgres); }
    forall e: DatabaseEngine ensures ParseDatabaseEngine(DatabaseEngineValue(e)) == Some(e) { EnumValuesRoundTrip(Public, T2Micro, e); }
  }

  /** S3 buckets and security groups do not appear in the summary. */
  lemma ToDictOmitsBucketsAndGroups(m: ModelView, buckets: seq<S3Bucket>, groups: seq<SecurityGroup>)
    ensures ToDict(m.(s3Buckets := buckets, securityGroups := groups)) == ToDict(m)
  {
  }

  // ---------------------------------------------------------------------
  // The mutable objects
  // ---------------------------------------------------------------------

  /** A Virtual Private Cloud; its subnet list grows in place. */
  class Vpc {
    const id: string
    const name: string
    const cidr: string
    var subnets: seq<Subnet>

    constructor (id: string, name: string, cidr: string, subnets: seq<Subnet> := [])
      ensures this.id == id && this.name == name && this.cidr == cidr && this.subnets == subnets
    {
      this.id := id;
      this.name := name;
      this.cidr := cidr;
      this.subnets := subnets;
    }

    function View(): VpcView
      reads this
    {
      VpcView(id, name, cidr, subnets)
    }

    /** `add_subnet` */
    method AddSubnet(subnet: Subnet)
      modifies this`subnets
      ensures subnets == old(subnets) + [subnet]
    {
      subnets := subnets + [subnet];
    }
  }

  /** The central model; every list grows in place. */
  class InfrastructureModel {
    var vpcs: seq<Vpc>
    var ec2Instances: seq<Ec2Instance>
    var rdsDatabases: seq<RdsDatabase>
    var loadBalancers: seq<LoadBalancer>
    var s3Buckets: seq<S3Bucket>
    var securityGroups: seq<SecurityGroup>
    var lastEditSource: EditSource
    var lastEditTimestamp: Option<Timestamp>
    var modelId: string

    /** A fresh model: no resources, created by the initial edit, version one. */
    constructor ()
      ensures vpcs == [] && ec2Instances == [] && rdsDatabases == [] && loadBalancers == []
      ensures s3Buckets == [] && securityGroups == []
      ensures lastEditSource == Initial && lastEditTimestamp == None && modelId == InitialModelId
    {
      vpcs := [];
      ec2Instances := [];
      rdsDatabases := [];
      loadBalancers := [];
      s3Buckets := [];
      securityGroups := [];
      lastEditSource := Initial;
      lastEditTimestamp := None;
      modelId := InitialModelId;
    }

    function VpcViews(): (r: seq<VpcView>)
      reads this, vpcs
      ensures |r| == |vpcs| && forall i :: 0 <= i < |vpcs| ==> r[i] == vpcs[i].View()
    {
      seq(|vpcs|, i reads this, vpcs requires 0 <= i < |vpcs| => vpcs[i].View())
    }

    /** What the generators read. */
    function View(): ModelView
      reads this, vpcs
    {
      ModelView(VpcViews(), ec2Instances, rdsDatabases, loadBalancers, s3Buckets, securityGroups,
                lastEditSource, modelId)
    }

    method AddVpc(vpc: Vpc)
      modifies this`vpcs
      ensures vpcs == old(vpcs) + [vpc]
    {
      vpcs := vpcs + [vpc];
    }

    method AddEc2(instance: Ec2Instance)
      modifies this`ec2Instances
      ensures ec2Instances == old(ec2Instances) + [instance]
    {
      ec2Instances := ec2Instances + [instance];
    }

    method AddRds(database: RdsDatabase)
      modifies this`rdsDatabases
      ensures rdsDatabases == old(rdsDatabases) + [database]
    {
      rdsDatabases := rdsDatabases + [database];
    }

    method AddLoadBalancer(lb: LoadBalancer)
      modifies this`loadBalancers
      ensures loadBalancers == old(loadBalancers) + [lb]
    {
      loadBalancers := loadBalancers + [lb];
    }

    method AddS3Bucket(bucket: S3Bucket)
      modifies this`s3Buckets
      ensures s3Buckets == old(s3Buckets) + [bucket]
    {
      s3Buckets := s3Buckets + [bucket];
    }

    method AddSecurityGroup(sg: SecurityGroup)
      modifies this`securityGroups
      ensures securityGroups == old(securityGroups) + [sg]
    {
      securityGroups := securityGroups + [sg];
    }

    /** `get_subnet_by_id`: a nested search with early return. */
    method GetSubnetById(subnetId: string) returns (r: Option<Subnet>)
      ensures r == SubnetById(VpcViews(), subnetId)
    {
      ghost var views := VpcViews();
      var i := 0;
      while i < |vpcs|
        invariant 0 <= i <= |vpcs|
        invariant NoSubnetBefore(views, i, subnetId)
      {
        var subnets := vpcs[i].subnets;
        assert subnets == views[i].subnets;
        var j := 0;
        while j < |subnets|
          invariant 0 <= j <= |subnets|
          invariant forall j' :: 0 <= j' < j ==> subnets[j'].id != subnetId
        {
          if subnets[j].id == subnetId {
            SubnetByIdAtFirst(views, subnetId, i, j);
            return Some(subnets[j]);
          }
          j := j + 1;
        }
        i := i + 1;
      }
      SubnetByIdNone(views, subnetId);
      return None;
    }

    /** `get_vpc_for_subnet`: the same search, answering with the VPC object. */
    method GetVpcForSubnet(subnetId: string) returns (r: Option<Vpc>)
      ensures r.None? <==> VpcIndexForSubnet(VpcViews(), subnetId).None?
      ensures r.Some? ==> r.value == vpcs[VpcIndexForSubnet(VpcViews(), subnetId).value]
    {
      ghost var views := VpcViews();
      var i := 0;
      while i < |vpcs|
        invariant 0 <= i <= |vpcs|
        invariant NoSubnetBefore(views, i, subnetId)
      {
        var subnets := vpcs[i].subnets;
        assert subnets == views[i].subnets;
        var j := 0;
        while j < |subnets|
          invariant 0 <= j <= |subnets|
          invariant forall j' :: 0 <= j' < j ==> subnets[j'].id != subnetId
        {
          if subnets[j].id == subnetId {
            SubnetByIdAtFirst(views, subnetId, i, j);
            return Some(vpcs[i]);
          }
          j := j + 1;
        }
        i := i + 1;
      }
      SubnetByIdNone(views, subnetId);
      return None;
    }

    /**
     * `update_edit_tracking`: the source and the time are recorded first;
     * then the version is read back from the id, which raises ValueError
     * (`ok` false) when it is not an integer, leaving the id as it was.
     */
    method UpdateEditTracking(source: EditSource, now: Timestamp) returns (ok: bool)
      modifies this`lastEditSource, this`lastEditTimestamp, this`modelId
      ensures lastEditSource == source && lastEditTimestamp == Some(now)
      ensures ok <==> ModelVersion(old(modelId)).Some?
      ensures ok ==> modelId == ModelIdOf(ModelVersion(old(modelId)).value + 1)
      ensures ok ==> ModelVersion(modelId) == Some(ModelVersion(old(modelId)).value + 1)
      ensures !ok ==> modelId == old(modelId)
    {
      lastEditSource := source;
      lastEditTimestamp := Some(now);
      var version := ParseInt(Last(Split(modelId, VersionSeparator)));
      if version.None? {
        return false;
      }
      ModelVersionOfModelId(version.value + 1);
      modelId := "model" + VersionSeparator + IntToString(version.value + 1);
      return true;
    }
  }

}
