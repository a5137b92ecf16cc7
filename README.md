# Infrastructure model, generators, validator and editor panels

This project models the core of an infrastructure design tool. A natural-language
description becomes an **infrastructure model**: VPCs holding subnets, EC2
instances, RDS databases, load balancers, S3 buckets and security groups. Every
view is generated from that model and only from it:

- a **Mermaid diagram** and a one-line description;
- **Terraform** code that carries `# infra_id:` comments so the text can be mapped back;
- a list of **security findings** and a report that groups them by severity.

On the browser side, the **warnings panel** groups findings for display, and the
**diagram controls** turn button presses into edit events.

Modules, one per source file:

| module | file | source |
|---|---|---|
| `Model` | model.dfy | backend/model.py |
| `Security` | security.dfy | security.py |
| `TerraformCode` | terraform.dfy | terraform.py |
| `MermaidDiagram` | diagram.dfy | diagram.py |
| `WarningsPanel` | warnings_panel.dfy | src/components/WarningsPanel.tsx |
| `DiagramControls` | diagram_controls.dfy | DiagramControls.tsx |
| `Strings`, `Wrappers` | strings.dfy, wrappers.dfy | Python and JavaScript string built-ins; Option and Result |

How each source file is modelled:

- **Model.** The model and each VPC are classes whose list fields grow in place.
  The two subnet lookups are nested search loops, proved against search
  functions. `update_edit_tracking` rewrites three fields; the clock reading is a
  parameter.
- **Generators and validator.** Each one is a method that appends to a `lines`
  (or `warnings`, `parts`) sequence in loops, proved equal to a specification
  function over the model. The properties are proved about that function by
  reading the output back:
  - the `# infra_id:` and `resource "<kind>"` declarations of the Terraform text;
  - the subgraph, end and node lines of the diagram;
  - the group headers and `Issue:` lines of the report.
- **Warnings panel.** The grouping `reduce` is a loop over a mutable map. The
  ordering filter, the card list and the keyword-based recommendation are
  functions.
- **Diagram controls.**
  - The component's four state hooks are the fields of a class. Its handlers are
    methods, each specified by a pure transition function `Handle`.
  - `Step` adds what the markup decides: which controls are rendered, and
    `disabled`. `Run` replays a sequence of user inputs.

## Model

| member | source | states |
|---|---|---|
| Model.ParseSubnetType | backend/model.py:24-27 | `SubnetType(s)` gives the member whose value is `s`, and none when no member has that value |
| Model.ParseInstanceType | backend/model.py:30-36 | `InstanceType(s)` gives the member whose value is `s`, and none when no member has that value |
| Model.ParseDatabaseEngine | backend/model.py:39-43 | `DatabaseEngine(s)` gives the member whose value is `s`, and none when no member has that value |
| Model.EnumValuesRoundTrip | backend/model.py:24-43 | looking up a member's value gives that member back, for all three enumerations |
| Model.CoerceSubnetType | backend/model.py:55-58 | `__post_init__` keeps a member; it turns a string into the member exactly when the string is "public" or "private", and otherwise fails |
| Model.CoerceInstanceType | backend/model.py:70-73 | a string is accepted exactly when it is one of the five instance-type values, and the member has that value |
| Model.CoerceDatabaseEngine | backend/model.py:86-89 | a string is accepted exactly when it is postgres, mysql or mariadb, and the member has that value |
| Model.NewSubnet | backend/model.py:46-58 | building a subnet succeeds exactly when its type coerces; the fields are the arguments |
| Model.NewEc2Instance | backend/model.py:61-73 | building an instance succeeds exactly when its type coerces; the fields are the arguments |
| Model.NewRdsDatabase | backend/model.py:76-89 | building a database succeeds exactly when its engine coerces; the fields are the arguments |
| Model.Vpc.AddSubnet | backend/model.py:130-132 | the subnet list becomes the old list with the subnet appended |
| Model.InfrastructureModel.constructor | backend/model.py:146-156 | a new model has empty lists, source `initial`, no timestamp and id `model-v1` |
| Model.InfrastructureModel.AddVpc | backend/model.py:158-160 | the VPC list gains the VPC at its end and nothing else changes |
| Model.InfrastructureModel.AddEc2 | backend/model.py:162-164 | the instance list gains the instance at its end |
| Model.InfrastructureModel.AddRds | backend/model.py:166-168 | the database list gains the database at its end |
| Model.InfrastructureModel.AddLoadBalancer | backend/model.py:170-172 | the load-balancer list gains the load balancer at its end |
| Model.InfrastructureModel.AddS3Bucket | backend/model.py:174-176 | the bucket list gains the bucket at its end |
| Model.InfrastructureModel.AddSecurityGroup | backend/model.py:178-180 | the security-group list gains the group at its end |
| Model.InfrastructureModel.GetSubnetById | backend/model.py:182-188 | the nested search returns the subnet that `SubnetById` specifies |
| Model.SubnetByIdIsFirstMatch | backend/model.py:182-188 | the lookup finds nothing exactly when no subnet of any VPC has the id; otherwise it returns the first match in VPC-then-subnet order |
| Model.InfrastructureModel.GetVpcForSubnet | backend/model.py:190-196 | the search returns the VPC holding the first subnet with the id, or none |
| Model.VpcForSubnetAgrees | backend/model.py:182-196 | the two lookups agree: a VPC is found exactly when a subnet is found, and the subnet belongs to that VPC |
| Model.InfrastructureModel.UpdateEditTracking | backend/model.py:198-204 | source and timestamp are always written; the id becomes `model-v<n+1>` when its suffix after the last `-v` parses as an integer n, and otherwise stays (where `int` raises) |
| Model.ModelVersionOfModelId | backend/model.py:203-204 | the version written into `model-v<n>` is read back as n |
| Model.NextModelIdIncrements | backend/model.py:203-204 | an update succeeds exactly when the old id has a version, and it raises the version by exactly one |
| Model.InitialModelIdIsVersionOne | backend/model.py:156 | the initial id `model-v1` carries version 1 |
| Model.ToDict | backend/model.py:206-248 | the summary has one entry per VPC, subnet, instance, database and load balancer, in order, with their ids, names, CIDR blocks, subnets and targets; enum values parse back to the members |
| Model.ToDictOmitsBucketsAndGroups | backend/model.py:206-248 | buckets and security groups do not affect the summary |
| Security.CheckPublicRds | security.py:43-54 | the loop with `break` yields the findings of check 1 |
| Security.PublicRdsFindingsShape | security.py:43-54 | exactly one HIGH finding per database with some subnet that resolves to a public subnet, and no other findings |
| Security.CheckMultiAz | security.py:56-64 | the loop yields the findings of check 2 |
| Security.MultiAzFindingsShape | security.py:56-64 | every database with fewer than two subnets gets a MEDIUM finding naming it as `RDS: name (id)`, and every finding names such a database |
| Security.CheckSegmentation | security.py:66-85 | the loop yields the findings of check 3 |
| Security.SegmentationFindingsShape | security.py:66-85 | one "no private subnets" finding per VPC without a private subnet; one "no public subnets" finding per VPC without a public subnet, but only when load balancers exist; all MEDIUM; each such VPC is named as `VPC: name (id)` by its finding, and every finding names a VPC lacking that tier |
| Security.CheckPrivateLb | security.py:87-98 | the loop with `break` yields the findings of check 4 |
| Security.PrivateLbFindingsShape | security.py:87-98 | exactly one MEDIUM finding per load balancer with some subnet that resolves to a private subnet |
| Security.CheckPublicEc2 | security.py:118-131 | the counting loop yields the finding of check 7 |
| Security.CheckHomeRange | security.py:133-141 | the loop yields the findings of check 8 |
| Security.HomeRangeFindingsShape | security.py:133-141 | one LOW finding per VPC whose CIDR starts with `192.168.`, naming that VPC, and no finding for any other VPC |
| Security.ValidateSecurity | security.py:28-143 | the eight checks run in order and their findings are concatenated |
| Security.SecurityFindingCounts | security.py:28-143 | how many findings carry each message, counted on the model: checks 5 and 6 fire once under their conditions, check 7 once with the number of instances in public subnets |
| Security.PublicEc2MessageIsDistinct | security.py:129 | the counted message of check 7 differs from every other check's message |
| Security.FindingSeverities | security.py:14 | every finding has severity HIGH, MEDIUM or LOW, as its check assigns |
| Security.EmptyModelIsClean | security.py:41-151 | a model with no VPC, instance, database or load balancer has no findings, and its report is the all-clear line |
| Security.GenerateSecurityReport | security.py:146-168 | the report built by the loops is the header and the severity groups, joined with newlines |
| Security.ReportGroups | security.py:153-166 | one header per severity that has findings, in the order HIGH, MEDIUM, LOW, with that severity's count; the `Issue:` lines give the messages grouped in that order; three lines per finding |
| Security.SeverityPartition | security.py:156-158 | the HIGH, MEDIUM and LOW lists together are a permutation of the findings |
| Security.ReportListsEveryFinding | security.py:146-168 | the report of a validation has exactly one `Issue:` line per finding |
| TerraformCode.Label | terraform.py:51 | a label is the id with every `-` replaced by `_`, and so contains no `-` |
| TerraformCode.GenerateTerraformCode | terraform.py:10-240 | the code the loops build is the header, VPC sections, security group, instances, databases and load balancers, joined with newlines |
| TerraformCode.TerraformDecls | terraform.py:23-238 | read back, the text declares the resources in the model's order, and every `# infra_id:` comment is directly followed by a resource line |
| TerraformCode.TerraformIds | terraform.py:49-205 | the `infra_id` comments list every VPC, subnet, instance, database and load balancer id once, in model order |
| TerraformCode.NetworkCounts | terraform.py:49-92 | one `aws_vpc` per VPC and one `aws_subnet` per subnet |
| TerraformCode.RoutingCounts | terraform.py:62-115 | one internet gateway per VPC with a public subnet; one route table and one association per public subnet |
| TerraformCode.ComputeCounts | terraform.py:117-201 | one security group if there are instances or databases, else none; one instance per EC2; one subnet group and one DB instance per database |
| TerraformCode.LoadBalancerCounts | terraform.py:203-238 | one `aws_lb` per load balancer; one target group per load balancer with targets; one attachment per target |
| TerraformCode.GatewayIffPublic | terraform.py:63-73 | a VPC section has an internet gateway exactly when the VPC has a public subnet |
| TerraformCode.RouteTableIffPublic | terraform.py:94-115 | a subnet section has a route table and an association exactly when the subnet is public |
| TerraformCode.MapPublicIffPublic | terraform.py:83-84 | a subnet block sets `map_public_ip_on_launch` exactly when the subnet is public |
| TerraformCode.SecurityGroupVpcRef | terraform.py:118-124 | the security group has a `vpc_id` line exactly when it is written and a VPC exists, and then it refers to the first VPC |
| TerraformCode.TargetGroupVpcRef | terraform.py:220-228 | a target group is named `<lb name>-tg` and has a `vpc_id` line exactly when a VPC exists, and then it refers to the first VPC |
| TerraformCode.AttachmentsInOrder | terraform.py:232-238 | one six-line attachment block per target, in target order, naming the load balancer and the target |
| TerraformCode.RdsSubnetGroupLists | terraform.py:172-173 | the subnet group lists one `aws_subnet.<label>.id` per subnet id, in order |
| TerraformCode.LbSubnetsLists | terraform.py:210-211 | the load balancer's `subnets` list holds one reference per subnet id, in order |
| TerraformCode.TerraformHeader | terraform.py:23-46 | the output starts with the fixed header; its third line carries the model id |
| TerraformCode.ModelIdReadBack | terraform.py:26 | reading the id line as `line.split(":")[-1].strip()` gives the model id back |
| MermaidDiagram.GenerateMermaidDiagram | diagram.py:10-80 | the diagram the loops build is the head, the VPC subgraphs, the load-balancer nodes and the edges, joined with newlines |
| MermaidDiagram.DiagramItems | diagram.py:22-78 | read back, the lines open and close the VPC and subnet subgraphs in nesting order; each holds the nodes of its instances and primary-subnet databases; load-balancer nodes come after |
| MermaidDiagram.DiagramSubgraphs | diagram.py:30-56 | there are as many `subgraph` lines as `end` lines: one per VPC and one per subnet |
| MermaidDiagram.DiagramNodes | diagram.py:44-62 | a node is drawn exactly when it is an instance in some subnet of some VPC, a database whose first subnet is such a subnet, or a load balancer |
| MermaidDiagram.Ec2DrawnIffPlaced | diagram.py:44-46 | an instance with a unique id is drawn exactly when its subnet exists in some VPC |
| MermaidDiagram.RdsDrawnIffPlaced | diagram.py:48-51 | a database with a unique id is drawn exactly when it has a subnet and its first subnet exists in some VPC |
| MermaidDiagram.LbEdgesPairs | diagram.py:68-71 | one `-->` edge per load-balancer target: every pair appears, and nothing else |
| MermaidDiagram.DbLinksCount | diagram.py:73-78 | the number of `-.->` edges is the number of instances in private subnets times the number of databases |
| MermaidDiagram.DbLinksComplete | diagram.py:73-78 | every instance in a private subnet is linked to every database |
| MermaidDiagram.DbLinksSound | diagram.py:73-78 | every `-.->` edge links an instance in a private subnet to a database |
| MermaidDiagram.DiagramStartsWithGraph | diagram.py:22 | the diagram starts with `graph TB` |
| MermaidDiagram.GenerateDiagramDescription | diagram.py:83-106 | the description the loop builds is the parts joined with ", " |
| MermaidDiagram.DescriptionShape | diagram.py:88-104 | one summary per VPC in order, then "N EC2 instance(s)", "N RDS database(s)" and "N load balancer(s)" in that order, each only when its count is non-zero; no part is empty |
| MermaidDiagram.DescriptionEmptyIff | diagram.py:83-106 | the description is empty exactly when the model has no VPC, instance, database or load balancer |
| WarningsPanel.GroupBySeverity | src/components/WarningsPanel.tsx:57-61 | a severity has a bucket exactly when some warning has it; each bucket holds that severity's warnings in input order |
| WarningsPanel.WithSeverityEmpty | src/components/WarningsPanel.tsx:57-63 | a group is empty exactly when no warning has that severity, so the `filter` on truthiness keeps exactly the present severities |
| WarningsPanel.WithSeverityCounts | src/components/WarningsPanel.tsx:57-61 | a bucket holds every warning of its severity as often as the input does, and no other |
| WarningsPanel.RenderedIsDisplayed | src/components/WarningsPanel.tsx:63-68 | the cards are the error warnings, then the warning ones, then the info ones, each group in input order |
| WarningsPanel.ShowWarnings | src/components/WarningsPanel.tsx:38-68 | an empty list shows All Clear; otherwise one card per displayed warning, in display order |
| WarningsPanel.DisplayedIsKnownPermutation | src/components/WarningsPanel.tsx:63 | the displayed warnings are a permutation of the input's warnings with a known severity; others are not shown |
| WarningsPanel.DisplayedAllWhenKnown | src/components/WarningsPanel.tsx:63 | when every severity is known, the panel shows exactly the given warnings, each as often as it occurs |
| WarningsPanel.RegroupDisplayed | src/components/WarningsPanel.tsx:57-63 | regrouping the displayed list gives the same groups |
| WarningsPanel.DisplayedIdempotent | src/components/WarningsPanel.tsx:57-63 | ordering an ordered list changes nothing |
| WarningsPanel.FindKeyIsFirst | src/components/WarningsPanel.tsx:130-132 | with distinct keys, `find` returns a key exactly when the text contains it and no earlier key |
| WarningsPanel.FindKeyNone | src/components/WarningsPanel.tsx:130-132 | `find` returns nothing exactly when no key is contained |
| WarningsPanel.DefaultRecommendation | src/components/WarningsPanel.tsx:122-137 | the default is never empty: it is the generic note or the canned text of a key that the lower-cased message contains |
| WarningsPanel.ShownRecommendation | src/components/WarningsPanel.tsx:111 | a card shows a non-empty recommendation; a non-empty own recommendation is always the one shown, and otherwise the default is |
| WarningsPanel.DefaultRecommendationFirstKeyword | src/components/WarningsPanel.tsx:122-136 | the canned text of key i is chosen exactly when the lower-cased message contains key i and none of the earlier keys |
| WarningsPanel.DefaultRecommendationGeneric | src/components/WarningsPanel.tsx:134-136 | the generic note is chosen exactly when the lower-cased message contains none of the four keys |
| WarningsPanel.RecommendationsDistinct | src/components/WarningsPanel.tsx:123-128 | the four canned texts and the generic note are pairwise different |
| WarningsPanel.DefaultRecommendationIgnoresCase | src/components/WarningsPanel.tsx:131 | the choice does not depend on the case of the message |
| WarningsPanel.ShownRecommendationNonEmpty | src/components/WarningsPanel.tsx:111 | a card always shows a non-empty recommendation: the warning's own when it is present and non-empty, the default when it is missing or empty |
| DiagramControls.ActionNamesDistinct | DiagramControls.tsx:42 | the three action names are different |
| DiagramControls.DefaultProperties | DiagramControls.tsx:45-73 | the defaults are empty exactly for types other than ec2, rds, elb, load_balancer and security_group |
| DiagramControls.LoadBalancerDefaultsAgree | DiagramControls.tsx:58-63 | `elb` and `load_balancer` get the same defaults, with no targets |
| DiagramControls.DefaultsAreModelValues | DiagramControls.tsx:47-57 | the default instance type and engine are members of the model's enumerations |
| DiagramControls.PickableDefaults | DiagramControls.tsx:24-73 | of the pickable resource types, only S3 gets empty defaults |
| DiagramControls.SubnetOptionsAndModelTypes | DiagramControls.tsx:32-36 | `public` and `private` are the model's subnet types; `database` is not one |
| DiagramControls.EventFor | DiagramControls.tsx:77-83 | the id is undefined exactly when the field is empty; the target subnet is set exactly for move; the defaults are set exactly for add |
| DiagramControls.Handle | DiagramControls.tsx:75-90 | an event is sent exactly when the pressed action is the armed one |
| DiagramControls.Step | DiagramControls.tsx:114-235 | one input sends an event exactly when the panel is enabled and the armed action is pressed; on a disabled panel only Cancel's disarming changes the state |
| DiagramControls.Run | DiagramControls.tsx:114-235 | each input sends at most one event; on a disabled panel the type, id and subnet fields keep their values |
| DiagramControls.PressArms | DiagramControls.tsx:87-89 | pressing an action that is not armed only arms it |
| DiagramControls.PressConfirms | DiagramControls.tsx:76-86 | pressing the armed action sends its event built from the current fields, clears the id and disarms; type and subnet stay |
| DiagramControls.CancelDisarms | DiagramControls.tsx:226-235 | Cancel disarms, sends nothing and changes no other field |
| DiagramControls.DoublePressSendsOnce | DiagramControls.tsx:75-90 | two presses of an unarmed action send its event exactly once |
| DiagramControls.NoBackToBackEvents | DiagramControls.tsx:85-86 | right after an event, no single input sends another |
| DiagramControls.EventsNeedTwoPresses | DiagramControls.tsx:75-90 | over any input sequence, twice the events sent is at most the presses plus one for an action armed at the start |
| DiagramControls.DisabledSendsNothing | DiagramControls.tsx:179-219 | while the panel is disabled, no input sequence sends an event |
| DiagramControls.EventsArePickable | DiagramControls.tsx:114-158 | every event has a pickable resource type and a subnet among the options; its defaults are empty only for S3 |
| DiagramControls.InitialStateIsPicked | DiagramControls.tsx:39-42 | the initial state holds picker options, no armed action and an empty id |
| DiagramControls.Controls.constructor | DiagramControls.tsx:39-42 | a new component has state ec2, empty id, public, nothing armed |
| DiagramControls.Controls.HandleAction | DiagramControls.tsx:75-90 | the handler updates the fields and returns the event exactly as `Handle` specifies |
| DiagramControls.Controls.Cancel | DiagramControls.tsx:230 | the Cancel click sets the armed action to none |
| DiagramControls.Controls.SetSelectedResource | DiagramControls.tsx:114 | the picker sets the resource type |
| DiagramControls.Controls.SetResourceId | DiagramControls.tsx:147 | the field sets the resource id |
| DiagramControls.Controls.SetTargetSubnet | DiagramControls.tsx:158 | the picker sets the target subnet |

## Left out

- `last_edit_timestamp = datetime.now()` reads the clock: `UpdateEditTracking` takes the time as a parameter.
- Model.ModelVersion: Python's `int()` is modelled on an optional sign and ASCII digits. Surrounding whitespace, underscores and non-ASCII digits, which `int()` also accepts, are not modelled.
- WarningsPanel.DefaultRecommendation: `toLowerCase` is modelled on ASCII letters only; JavaScript lower-cases all of Unicode.
- WarningsPanel.GroupBySeverity: the accumulator is modelled as a map without keys. In JavaScript the `{}` accumulator inherits keys such as `constructor`, and a warning with such a severity would make `push` throw.
- The mapping from the validator's HIGH/MEDIUM/LOW to the panel's error/warning/info lives in a service layer that is not part of this model. The two severity vocabularies are kept apart.
- MermaidDiagram: the `all_subnets` dictionary is filled but never read, so it is not modelled.
- MermaidDiagram.DiagramItems, DiagramSubgraphs, DiagramNodes, Ec2DrawnIffPlaced, RdsDrawnIffPlaced: these read the diagram back only for ids that are plain Mermaid ids. A plain id is non-empty, has no whitespace character and no `[`, and is not `subgraph` or `end`. The drawn-iff lemmas also assume the node's id is not shared with another node.
- The reader of diagram lines splits the first word on spaces only, not on every Mermaid separator.
- TerraformCode.RdsSubnetGroupLists, LbSubnetsLists: proved for non-empty lists of ids without commas, the case where splitting the list line on `", "` is unambiguous.
- TerraformCode.ModelIdReadBack: proved for ids without `:` and without surrounding whitespace, which covers every id the model produces.
- The JSX markup, styles, icons, tooltips and animation delays of both panels are not modelled, and neither is the DOM.
- The edit event is passed to a callback; the backend that applies it is not part of this model.
- DiagramControls.Step: `disabled` is taken as fixed during an input sequence; the parent can change it between renders.
- Not modelled because they are context, not core: the Mermaid rendering wrapper, the particle animation, the Terraform editor, the status indicator, the button styles, the Tailwind configuration and the static web client.
