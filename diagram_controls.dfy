/**
 * The diagram controls: a resource-type picker, a resource-id field, a
 * target-subnet picker and three action buttons (add, remove, move).
 * The first press of a button arms its action; a second press of the
 * armed button confirms it, emits one edit event and disarms. Cancel
 * disarms without emitting.
 *
 * `Handle` is the pure meaning of each handler; the `Controls` class is
 * the component's state, whose methods update its fields the way the
 * handlers update the component's state hooks. `Step` adds what the
 * rendered markup decides: which controls exist and whether they are
 * disabled.
 */
module DiagramControls {
  import opened Wrappers
  import Model

  // ---------------------------------------------------------------------
  // Actions, resource types and subnet options
  // ---------------------------------------------------------------------

  datatype Action = Add | Remove | Move

  function ActionName(a: Action): (name: string)
    ensures |name| > 0
  {
    match a
    case Add => "add"
    case Remove => "remove"
    case Move => "move"
  }

  /** Different actions have different names on the wire. */
  lemma ActionNamesDistinct(a: Action, b: Action)
    ensures ActionName(a) == ActionName(b) <==> a == b
  {
  }

  /** The values the resource-type picker offers. */
  const ResourceTypes: seq<string> := ["ec2", "rds", "elb", "s3", "security_group"]

  /** The values the target-subnet picker offers. */
  const SubnetOptions: seq<string> := ["public", "private", "database"]

  // ---------------------------------------------------------------------
  // Default properties of an added resource
  // ---------------------------------------------------------------------

  datatype PropValue = Text(text: string) | List(items: seq<string>)

  type Properties = map<string, PropValue>

  /** The properties an added resource of the given type starts with. */
  function DefaultProperties(resourceType: string): (props: Properties)
    ensures props == map[] <==>
            resourceType != "ec2" && resourceType != "rds" && resourceType != "elb"
            && resourceType != "load_balancer" && resourceType != "security_group"
  {
    if resourceType == "ec2" then
      var props := map["subnet_id" := Text("subnet-public-1"), "instance_type" := Text("t2.micro")];
      assert "subnet_id" in props;
      props
    else if resourceType == "rds" then
      var props := map["subnet_ids" := List(["subnet-private-1", "subnet-private-2"]),
                       "engine" := Text("postgres"),
                       "instance_class" := Text("db.t3.micro")];
      assert "engine" in props;
      props
    else if resourceType == "elb" || resourceType == "load_balancer" then
      var props := map["subnet_ids" := List(["subnet-public-1"]), "target_instance_ids" := List([])];
      assert "subnet_ids" in props;
      props
    else if resourceType == "security_group" then
      var props := map["vpc_id" := Text("vpc-main")];
      assert "vpc_id" in props;
      props
    else
      map[]
  }

  /** Both spellings of the load balancer get the same defaults. */
  lemma LoadBalancerDefaultsAgree()
    ensures DefaultProperties("elb") == DefaultProperties("load_balancer")
    ensures DefaultProperties("elb")["target_instance_ids"] == List([])
  {
  }

  /** The defaults are values the model's enumerations accept. */
  lemma DefaultsAreModelValues()
    ensures "instance_type" in DefaultProperties("ec2")
    ensures Model.ParseInstanceType(DefaultProperties("ec2")["instance_type"].text) == Some(Model.T2Micro)
    ensures "engine" in DefaultProperties("rds")
    ensures Model.ParseDatabaseEngine(DefaultProperties("rds")["engine"].text) == Some(Model.Postgres)
  {
  }

  /** Of the pickable resource types only S3 is added with no properties. */
  lemma PickableDefaults(t: string)
    requires t in ResourceTypes
    ensures DefaultProperties(t) == map[] <==> t == "s3"
  {
  }

  /**
   * The subnet options a move can target: the first two are the model's
   * subnet types, the third is not one.
   */
  lemma SubnetOptionsAndModelTypes()
    ensures Model.ParseSubnetType(SubnetOptions[0]) == Some(Model.Public)
    ensures Model.ParseSubnetType(SubnetOptions[1]) == Some(Model.Private)
    ensures Model.ParseSubnetType(SubnetOptions[2]).None?
  {
  }

  // ---------------------------------------------------------------------
  // Edit events
  // ---------------------------------------------------------------------

  /** A `DiagramEditEvent`; `None` stands for an undefined field. */
  datatype EditEvent = EditEvent(
    action: Action,
    resourceType: string,
    resourceId: Option<string>,
    targetSubnet: Option<string>,
    properties: Option<Properties>)

  /** The event a confirmed action sends. */
  function EventFor(a: Action, resourceType: string, resourceId: string, targetSubnet: string): (e: EditEvent)
    ensures e.action == a && e.resourceType == resourceType
    ensures e.resourceId.None? <==> resourceId == ""
    ensures e.resourceId.Some? ==> e.resourceId.value == resourceId
    ensures e.targetSubnet.Some? <==> a == Move
    ensures e.targetSubnet.Some? ==> e.targetSubnet.value == targetSubnet
    ensures e.properties.Some? <==> a == Add
    ensures e.properties.Some? ==> e.properties.value == DefaultProperties(resourceType)
  {
    EditEvent(
      a,
      resourceType,
      if resourceId == "" then None else Some(resourceId),
      if a == Move then Some(targetSubnet) else None,
      if a == Add then Some(DefaultProperties(resourceType)) else None)
  }

  // ---------------------------------------------------------------------
  // The component's state and its handlers
  // ---------------------------------------------------------------------

  datatype ControlState = ControlState(
    selectedResource: string,
    resourceId: string,
    targetSubnet: string,
    activeAction: Option<Action>)

  const InitialState := ControlState("ec2", "", "public", None)

  /** What the user does: press a button or change a field. */
  datatype Input =
    | Press(action: Action)
    | CancelPress
    | SelectResource(resourceType: string)
    | TypeId(id: string)
    | ChooseSubnet(subnet: string)

  /** The handler of each input: the new state and the event it sends, if any. */
  function Handle(st: ControlState, inp: Input): (r: (ControlState, Option<EditEvent>))
    ensures r.1.Some? <==> inp.Press? && st.activeAction == Some(inp.action)
  {
    match inp
    case Press(a) =>
      if st.activeAction == Some(a) then
        (st.(resourceId := "", activeAction := None),
         Some(EventFor(a, st.selectedResource, st.resourceId, st.targetSubnet)))
      else
        (st.(activeAction := Some(a)), None)
    case CancelPress => (st.(activeAction := None), None)
    case SelectResource(t) => (st.(selectedResource := t), None)
    case TypeId(id) => (st.(resourceId := id), None)
    case ChooseSubnet(s) => (st.(targetSubnet := s), None)
  }

  /**
   * Whether the markup lets the input happen: the id field is shown only
   * while remove or move is armed, the subnet picker only while move is,
   * Cancel only while an action is armed; the pickers offer only their
   * options; every control but Cancel is off while `disabled`.
   */
  predicate Enabled(st: ControlState, inp: Input, disabled: bool) {
    match inp
    case Press(_) => !disabled
    case CancelPress => st.activeAction.Some?
    case SelectResource(t) => !disabled && t in ResourceTypes
    case TypeId(_) => !disabled && (st.activeAction == Some(Remove) || st.activeAction == Some(Move))
    case ChooseSubnet(s) => !disabled && st.activeAction == Some(Move) && s in SubnetOptions
  }

  /**
   * One user input as the rendered component receives it. An event is sent
   * only by a press of the armed action on an enabled panel; on a disabled
   * panel only Cancel does anything, and all it does is disarm.
   */
  function Step(st: ControlState, inp: Input, disabled: bool): (r: (ControlState, Option<EditEvent>))
    ensures r.1.Some? <==> !disabled && inp.Press? && st.activeAction == Some(inp.action)
    ensures disabled ==> r.0.(activeAction := st.activeAction) == st
    ensures disabled ==> r.0.activeAction == st.activeAction || r.0.activeAction.None?
  {
    if Enabled(st, inp, disabled) then Handle(st, inp) else (st, None)
  }

  function Sent(e: Option<EditEvent>): seq<EditEvent> {
    if e.Some? then [e.value] else []
  }

  /**
   * A sequence of inputs: the final state and the events sent, in order.
   * Each input sends at most one event; on a disabled panel the type, id and
   * subnet fields keep their values.
   */
  function Run(st: ControlState, inputs: seq<Input>, disabled: bool): (r: (ControlState, seq<EditEvent>))
    ensures |r.1| <= |inputs|
    ensures disabled ==> r.0.(activeAction := st.activeAction) == st
    decreases |inputs|
  {
    if inputs == [] then (st, [])
    else
      var first := Step(st, inputs[0], disabled);
      var rest := Run(first.0, inputs[1..], disabled);
      (rest.0, Sent(first.1) + rest.1)
  }

  // ---------------------------------------------------------------------
  // The arm-then-confirm protocol
  // ---------------------------------------------------------------------

  /** A press of another action only arms it; nothing is sent. */
  lemma PressArms(st: ControlState, a: Action)
    requires st.activeAction != Some(a)
    ensures Handle(st, Press(a)) == (st.(activeAction := Some(a)), None)
  {
  }

  /**
   * A press of the armed action sends its event, clears the id and
   * disarms; the picked resource type and subnet stay.
   */
  lemma PressConfirms(st: ControlState, a: Action)
    requires st.activeAction == Some(a)
    ensures Handle(st, Press(a)).1 == Some(EventFor(a, st.selectedResource, st.resourceId, st.targetSubnet))
    ensures Handle(st, Press(a)).0
            == ControlState(st.selectedResource, "", st.targetSubnet, None)
  {
  }

  /** Cancel disarms and sends nothing, whatever was armed. */
  lemma CancelDisarms(st: ControlState, disabled: bool)
    ensures Step(st, CancelPress, disabled).1.None?
    ensures Step(st, CancelPress, disabled).0.activeAction.None?
    ensures Step(st, CancelPress, disabled).0.(activeAction := st.activeAction) == st
  {
  }

  /** Two presses of an action that is not armed send its event exactly once. */
  lemma DoublePressSendsOnce(st: ControlState, a: Action)
    requires st.activeAction != Some(a)
    ensures Run(st, [Press(a), Press(a)], false)
            == (st.(resourceId := "", activeAction := None),
                [EventFor(a, st.selectedResource, st.resourceId, st.targetSubnet)])
  {
    var st1 := st.(activeAction := Some(a));
    var st2 := st.(resourceId := "", activeAction := None);
    var e := EventFor(a, st.selectedResource, st.resourceId, st.targetSubnet);
    assert Step(st, Press(a), false) == (st1, None);
    assert Step(st1, Press(a), false) == (st2, Some(e));
    assert [Press(a)][1..] == [];
    assert Run(st2, [], false) == (st2, []);
    assert Sent(Some(e)) == [e] && [e] + [] == [e];
    assert Run(st1, [Press(a)], false) == (st2, [e]);
    assert [Press(a), Press(a)][1..] == [Press(a)];
    assert Sent(None) + [e] == [e];
  }

  /** Right after an event is sent, no input sends another. */
  lemma NoBackToBackEvents(st: ControlState, inp: Input, next: Input, disabled: bool)
    requires Step(st, inp, disabled).1.Some?
    ensures Step(Step(st, inp, disabled).0, next, disabled).1.None?
  {
  }

  /** The number of presses in a sequence of inputs. */
  function Presses(inputs: seq<Input>): nat {
    if inputs == [] then 0
    else (if inputs[0].Press? then 1 else 0) + Presses(inputs[1..])
  }

  /**
   * Every event costs two presses, except that the first one may spend
   * an action armed before the sequence began.
   */
  lemma {:induction false} EventsNeedTwoPresses(st: ControlState, inputs: seq<Input>, disabled: bool)
    ensures 2 * |Run(st, inputs, disabled).1| <= Presses(inputs) + (if st.activeAction.Some? then 1 else 0)
    decreases |inputs|
  {
    if inputs != [] {
      EventsNeedTwoPresses(Step(st, inputs[0], disabled).0, inputs[1..], disabled);
    }
  }

  /** A disabled panel sends nothing: only Cancel still works, and it sends nothing. */
  lemma {:induction false} DisabledSendsNothing(st: ControlState, inputs: seq<Input>)
    ensures Run(st, inputs, true).1 == []
    decreases |inputs|
  {
    if inputs != [] {
      DisabledSendsNothing(Step(st, inputs[0], true).0, inputs[1..]);
    }
  }

  /** The pickers hold one of their options. */
  predicate Picked(st: ControlState) {
    st.selectedResource in ResourceTypes && st.targetSubnet in SubnetOptions
  }

  /**
   * What the component can send from a state whose pickers hold their
   * options (the initial one among them): a pickable resource type, a
   * target subnet among the options, and defaults that are empty only
   * for S3.
   */
  lemma {:induction false} EventsArePickable(st: ControlState, inputs: seq<Input>, disabled: bool)
    requires Picked(st)
    ensures Picked(Run(st, inputs, disabled).0)
    ensures forall e :: e in Run(st, inputs, disabled).1 ==>
              e.resourceType in ResourceTypes
              && (e.targetSubnet.Some? ==> e.targetSubnet.value in SubnetOptions)
              && (e.properties.Some? ==> (e.properties.value == map[] <==> e.resourceType == "s3"))
    decreases |inputs|
  {
    if inputs != [] {
      var st1 := Step(st, inputs[0], disabled).0;
      assert Picked(st1);
      if Step(st, inputs[0], disabled).1.Some? {
        PickableDefaults(st.selectedResource);
      }
      EventsArePickable(st1, inputs[1..], disabled);
    }
  }

  lemma InitialStateIsPicked()
    ensures Picked(InitialState)
    ensures InitialState.activeAction.None? && InitialState.resourceId == ""
  {
  }

  // ---------------------------------------------------------------------
  // The component
  // ---------------------------------------------------------------------

  /** The component's state hooks and its handlers. */
  class Controls {
    var selectedResource: string
    var resourceId: string
    var targetSubnet: string
    var activeAction: Option<Action>

    function State(): ControlState
      reads this
    {
      ControlState(selectedResource, resourceId, targetSubnet, activeAction)
    }

    constructor()
      ensures State() == InitialState
    {
      selectedResource := "ec2";
      resourceId := "";
      targetSubnet := "public";
      activeAction := None;
    }

    /** A press of an action button; returns the event sent, if any. */
    method HandleAction(a: Action) returns (sent: Option<EditEvent>)
      modifies this
      ensures sent.Some? <==> old(activeAction) == Some(a)
      ensures (State(), sent) == Handle(old(State()), Press(a))
    {
      if activeAction == Some(a) {
        var event := EventFor(a, selectedResource, resourceId, targetSubnet);
        sent := Some(event);
        resourceId := "";
        activeAction := None;
      } else {
        activeAction := Some(a);
        sent := None;
      }
    }

    /** The Cancel button. */
    method Cancel()
      modifies this
      ensures activeAction.None?
      ensures State() == Handle(old(State()), CancelPress).0
    {
      activeAction := None;
    }

    method SetSelectedResource(t: string)
      modifies this
      ensures State() == Handle(old(State()), SelectResource(t)).0
    {
      selectedResource := t;
    }

    method SetResourceId(id: string)
      modifies this
      ensures State() == Handle(old(State()), TypeId(id)).0
    {
      resourceId := id;
    }

    method SetTargetSubnet(s: string)
      modifies this
      ensures State() == Handle(old(State()), ChooseSubnet(s)).0
    {
      targetSubnet := s;
    }
  }
}
