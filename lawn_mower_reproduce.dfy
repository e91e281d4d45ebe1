/** Reproducing lawn-mower states: for each requested (entity, state) pair,
    decide from the entity's current state whether to warn and skip, do
    nothing, or issue exactly one blocking `lawn_mower` service call whose
    data is `{entity_id: <entity>}`. */
module LawnMowerReproduce {
  import opened Wrappers
  import LawnMower

  const ATTR_ENTITY_ID: string := "entity_id"

  /** The state value of the DOCKING activity. The activity enumeration the
      reproduction code compares against is not part of this model; it is taken
      to hold the five state names of the lawn_mower component plus this one. */
  const DOCKING: string := "docking"

  /** The string-valued activity enumeration the reproduction code iterates over. */
  datatype LawnMowerActivity =
    | Error | Paused | Mowing | DockedScheduleEnabled | DockedScheduleDisabled | Docking
  {
    function Value(): string {
      match this
      case Error => LawnMower.ERROR
      case Paused => LawnMower.PAUSED
      case Mowing => LawnMower.MOWING
      case DockedScheduleEnabled => LawnMower.DOCKED_SCHEDULE_ENABLED
      case DockedScheduleDisabled => LawnMower.DOCKED_SCHEDULE_DISABLED
      case Docking => DOCKING
    }
  }

  const ALL_ACTIVITIES: seq<LawnMowerActivity> :=
    [Error, Paused, Mowing, DockedScheduleEnabled, DockedScheduleDisabled, Docking]

  /** Every activity is listed once in ALL_ACTIVITIES. */
  lemma AllActivitiesListed()
    ensures forall a: LawnMowerActivity :: a in ALL_ACTIVITIES
  {
    forall a: LawnMowerActivity ensures a in ALL_ACTIVITIES {
      match a
      case Error => assert ALL_ACTIVITIES[0] == a;
      case Paused => assert ALL_ACTIVITIES[1] == a;
      case Mowing => assert ALL_ACTIVITIES[2] == a;
      case DockedScheduleEnabled => assert ALL_ACTIVITIES[3] == a;
      case DockedScheduleDisabled => assert ALL_ACTIVITIES[4] == a;
      case Docking => assert ALL_ACTIVITIES[5] == a;
    }
  }

  /** ACTIVITIES: the set of the enumeration's values. */
  function Activities(): (s: set<string>)
    ensures forall a: LawnMowerActivity :: a.Value() in s
    ensures forall v :: v in s ==> exists a: LawnMowerActivity :: a.Value() == v
  {
    AllActivitiesListed();
    set a | a in ALL_ACTIVITIES :: a.Value()
  }

  /** The reference table: the service that drives a mower into each target
      activity. ERROR has no entry: no service produces it. */
  const SERVICE_TABLE: map<LawnMowerActivity, string> := map[
    DockedScheduleDisabled := LawnMower.SERVICE_DISABLE_SCHEDULE,
    DockedScheduleEnabled := LawnMower.SERVICE_ENABLE_SCHEDULE,
    Docking := LawnMower.SERVICE_DOCK,
    Mowing := LawnMower.SERVICE_START_MOWING,
    Paused := LawnMower.SERVICE_PAUSE
  ]

  /** The execution context a caller may pass along. */
  datatype Context = Context(id: string)

  /** A requested state: the entity id and the state value to reach. */
  datatype State = State(entityId: string, state: string)

  /** An outgoing call on the host's service registry. */
  datatype ServiceCall = ServiceCall(
    domain: string, service: string, data: map<string, string>, context: Option<Context>, blocking: bool)

  /** What reproducing one state does. */
  datatype Outcome =
    | EntityNotFound(entityId: string)                 // warning "Unable to find entity"
    | InvalidState(entityId: string, value: string)    // warning naming entity and value
    | AlreadyInState                                   // early return, nothing called
    | Call(call: ServiceCall)                          // exactly one service call
    | ServiceUnbound(value: string)                    // the elif chain left `service` unbound
    | NoServiceFor(entityId: string, value: string)    // warning: no service reaches this state

  /** The if/elif chain choosing the service for a target state value: it
      chooses one exactly for the values of the activities other than ERROR, and
      what it chooses is a registered lawn_mower service. */
  function ServiceFor(target: string): (r: Option<string>)
    ensures r.Some? <==> exists a: LawnMowerActivity :: a != Error && a.Value() == target
    ensures r.Some? ==> r.value in LawnMower.SERVICE_NAMES
  {
    if target == DockedScheduleDisabled.Value() then Some(LawnMower.SERVICE_DISABLE_SCHEDULE)
    else if target == DockedScheduleEnabled.Value() then Some(LawnMower.SERVICE_ENABLE_SCHEDULE)
    else if target == Docking.Value() then Some(LawnMower.SERVICE_DOCK)
    else if target == Mowing.Value() then Some(LawnMower.SERVICE_START_MOWING)
    else if target == Paused.Value() then Some(LawnMower.SERVICE_PAUSE)
    else None
  }

  /** The elif chain agrees with the reference table on every activity, picks
      nothing for any other value, and ERROR is the one valid activity it misses. */
  lemma ServiceForMatchesTable()
    ensures forall a: LawnMowerActivity ::
              ServiceFor(a.Value()) == (if a in SERVICE_TABLE then Some(SERVICE_TABLE[a]) else None)
    ensures forall v :: ServiceFor(v).Some? ==> v in Activities()
    ensures Error.Value() in Activities() && ServiceFor(Error.Value()) == None
    ensures forall a: LawnMowerActivity :: a !in SERVICE_TABLE <==> a == Error
  {
    forall a: LawnMowerActivity
      ensures ServiceFor(a.Value()) == (if a in SERVICE_TABLE then Some(SERVICE_TABLE[a]) else None)
    {
      match a
      case Error =>
      case Paused =>
      case Mowing =>
      case DockedScheduleEnabled =>
      case DockedScheduleDisabled =>
      case Docking =>
    }
    forall v | ServiceFor(v).Some? ensures v in Activities() {
      if v == DockedScheduleDisabled.Value() {
      } else if v == DockedScheduleEnabled.Value() {
      } else if v == Docking.Value() {
      } else if v == Mowing.Value() {
      } else {
        assert v == Paused.Value();
      }
    }
  }

  /** The call made for entity `entityId` once `service` is chosen: blocking,
      on the lawn_mower domain, with the caller's context and data holding the
      entity id alone. */
  function CallFor(entityId: string, service: string, context: Option<Context>): (c: ServiceCall)
    ensures c.domain == LawnMower.DOMAIN && c.service == service && c.context == context && c.blocking
    ensures c.data.Keys == {ATTR_ENTITY_ID} && c.data[ATTR_ENTITY_ID] == entityId
  {
    ServiceCall(LawnMower.DOMAIN, service, map[ATTR_ENTITY_ID := entityId], context, true)
  }

  /** `_async_reproduce_state` as written: a valid target that the elif chain
      does not cover leaves `service` unbound. `current` is the host's state
      machine, entity id to state value. */
  function ReproduceStateAsWritten(current: map<string, string>, target: State, context: Option<Context>): (o: Outcome)
    ensures o.ServiceUnbound? <==>
              target.entityId in current && current[target.entityId] != target.state && target.state == LawnMower.ERROR
    ensures o.Call? ==> o.call.domain == LawnMower.DOMAIN && o.call.blocking && o.call.context == context
                        && o.call.data == map[ATTR_ENTITY_ID := target.entityId]
  {
    ServiceForMatchesTable();
    if target.entityId !in current then EntityNotFound(target.entityId)
    else if target.state !in Activities() then InvalidState(target.entityId, target.state)
    else if current[target.entityId] == target.state then AlreadyInState
    else match ServiceFor(target.state)
      case Some(service) => Call(CallFor(target.entityId, service, context))
      case None => ServiceUnbound(target.state)
  }

  /** The discrepancy: an existing entity asked to reach ERROR from any other
      state raises instead of calling a service or warning. */
  lemma ErrorTargetLeavesServiceUnbound(current: map<string, string>, entityId: string, context: Option<Context>)
    requires entityId in current && current[entityId] != LawnMower.ERROR
    ensures ReproduceStateAsWritten(current, State(entityId, LawnMower.ERROR), context)
            == ServiceUnbound(LawnMower.ERROR)
  {
    assert Error.Value() in Activities();
  }

  /** `_async_reproduce_state` with the gap closed: a valid target no service
      reaches is reported and skipped. */
  function ReproduceState(current: map<string, string>, target: State, context: Option<Context>): (o: Outcome)
    ensures !o.ServiceUnbound?
    ensures o.Call? ==> o.call.domain == LawnMower.DOMAIN && o.call.blocking && o.call.context == context
                        && o.call.data == map[ATTR_ENTITY_ID := target.entityId]
  {
    if target.entityId !in current then EntityNotFound(target.entityId)
    else if target.state !in Activities() then InvalidState(target.entityId, target.state)
    else if current[target.entityId] == target.state then AlreadyInState
    else match ServiceFor(target.state)
      case Some(service) => Call(CallFor(target.entityId, service, context))
      case None => NoServiceFor(target.entityId, target.state)
  }

  /** The guards in order: a missing entity is reported whatever the target,
      an invalid target on an existing entity is reported with its value, and
      an equal state is a no-op. */
  lemma ReproduceStateGuards(current: map<string, string>, target: State, context: Option<Context>)
    ensures target.entityId !in current ==>
              ReproduceState(current, target, context) == EntityNotFound(target.entityId)
    ensures target.entityId in current && target.state !in Activities() ==>
              ReproduceState(current, target, context) == InvalidState(target.entityId, target.state)
    ensures target.entityId in current && target.state in Activities() && current[target.entityId] == target.state ==>
              ReproduceState(current, target, context) == AlreadyInState
  {
  }

  /** Past the guards, exactly the table's service is called with
      `{entity_id: <entity>}`, or, for ERROR, nothing is called; a call happens
      if and only if the entity exists, is in another state, and the table has
      a service for the target. */
  lemma ReproduceStateDecision(current: map<string, string>, target: State, context: Option<Context>)
    ensures forall a: LawnMowerActivity ::
              target.entityId in current && a.Value() == target.state && current[target.entityId] != target.state ==>
                ReproduceState(current, target, context) ==
                  (if a in SERVICE_TABLE then Call(CallFor(target.entityId, SERVICE_TABLE[a], context))
                   else NoServiceFor(target.entityId, target.state))
    ensures ReproduceState(current, target, context).Call? <==>
              target.entityId in current && current[target.entityId] != target.state &&
              exists a: LawnMowerActivity :: a in SERVICE_TABLE && a.Value() == target.state
  {
    ServiceForMatchesTable();
    var o := ReproduceState(current, target, context);
    if o.Call? {
      var v := target.state;
      var a: LawnMowerActivity :|  a.Value() == v;
      assert a in SERVICE_TABLE;
    }
  }

  /** The corrected function differs from the code as written only where the
      code as written raises. */
  lemma CorrectionOnlyTouchesUnbound(current: map<string, string>, target: State, context: Option<Context>)
    ensures !ReproduceStateAsWritten(current, target, context).ServiceUnbound? ==>
              ReproduceState(current, target, context) == ReproduceStateAsWritten(current, target, context)
    ensures ReproduceStateAsWritten(current, target, context).ServiceUnbound? ==>
              ReproduceState(current, target, context) == NoServiceFor(target.entityId, target.state)
  {
  }

  /** `async_reproduce_states`: one independent reproduction per requested
      state, all against the same state machine and context. */
  function ReproduceStates(current: map<string, string>, targets: seq<State>, context: Option<Context>): (os: seq<Outcome>)
    ensures |os| == |targets|
    ensures forall i :: 0 <= i < |targets| ==> os[i] == ReproduceState(current, targets[i], context)
  {
    if targets == [] then []
    else [ReproduceState(current, targets[0], context)] + ReproduceStates(current, targets[1..], context)
  }

  /** The service calls among some outcomes, in order. */
  function CallsOf(os: seq<Outcome>): seq<ServiceCall> {
    if os == [] then []
    else (if os[0].Call? then [os[0].call] else []) + CallsOf(os[1..])
  }

  /** The number of outcomes that are calls. */
  function CountCalls(os: seq<Outcome>): nat {
    if os == [] then 0 else (if os[0].Call? then 1 else 0) + CountCalls(os[1..])
  }

  lemma {:induction false} CallsOfAppend(a: seq<Outcome>, b: seq<Outcome>)
    ensures CallsOf(a + b) == CallsOf(a) + CallsOf(b)
  {
    if a == [] {
      assert a + b == b;
    } else {
      var head := if a[0].Call? then [a[0].call] else [];
      assert (a + b)[0] == a[0];
      assert (a + b)[1..] == a[1..] + b;
      assert CallsOf(a + b) == head + CallsOf(a[1..] + b);
      CallsOfAppend(a[1..], b);
      assert CallsOf(a) == head + CallsOf(a[1..]);
    }
  }

  /** A batch splits: reproducing `s1 + s2` is reproducing `s1` then `s2`, so no
      state's outcome depends on another's, and the calls are those of the parts. */
  lemma BatchIsIndependent(current: map<string, string>, s1: seq<State>, s2: seq<State>, context: Option<Context>)
    ensures ReproduceStates(current, s1 + s2, context)
            == ReproduceStates(current, s1, context) + ReproduceStates(current, s2, context)
    ensures CallsOf(ReproduceStates(current, s1 + s2, context))
            == CallsOf(ReproduceStates(current, s1, context)) + CallsOf(ReproduceStates(current, s2, context))
  {
    var whole := ReproduceStates(current, s1 + s2, context);
    var parts := ReproduceStates(current, s1, context) + ReproduceStates(current, s2, context);
    assert |whole| == |parts|;
    forall i | 0 <= i < |whole| ensures whole[i] == parts[i] {
      if i < |s1| {
        assert (s1 + s2)[i] == s1[i];
      } else {
        assert (s1 + s2)[i] == s2[i - |s1|];
      }
    }
    assert whole == parts;
    CallsOfAppend(ReproduceStates(current, s1, context), ReproduceStates(current, s2, context));
  }

  /** Every requested state yields at most one call: the batch makes exactly as
      many calls as it has Call outcomes, never more than it has states, and each
      call targets the entity of a requested state. */
  lemma {:induction false} BatchCallsAtMostOnePerState(current: map<string, string>, targets: seq<State>, context: Option<Context>)
    ensures |CallsOf(ReproduceStates(current, targets, context))| == CountCalls(ReproduceStates(current, targets, context))
    ensures CountCalls(ReproduceStates(current, targets, context)) <= |targets|
    ensures forall c :: c in CallsOf(ReproduceStates(current, targets, context)) ==>
              c.domain == LawnMower.DOMAIN &&
              exists i :: 0 <= i < |targets| && c.data == map[ATTR_ENTITY_ID := targets[i].entityId]
  {
    if targets != [] {
      var rest := ReproduceStates(current, targets[1..], context);
      var os := ReproduceStates(current, targets, context);
      assert os == [ReproduceState(current, targets[0], context)] + rest;
      assert os[1..] == rest;
      BatchCallsAtMostOnePerState(current, targets[1..], context);
      forall c | c in CallsOf(os)
        ensures c.domain == LawnMower.DOMAIN &&
                exists i :: 0 <= i < |targets| && c.data == map[ATTR_ENTITY_ID := targets[i].entityId]
      {
        if c in CallsOf(rest) {
          var j :| 0 <= j < |targets[1..]| && c.data == map[ATTR_ENTITY_ID := targets[1..][j].entityId];
          assert targets[1..][j] == targets[j + 1];
        } else {
          assert c == os[0].call;
        }
      }
    }
  }

  /** A call made while reproducing a state reaches, through the service
      registrations, the entity operation of the same name as the service the
      table picks for the target. */
  lemma ReproducedCallIsDispatched(current: map<string, string>, target: State, context: Option<Context>)
    requires ReproduceState(current, target, context).Call?
    ensures LawnMower.RegisteredHandler(ReproduceState(current, target, context).call.service).Some?
    ensures LawnMower.Handle(
              LawnMower.RegisteredHandler(ReproduceState(current, target, context).call.service).value,
              ReproduceState(current, target, context).call.data).op.ServiceName()
            == ReproduceState(current, target, context).call.service
  {
    var s := ReproduceState(current, target, context).call.service;
    assert ServiceFor(target.state) == Some(s);
    assert s in LawnMower.SERVICE_NAMES;
    LawnMower.DispatchReachesNamedOperation(s, ReproduceState(current, target, context).call.data);
  }
}
