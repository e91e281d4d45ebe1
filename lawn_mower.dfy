/** The lawn_mower component: its service and activity-state names, the
    Activity and LawnMowerEntityFeature bit flags, the entity's `state` and
    `supported_features` properties, and the five service handlers that
    forward a service call to the entity's asynchronous operation. */
module LawnMower {
  import opened Wrappers

  const DOMAIN: string := "lawn_mower"

  // Service names.
  const SERVICE_START_MOWING: string := "start_mowing"
  const SERVICE_PAUSE: string := "pause"
  const SERVICE_ENABLE_SCHEDULE: string := "enable_schedule"
  const SERVICE_DISABLE_SCHEDULE: string := "disable_schedule"
  const SERVICE_DOCK: string := "dock"

  // Activity state names.
  const ERROR: string := "error"
  const PAUSED: string := "paused"
  const MOWING: string := "mowing"
  const DOCKED_SCHEDULE_ENABLED: string := "docked_schedule_enabled"
  const DOCKED_SCHEDULE_DISABLED: string := "docked_schedule_disabled"

  const SERVICE_NAMES: seq<string> :=
    [SERVICE_START_MOWING, SERVICE_PAUSE, SERVICE_ENABLE_SCHEDULE, SERVICE_DISABLE_SCHEDULE, SERVICE_DOCK]

  const STATE_NAMES: seq<string> :=
    [ERROR, PAUSED, MOWING, DOCKED_SCHEDULE_ENABLED, DOCKED_SCHEDULE_DISABLED]

  predicate Distinct<T(==)>(s: seq<T>) {
    forall i, j :: 0 <= i < j < |s| ==> s[i] != s[j]
  }

  /** The five service names are pairwise different, and so are the five state names. */
  lemma NamesAreDistinct()
    ensures |SERVICE_NAMES| == 5 && Distinct(SERVICE_NAMES)
    ensures |STATE_NAMES| == 5 && Distinct(STATE_NAMES)
  {
  }

  /** `n` has exactly one bit set. */
  predicate SingleBit(n: nat)
    decreases n
  {
    n == 1 || (n > 1 && n % 2 == 0 && SingleBit(n / 2))
  }

  /** The Activity flag enumeration. */
  datatype Activity = Error | Paused | Mowing | DockedScheduleDisabled | DockedScheduleEnabled {
    function Value(): nat {
      match this
      case Error => 1
      case Paused => 2
      case Mowing => 4
      case DockedScheduleDisabled => 8
      case DockedScheduleEnabled => 16
    }
  }

  /** The LawnMowerEntityFeature flag enumeration. */
  datatype EntityFeature = StartMowing | Pause | Dock | EnableSchedule | DisableSchedule | Battery | Link {
    function Value(): nat {
      match this
      case StartMowing => 1
      case Pause => 2
      case Dock => 4
      case EnableSchedule => 8
      case DisableSchedule => 16
      case Battery => 32
      case Link => 64
    }
  }

  /** Every Activity value is a single bit, no two members share one, and the
      flags are exactly 1, 2, 4, 8 and 16. */
  lemma ActivityFlagsAreDistinctBits()
    ensures forall a: Activity :: SingleBit(a.Value()) && a.Value() <= 16
    ensures forall a: Activity, b: Activity :: a != b ==> a.Value() != b.Value()
  {
    forall a: Activity ensures SingleBit(a.Value()) && a.Value() <= 16 {
      match a
      case Error =>
      case Paused => assert SingleBit(1);
      case Mowing => assert SingleBit(2);
      case DockedScheduleDisabled => assert SingleBit(4);
      case DockedScheduleEnabled => assert SingleBit(8);
    }
  }

  /** Every LawnMowerEntityFeature value is a single bit between 1 and 64 and
      no two members share one. */
  lemma FeatureFlagsAreDistinctBits()
    ensures forall f: EntityFeature :: SingleBit(f.Value()) && 1 <= f.Value() <= 64
    ensures forall f: EntityFeature, g: EntityFeature :: f != g ==> f.Value() != g.Value()
  {
    forall f: EntityFeature ensures SingleBit(f.Value()) {
      match f
      case StartMowing =>
      case Pause => assert SingleBit(1);
      case Dock => assert SingleBit(2);
      case EnableSchedule => assert SingleBit(4);
      case DisableSchedule => assert SingleBit(8);
      case Battery => assert SingleBit(16);
      case Link => assert SingleBit(32);
    }
  }

  /** The attributes a LawnMowerEntity stores: the activity (None until a
      platform sets it) and the supported-features bitmask. */
  datatype LawnMowerEntity = LawnMowerEntity(attrActivity: Option<Activity>, attrSupportedFeatures: int) {
    /** The entity's `state` property. */
    function State(): Option<Activity> {
      attrActivity
    }

    /** The entity's `supported_features` property. */
    function SupportedFeatures(): int {
      attrSupportedFeatures
    }
  }

  /** An entity whose platform has not set an activity: `state` is None and
      `supported_features` is the stored mask; setting an activity later is
      what `state` then reports, unchanged. */
  function NewEntity(features: int): (e: LawnMowerEntity)
    ensures e.State() == None
    ensures e.SupportedFeatures() == features
    ensures forall a: Activity :: e.(attrActivity := Some(a)).State() == Some(a)
  {
    LawnMowerEntity(None, features)
  }

  /** The entity operations a service can reach. */
  datatype Operation = StartMowingOp | DockOp | PauseOp | EnableScheduleOp | DisableScheduleOp {
    /** The service whose name this operation carries. */
    function ServiceName(): string {
      match this
      case StartMowingOp => SERVICE_START_MOWING
      case DockOp => SERVICE_DOCK
      case PauseOp => SERVICE_PAUSE
      case EnableScheduleOp => SERVICE_ENABLE_SCHEDULE
      case DisableScheduleOp => SERVICE_DISABLE_SCHEDULE
    }
  }

  /** The module-level service handlers. */
  datatype Handler =
    | ServiceStartMowing | ServiceDock | ServicePause | ServiceEnableSchedule | ServiceDisableSchedule

  /** The name each handler is registered under. */
  function HandlerName(h: Handler): string {
    match h
    case ServiceStartMowing => "async_service_start_mowing"
    case ServiceDock => "async_service_dock"
    case ServicePause => "async_service_pause"
    case ServiceEnableSchedule => "async_service_enable_schedule"
    case ServiceDisableSchedule => "async_service_disable_schedule"
  }

  /** The service registrations made at setup: service name to the handler
      registered under it. The registration names the handler only by a string;
      this model takes that string to denote the module-level function of that
      name, called with the entity and the service call. */
  function RegisteredHandler(service: string): (h: Option<Handler>)
    ensures h.Some? <==> service in SERVICE_NAMES
    ensures h.Some? ==> HandlerName(h.value) == "async_service_" + service
  {
    if service == SERVICE_START_MOWING then Some(ServiceStartMowing)
    else if service == SERVICE_PAUSE then Some(ServicePause)
    else if service == SERVICE_ENABLE_SCHEDULE then Some(ServiceEnableSchedule)
    else if service == SERVICE_DISABLE_SCHEDULE then Some(ServiceDisableSchedule)
    else if service == SERVICE_DOCK then Some(ServiceDock)
    else None
  }

  /** Exactly the five service names are registered, each to its own handler,
      and no handler serves two services. */
  lemma RegistrationIsOneToOne()
    ensures forall s :: RegisteredHandler(s).Some? <==> s in SERVICE_NAMES
    ensures forall s, t :: RegisteredHandler(s).Some? && RegisteredHandler(s) == RegisteredHandler(t) ==> s == t
    ensures forall h: Handler :: exists s :: RegisteredHandler(s) == Some(h)
    ensures forall h: Handler, k: Handler :: h != k ==> HandlerName(h) != HandlerName(k)
  {
    forall h: Handler ensures exists s :: RegisteredHandler(s) == Some(h) {
      match h
      case ServiceStartMowing => assert RegisteredHandler(SERVICE_START_MOWING) == Some(h);
      case ServiceDock => assert RegisteredHandler(SERVICE_DOCK) == Some(h);
      case ServicePause => assert RegisteredHandler(SERVICE_PAUSE) == Some(h);
      case ServiceEnableSchedule => assert RegisteredHandler(SERVICE_ENABLE_SCHEDULE) == Some(h);
      case ServiceDisableSchedule => assert RegisteredHandler(SERVICE_DISABLE_SCHEDULE) == Some(h);
    }
  }

  /** Service data and keyword arguments: keys to (uninspected) values. */
  type ServiceData = map<string, string>

  /** An awaited call of the entity's asynchronous operation with keyword arguments. */
  datatype EntityCall = EntityCall(op: Operation, kwargs: ServiceData)

  /** What a handler does with the service call it receives: the operation it
      awaits is the one its own name ends with; dock and pause pass no keyword
      arguments, the others pass the whole service data. */
  function Handle(h: Handler, data: ServiceData): (c: EntityCall)
    ensures HandlerName(h) == "async_service_" + c.op.ServiceName()
    ensures c.op == DockOp || c.op == PauseOp ==> c.kwargs == map[]
    ensures c.op != DockOp && c.op != PauseOp ==> c.kwargs == data
  {
    match h
    case ServiceStartMowing =>
      assert HandlerName(h) == "async_service_" + SERVICE_START_MOWING;
      EntityCall(StartMowingOp, data)
    case ServiceDock =>
      assert HandlerName(h) == "async_service_" + SERVICE_DOCK;
      EntityCall(DockOp, map[])
    case ServicePause =>
      assert HandlerName(h) == "async_service_" + SERVICE_PAUSE;
      EntityCall(PauseOp, map[])
    case ServiceEnableSchedule =>
      assert HandlerName(h) == "async_service_" + SERVICE_ENABLE_SCHEDULE;
      EntityCall(EnableScheduleOp, data)
    case ServiceDisableSchedule =>
      assert HandlerName(h) == "async_service_" + SERVICE_DISABLE_SCHEDULE;
      EntityCall(DisableScheduleOp, data)
  }

  /** Dispatching a registered service (with the handler resolution above)
      reaches the entity operation of the same name; start_mowing, enable_schedule and disable_schedule forward all of the
      service data as keyword arguments, dock and pause forward none. */
  lemma DispatchReachesNamedOperation(service: string, data: ServiceData)
    requires RegisteredHandler(service).Some?
    ensures Handle(RegisteredHandler(service).value, data).op.ServiceName() == service
    ensures service in {SERVICE_START_MOWING, SERVICE_ENABLE_SCHEDULE, SERVICE_DISABLE_SCHEDULE} ==>
              Handle(RegisteredHandler(service).value, data).kwargs == data
    ensures service in {SERVICE_DOCK, SERVICE_PAUSE} ==>
              Handle(RegisteredHandler(service).value, data).kwargs == map[]
  {
  }

  /** The job an asynchronous operation hands to the executor: its synchronous
      counterpart bound to the same keyword arguments. */
  datatype ExecutorJob = ExecutorJob(op: Operation, kwargs: ServiceData)

  /** `async_<op>(**kwargs)`: run `partial(<op>, **kwargs)` in the executor. */
  function AsyncOperation(c: EntityCall): (job: ExecutorJob)
    ensures job.op == c.op && job.kwargs == c.kwargs
  {
    ExecutorJob(c.op, c.kwargs)
  }

  datatype PyError = NotImplementedError | TypeError

  /** Running a job against the base class: its synchronous operations take no
      keyword arguments (a non-empty kwargs is a TypeError) and otherwise raise
      NotImplementedError. */
  function RunBaseJob(job: ExecutorJob): (r: Result<(), PyError>)
    ensures r.Failure?
    ensures r.error == NotImplementedError <==> job.kwargs == map[]
  {
    if job.kwargs != map[] then Failure(TypeError) else Failure(NotImplementedError)
  }

  /** On the base entity every registered service fails; dock and pause fail
      with NotImplementedError whatever data the call carries. */
  lemma BaseEntitySupportsNoService(service: string, data: ServiceData)
    requires RegisteredHandler(service).Some?
    ensures RunBaseJob(AsyncOperation(Handle(RegisteredHandler(service).value, data))).Failure?
    ensures service in {SERVICE_DOCK, SERVICE_PAUSE} ==>
              RunBaseJob(AsyncOperation(Handle(RegisteredHandler(service).value, data))) == Failure(NotImplementedError)
  {
    DispatchReachesNamedOperation(service, data);
  }
}
