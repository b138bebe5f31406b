/**
 * The power-policy device: one port's identity and the mutable record behind
 * its mutex, with the read accessors, the three privileged setters, the
 * typestate gate and dispatcher for the driver-facing and policy-facing views,
 * and `detach`.
 *
 * Every accessor and setter takes the lock once, so each is modelled as one
 * atomic read or write of the class's fields. `I` stands for DeviceId.
 */
module PolicyDevice {
  import opened Wrappers
  import opened PolicyState

  /** A driver-facing action handle, valid for the state kind it was built for. */
  datatype DeviceAction<I, C, P> = DeviceAction(device: Device<I, C, P>, kind: StateKind)

  /** A policy-facing action handle, valid for the state kind it was built for. */
  datatype PolicyAction<I, C, P> = PolicyAction(device: Device<I, C, P>, kind: StateKind)

  /** A driver-facing handle tagged by the state it is valid for. */
  datatype AnyDeviceAction<I, C, P> =
    | DeviceDetached(detached: DeviceAction<I, C, P>)
    | DeviceIdle(idle: DeviceAction<I, C, P>)
    | DeviceConnectedProvider(provider: DeviceAction<I, C, P>)
    | DeviceConnectedConsumer(consumer: DeviceAction<I, C, P>)

  /** A policy-facing handle tagged by the state it is valid for. */
  datatype AnyPolicyAction<I, C, P> =
    | PolicyDetached(detached: PolicyAction<I, C, P>)
    | PolicyIdle(idle: PolicyAction<I, C, P>)
    | PolicyConnectedProvider(provider: PolicyAction<I, C, P>)
    | PolicyConnectedConsumer(consumer: PolicyAction<I, C, P>)

  /** The tag of a driver-facing dispatch result. */
  function DeviceTag<I, C, P>(a: AnyDeviceAction<I, C, P>): StateKind
  {
    match a
    case DeviceDetached(_) => StateKind.Detached
    case DeviceIdle(_) => StateKind.Idle
    case DeviceConnectedProvider(_) => StateKind.ConnectedProvider
    case DeviceConnectedConsumer(_) => StateKind.ConnectedConsumer
  }

  /** The handle inside a driver-facing dispatch result. */
  function DeviceHandle<I, C, P>(a: AnyDeviceAction<I, C, P>): DeviceAction<I, C, P>
  {
    match a
    case DeviceDetached(h) => h
    case DeviceIdle(h) => h
    case DeviceConnectedProvider(h) => h
    case DeviceConnectedConsumer(h) => h
  }

  /** The tag of a policy-facing dispatch result. */
  function PolicyTag<I, C, P>(a: AnyPolicyAction<I, C, P>): StateKind
  {
    match a
    case PolicyDetached(_) => StateKind.Detached
    case PolicyIdle(_) => StateKind.Idle
    case PolicyConnectedProvider(_) => StateKind.ConnectedProvider
    case PolicyConnectedConsumer(_) => StateKind.ConnectedConsumer
  }

  /** The handle inside a policy-facing dispatch result. */
  function PolicyHandle<I, C, P>(a: AnyPolicyAction<I, C, P>): PolicyAction<I, C, P>
  {
    match a
    case PolicyDetached(h) => h
    case PolicyIdle(h) => h
    case PolicyConnectedProvider(h) => h
    case PolicyConnectedConsumer(h) => h
  }

  /**
   * What the per-state `detach` operation of a non-Detached state did, whose
   * code is not part of this model: the record it left and the result it gave.
   */
  datatype Delegated<I, C, P> = Delegated(after: InternalState<C, P>, outcome: Result<DeviceAction<I, C, P>, Error>)

  class Device<I, C, P> {
    /** The device id, fixed at construction. */
    const id: I
    /** The current state of the device. */
    var state: State<C, P>
    /** The current consumer capability. */
    var consumerCapability: Option<C>
    /** The current requested provider capability. */
    var requestedProviderCapability: Option<P>

    /** The record behind the mutex. */
    function Record(): InternalState<C, P>
      reads this
    {
      InternalState(state, consumerCapability, requestedProviderCapability)
    }

    /** A new device with the given id, Detached and with no capabilities. */
    constructor (id: I)
      ensures this.id == id
      ensures Record() == Initial()
    {
      this.id := id;
      state := State.Detached;
      consumerCapability := None;
      requestedProviderCapability := None;
    }

    /** The device id: always the one given at construction, since `id` is immutable. */
    method Id() returns (r: I)
      ensures r == id
    {
      r := id;
    }

    /** The current state. */
    method CurrentState() returns (r: State<C, P>)
      ensures r == state
    {
      r := state;
    }

    /** The stored consumer capability, whatever the state. */
    method ConsumerCapability() returns (r: Option<C>)
      ensures r == consumerCapability
    {
      r := consumerCapability;
    }

    /** True exactly when the device is consuming power. */
    method IsConsumer() returns (r: bool)
      ensures r <==> state.ConnectedConsumer?
    {
      var s := CurrentState();
      r := Kind(s) == StateKind.ConnectedConsumer;
    }

    /**
     * The capability the device is providing: present exactly in the
     * ConnectedProvider state and then its payload, absent in every other
     * state whatever `requestedProviderCapability` holds.
     */
    method ProviderCapability() returns (r: Option<P>)
      ensures r.Some? <==> Kind(state) == StateKind.ConnectedProvider
      ensures r.Some? ==> state == State.ConnectedProvider(r.value)
    {
      var s := CurrentState();
      match s
      case ConnectedProvider(capability) => r := Some(capability);
      case _ => r := None;
    }

    /** The stored requested provider capability, whatever the state. */
    method RequestedProviderCapability() returns (r: Option<P>)
      ensures r == requestedProviderCapability
    {
      r := requestedProviderCapability;
    }

    /** True exactly when the device is providing power; never together with `IsConsumer`. */
    method IsProvider() returns (r: bool)
      ensures r <==> state.ConnectedProvider?
      ensures r ==> !state.ConnectedConsumer?
    {
      var s := CurrentState();
      r := Kind(s) == StateKind.ConnectedProvider;
    }

    /** Overwrites the state and nothing else. */
    method SetState(newState: State<C, P>)
      modifies this
      ensures state == newState
      ensures consumerCapability == old(consumerCapability)
      ensures requestedProviderCapability == old(requestedProviderCapability)
      ensures Record() == Apply(old(Record()), WriteState(newState))
    {
      state := newState;
    }

    /** Overwrites the consumer capability and nothing else. */
    method UpdateConsumerCapability(capability: Option<C>)
      modifies this
      ensures consumerCapability == capability
      ensures state == old(state)
      ensures requestedProviderCapability == old(requestedProviderCapability)
      ensures Record() == Apply(old(Record()), WriteConsumerCapability(capability))
    {
      consumerCapability := capability;
    }

    /** Overwrites the requested provider capability and nothing else. */
    method UpdateRequestedProviderCapability(capability: Option<P>)
      modifies this
      ensures requestedProviderCapability == capability
      ensures state == old(state)
      ensures consumerCapability == old(consumerCapability)
      ensures Record() == Apply(old(Record()), WriteRequestedProviderCapability(capability))
    {
      requestedProviderCapability := capability;
    }

    /**
     * The driver-facing gate: a handle for `requested` exactly when that is the
     * live state kind, `InvalidState(requested, live)` otherwise. It changes nothing.
     */
    method TryDeviceAction(requested: StateKind) returns (r: Result<DeviceAction<I, C, P>, Error>)
      ensures r.Ok? <==> requested == Kind(state)
      ensures r.Ok? ==> r.value == DeviceAction(this, requested)
      ensures r.Err? ==> r.error == InvalidState(requested, Kind(state))
    {
      var s := CurrentState();
      var live := Kind(s);
      if requested != live {
        return Err(InvalidState(requested, live));
      }
      r := Ok(DeviceAction(this, requested));
    }

    /** The driver-facing dispatcher: always a handle, tagged by the live state kind. */
    method DeviceActionOf() returns (r: AnyDeviceAction<I, C, P>)
      ensures DeviceTag(r) == Kind(state)
      ensures DeviceHandle(r) == DeviceAction(this, Kind(state))
    {
      var s := CurrentState();
      match Kind(s)
      case Detached => r := DeviceDetached(DeviceAction(this, StateKind.Detached));
      case Idle => r := DeviceIdle(DeviceAction(this, StateKind.Idle));
      case ConnectedProvider => r := DeviceConnectedProvider(DeviceAction(this, StateKind.ConnectedProvider));
      case ConnectedConsumer => r := DeviceConnectedConsumer(DeviceAction(this, StateKind.ConnectedConsumer));
    }

    /**
     * The policy-facing gate: a handle for `requested` exactly when that is the
     * live state kind, `InvalidState(requested, live)` otherwise. It changes nothing.
     */
    method TryPolicyAction(requested: StateKind) returns (r: Result<PolicyAction<I, C, P>, Error>)
      ensures r.Ok? <==> requested == Kind(state)
      ensures r.Ok? ==> r.value == PolicyAction(this, requested)
      ensures r.Err? ==> r.error == InvalidState(requested, Kind(state))
    {
      var s := CurrentState();
      var live := Kind(s);
      if requested != live {
        return Err(InvalidState(requested, live));
      }
      r := Ok(PolicyAction(this, requested));
    }

    /** The policy-facing dispatcher: always a handle, tagged by the live state kind. */
    method PolicyActionOf() returns (r: AnyPolicyAction<I, C, P>)
      ensures PolicyTag(r) == Kind(state)
      ensures PolicyHandle(r) == PolicyAction(this, Kind(state))
    {
      var s := CurrentState();
      match Kind(s)
      case Detached => r := PolicyDetached(PolicyAction(this, StateKind.Detached));
      case Idle => r := PolicyIdle(PolicyAction(this, StateKind.Idle));
      case ConnectedProvider => r := PolicyConnectedProvider(PolicyAction(this, StateKind.ConnectedProvider));
      case ConnectedConsumer => r := PolicyConnectedConsumer(PolicyAction(this, StateKind.ConnectedConsumer));
    }

    /**
     * Detaches the device. Already Detached: a Detached handle at once, nothing
     * changed. Otherwise the current state's own `detach` runs; `delegated`
     * stands for what it does, about which nothing more is known here than
     * its result type: a handle it returns is one for the Detached state.
     */
    method Detach(delegated: Delegated<I, C, P>) returns (r: Result<DeviceAction<I, C, P>, Error>)
      requires delegated.outcome.Ok? ==> delegated.outcome.value.kind == StateKind.Detached
      modifies this
      ensures r.Ok? ==> r.value.kind == StateKind.Detached
      ensures old(state).Detached? ==> r == Ok(DeviceAction(this, StateKind.Detached)) && Record() == old(Record())
      ensures !old(state).Detached? ==> r == delegated.outcome && Record() == delegated.after
    {
      var current := DeviceActionOf();
      match current
      case DeviceDetached(h) =>
        r := Ok(h);
      case _ =>
        state := delegated.after.state;
        consumerCapability := delegated.after.consumerCapability;
        requestedProviderCapability := delegated.after.requestedProviderCapability;
        r := delegated.outcome;
    }
  }

  /**
   * On a freshly constructed device, asking for the Idle driver view fails
   * with `InvalidState(Idle, Detached)`, and the dispatcher hands out the
   * Detached view.
   */
  method FreshDeviceIsDetached<I, C, P>(id: I) returns (gated: Result<DeviceAction<I, C, P>, Error>, dispatched: StateKind)
    ensures gated == Err(InvalidState(StateKind.Idle, StateKind.Detached))
    ensures dispatched == StateKind.Detached
  {
    var d := new Device<I, C, P>(id);
    gated := d.TryDeviceAction(StateKind.Idle);
    var any := d.DeviceActionOf();
    dispatched := DeviceTag(any);
  }

  /**
   * On any device, each gate admits a kind exactly when the dispatcher tags
   * its handle with that kind, and the two views agree with each other.
   */
  method GateAgreesWithDispatcher<I, C, P>(d: Device<I, C, P>, requested: StateKind)
    returns (driverGated: bool, policyGated: bool, driverTag: StateKind, policyTag: StateKind)
    ensures driverGated <==> driverTag == requested
    ensures policyGated == driverGated
    ensures driverTag == policyTag
  {
    var t := d.TryDeviceAction(requested);
    var q := d.TryPolicyAction(requested);
    var a := d.DeviceActionOf();
    var p := d.PolicyActionOf();
    driverGated, policyGated, driverTag, policyTag := t.Ok?, q.Ok?, DeviceTag(a), PolicyTag(p);
  }

  /** Detaching an already Detached device twice succeeds both times and changes nothing. */
  method DetachIsIdempotentWhenDetached<I, C, P>(d: Device<I, C, P>, delegated: Delegated<I, C, P>)
    returns (first: Result<DeviceAction<I, C, P>, Error>, second: Result<DeviceAction<I, C, P>, Error>)
    requires d.state.Detached?
    requires delegated.outcome.Ok? ==> delegated.outcome.value.kind == StateKind.Detached
    modifies d
    ensures first == second == Ok(DeviceAction(d, StateKind.Detached))
    ensures d.Record() == old(d.Record())
  {
    first := d.Detach(delegated);
    second := d.Detach(delegated);
  }
}
