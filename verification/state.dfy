/**
 * The value types of a power-policy device: the state kind, the state itself,
 * the error the typestate gate reports, the response a device gives to a
 * command, and the record the device keeps behind its mutex.
 *
 * The capability types (`C` for ConsumerPowerCapability, `P` for
 * ProviderPowerCapability) are opaque type parameters.
 */
module PolicyState {
  import opened Wrappers

  /** The most basic device states: the tag of `State`. */
  datatype StateKind = Detached | Idle | ConnectedProvider | ConnectedConsumer

  /** Current state of a power device; the connected states carry the negotiated capability. */
  datatype State<C, P> =
    | Idle
    | ConnectedProvider(provider: P)
    | ConnectedConsumer(consumer: C)
    | Detached

  /** The state kind of a state: every variant has its own tag. */
  function Kind<C, P>(s: State<C, P>): (k: StateKind)
    ensures k.Idle? <==> s.Idle?
    ensures k.ConnectedProvider? <==> s.ConnectedProvider?
    ensures k.ConnectedConsumer? <==> s.ConnectedConsumer?
    ensures k.Detached? <==> s.Detached?
  {
    match s
    case Idle => StateKind.Idle
    case ConnectedProvider(_) => StateKind.ConnectedProvider
    case ConnectedConsumer(_) => StateKind.ConnectedConsumer
    case Detached => StateKind.Detached
  }

  /** Two states of different variants never share a kind. */
  lemma KindSeparatesVariants<C, P>(s: State<C, P>, t: State<C, P>)
    requires Kind(s) == Kind(t)
    ensures s.Idle? == t.Idle? && s.ConnectedProvider? == t.ConnectedProvider?
    ensures s.ConnectedConsumer? == t.ConnectedConsumer? && s.Detached? == t.Detached?
  {
  }

  /**
   * Errors of the power policy. The device itself raises only `InvalidState`;
   * `Other` stands for every other policy error, raised by code outside this model.
   */
  datatype Error = InvalidState(expected: StateKind, actual: StateKind) | Other

  /** Data a device answers a command with; the only outcome is success. */
  datatype ResponseData = Complete

  /** Turns a response into `Ok(())`: there is no response shape that fails. */
  function CompleteOrErr(response: ResponseData): (r: Result<(), Error>)
    ensures r == Ok(())
  {
    match response
    case Complete => Ok(())
  }

  /**
   * The record each device keeps behind its mutex. The two capability fields
   * are set independently of `state` and may disagree with it.
   */
  datatype InternalState<C, P> = InternalState(
    state: State<C, P>,
    consumerCapability: Option<C>,
    requestedProviderCapability: Option<P>)

  /** The record of a freshly constructed device. */
  function Initial<C, P>(): (r: InternalState<C, P>)
    ensures r.state.Detached? && r.consumerCapability.None? && r.requestedProviderCapability.None?
  {
    InternalState(State.Detached, None, None)
  }

  /** One call of a privileged setter, as a value: the field it writes and the new value. */
  datatype Write<C, P> =
    | WriteState(newState: State<C, P>)
    | WriteConsumerCapability(consumer: Option<C>)
    | WriteRequestedProviderCapability(provider: Option<P>)

  /** The record after one setter call. */
  function Apply<C, P>(r: InternalState<C, P>, w: Write<C, P>): InternalState<C, P>
  {
    match w
    case WriteState(s) => r.(state := s)
    case WriteConsumerCapability(c) => r.(consumerCapability := c)
    case WriteRequestedProviderCapability(p) => r.(requestedProviderCapability := p)
  }

  /** The record after a sequence of setter calls, each taking the lock on its own. */
  function Run<C, P>(r: InternalState<C, P>, ws: seq<Write<C, P>>): InternalState<C, P>
    decreases |ws|
  {
    if ws == [] then r else Run(Apply(r, ws[0]), ws[1..])
  }

  /** Reference definition: the value of `state` last written in `ws`, or `initial` if none was. */
  function LastState<C, P>(ws: seq<Write<C, P>>, initial: State<C, P>): State<C, P>
    decreases |ws|
  {
    if ws == [] then initial
    else if ws[|ws| - 1].WriteState? then ws[|ws| - 1].newState
    else LastState(ws[..|ws| - 1], initial)
  }

  /** Reference definition: the consumer capability last written in `ws`, or `initial`. */
  function LastConsumerCapability<C, P>(ws: seq<Write<C, P>>, initial: Option<C>): Option<C>
    decreases |ws|
  {
    if ws == [] then initial
    else if ws[|ws| - 1].WriteConsumerCapability? then ws[|ws| - 1].consumer
    else LastConsumerCapability(ws[..|ws| - 1], initial)
  }

  /** Reference definition: the requested provider capability last written in `ws`, or `initial`. */
  function LastRequestedProviderCapability<C, P>(ws: seq<Write<C, P>>, initial: Option<P>): Option<P>
    decreases |ws|
  {
    if ws == [] then initial
    else if ws[|ws| - 1].WriteRequestedProviderCapability? then ws[|ws| - 1].provider
    else LastRequestedProviderCapability(ws[..|ws| - 1], initial)
  }

  /** Running one more setter call is applying it to the record the earlier calls left. */
  lemma {:induction false} RunSnoc<C, P>(r: InternalState<C, P>, ws: seq<Write<C, P>>, w: Write<C, P>)
    ensures Run(r, ws + [w]) == Apply(Run(r, ws), w)
    decreases |ws|
  {
    if ws != [] {
      assert (ws + [w])[0] == ws[0];
      assert (ws + [w])[1..] == ws[1..] + [w];
      RunSnoc(Apply(r, ws[0]), ws[1..], w);
    }
  }

  /**
   * Each setter writes only its own field, so after any sequence of setter
   * calls every field holds the value last written to it, whatever was
   * written to the other two fields in between.
   */
  lemma {:induction false} RunIsLastWritePerField<C, P>(r: InternalState<C, P>, ws: seq<Write<C, P>>)
    ensures Run(r, ws) == InternalState(
      LastState(ws, r.state),
      LastConsumerCapability(ws, r.consumerCapability),
      LastRequestedProviderCapability(ws, r.requestedProviderCapability))
    decreases |ws|
  {
    if ws != [] {
      var n := |ws| - 1;
      assert ws == ws[..n] + [ws[n]];
      RunSnoc(r, ws[..n], ws[n]);
      RunIsLastWritePerField(r, ws[..n]);
    }
  }

  /** Setter calls on different fields commute: their order does not change the record. */
  lemma WritesToDifferentFieldsCommute<C, P>(r: InternalState<C, P>, a: Write<C, P>, b: Write<C, P>)
    requires a.WriteState? != b.WriteState? || a.WriteConsumerCapability? != b.WriteConsumerCapability?
    ensures Apply(Apply(r, a), b) == Apply(Apply(r, b), a)
  {
  }

  /**
   * No setter keeps the capabilities in step with the state: moving a consumer
   * to any other state leaves its consumer capability in place.
   */
  lemma ConsumerCapabilityOutlivesConnection<C, P>(r: InternalState<C, P>, s: State<C, P>)
    requires r.state.ConnectedConsumer? && r.consumerCapability.Some?
    requires !s.ConnectedConsumer?
    ensures !Apply(r, WriteState(s)).state.ConnectedConsumer?
    ensures Apply(r, WriteState(s)).consumerCapability == r.consumerCapability
  {
  }
}
