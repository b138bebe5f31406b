# Power-policy device model

A Dafny model of the power-policy `Device` of the embedded-services firmware
framework: the per-port entity that keeps one power port's state
(Detached, Idle, ConnectedProvider with the capability it offers,
ConnectedConsumer with the capability it draws), the consumer capability and
the requested provider capability behind one mutex, and that hands out
typestate action handles (driver-facing and policy-facing) only for the
state the device is really in.

- `wrappers.dfy` — module `Wrappers`: Rust's `Option` and `Result`.
- `state.dfy` — module `PolicyState`: `StateKind`, `State` and `State::kind`
  (`Kind`), the `InvalidState` error, `ResponseData::complete_or_err`, the
  `InternalState` record, and the privileged setter calls as values
  (`Write`, `Apply`, `Run`) with lemmas on what sequences of them do.
- `device.dfy` — module `PolicyDevice`: the `Device` class (immutable `id`,
  three mutable fields for the record behind the mutex), its accessors,
  setters, the typestate gate (`TryDeviceAction`, `TryPolicyAction`), the
  dispatchers (`DeviceActionOf`, `PolicyActionOf`) and `Detach`; action
  handles are datatypes carrying the device and the state kind they were
  built for.

`DeviceId`, `ConsumerPowerCapability` and `ProviderPowerCapability` are the
opaque type parameters `I`, `C` and `P`. Each lock-held read or write is one
atomic step on the class's fields. The compile-time state parameter
`S: action::Kind` of `try_device_action` and `try_policy_action` becomes the
run-time argument `requested: StateKind`, which may be any of the four kinds,
as `S::kind()` may.

## Model

| member | source | states |
|---|---|---|
| `PolicyState.Kind` | embedded-service/src/power/policy/device.rs:41-48 | each variant maps to its own tag, in both directions, so the kind always agrees with the variant |
| `PolicyState.KindSeparatesVariants` | embedded-service/src/power/policy/device.rs:41-48 | two states with the same kind are of the same variant |
| `PolicyState.CompleteOrErr` | embedded-service/src/power/policy/device.rs:95-99 | every response yields `Ok(())` |
| `PolicyState.Initial` | embedded-service/src/power/policy/device.rs:131-135 | the initial record is Detached with no consumer and no requested provider capability |
| `PolicyState.RunSnoc` | embedded-service/src/power/policy/device.rs:189-207 | one more setter call acts on the record the earlier calls left |
| `PolicyState.RunIsLastWritePerField` | embedded-service/src/power/policy/device.rs:189-207 | after any sequence of setter calls each field holds the value last written to it (or its old value), independent of writes to the other fields |
| `PolicyState.WritesToDifferentFieldsCommute` | embedded-service/src/power/policy/device.rs:189-207 | setter calls on different fields commute |
| `PolicyState.ConsumerCapabilityOutlivesConnection` | embedded-service/src/power/policy/device.rs:189-193 | for every record of a connected consumer and every non-consumer state, setting that state leaves the consumer capability in place: `set_state` does not keep the fields consistent |
| `PolicyDevice.Device.constructor` | embedded-service/src/power/policy/device.rs:127-138 | a new device has the given id, state Detached and both capabilities `None` |
| `PolicyDevice.Device.Id` | embedded-service/src/power/policy/device.rs:141-143 | returns the construction id, which no method can change |
| `PolicyDevice.Device.CurrentState` | embedded-service/src/power/policy/device.rs:146-148 | returns the live state |
| `PolicyDevice.Device.ConsumerCapability` | embedded-service/src/power/policy/device.rs:151-153 | returns the stored consumer capability whatever the state |
| `PolicyDevice.Device.IsConsumer` | embedded-service/src/power/policy/device.rs:156-158 | true exactly when the state is ConnectedConsumer |
| `PolicyDevice.Device.ProviderCapability` | embedded-service/src/power/policy/device.rs:161-166 | `Some(c)` exactly when the state is `ConnectedProvider(c)`, `None` in every other state |
| `PolicyDevice.Device.RequestedProviderCapability` | embedded-service/src/power/policy/device.rs:169-171 | returns the stored requested provider capability whatever the state |
| `PolicyDevice.Device.IsProvider` | embedded-service/src/power/policy/device.rs:174-176 | true exactly when the state is ConnectedProvider, hence never together with `IsConsumer` |
| `PolicyDevice.Device.SetState` | embedded-service/src/power/policy/device.rs:189-193 | writes the state and leaves both capabilities unchanged |
| `PolicyDevice.Device.UpdateConsumerCapability` | embedded-service/src/power/policy/device.rs:196-200 | writes the consumer capability and leaves the other two fields unchanged |
| `PolicyDevice.Device.UpdateRequestedProviderCapability` | embedded-service/src/power/policy/device.rs:203-207 | writes the requested provider capability and leaves the other two fields unchanged |
| `PolicyDevice.Device.TryDeviceAction` | embedded-service/src/power/policy/device.rs:210-216 | a handle for the requested kind exactly when it is the live kind, else `InvalidState(requested, live)`; changes nothing |
| `PolicyDevice.Device.DeviceActionOf` | embedded-service/src/power/policy/device.rs:219-230 | always a handle on this device, tagged with and built for the live kind |
| `PolicyDevice.Device.TryPolicyAction` | embedded-service/src/power/policy/device.rs:234-240 | a policy handle for the requested kind exactly when it is the live kind, else `InvalidState(requested, live)`; changes nothing |
| `PolicyDevice.Device.PolicyActionOf` | embedded-service/src/power/policy/device.rs:244-255 | always a policy handle on this device, tagged with and built for the live kind |
| `PolicyDevice.Device.Detach` | embedded-service/src/power/policy/device.rs:258-265 | on a Detached device returns a Detached handle and changes nothing; otherwise returns what the state's own detach produced; a successful result is always a Detached handle |
| `PolicyDevice.FreshDeviceIsDetached` | embedded-service/src/power/policy/device.rs:127-138 | a fresh device refuses the Idle view with `InvalidState(Idle, Detached)` and dispatches to the Detached view |
| `PolicyDevice.GateAgreesWithDispatcher` | embedded-service/src/power/policy/device.rs:210-230 | the driver gate admits a kind exactly when the dispatcher tags with it, the policy gate admits exactly the same kinds, and both views dispatch alike |
| `PolicyDevice.DetachIsIdempotentWhenDetached` | embedded-service/src/power/policy/device.rs:258-260 | detaching a Detached device twice succeeds both times and changes nothing |

## Left out

- The command channel: `execute_device_command` and `receive` only forward to the rendezvous channel, whose code is not part of this model, and whose point is cross-task hand-off.
- The intrusive list node and the `NodeContainer` / `DeviceContainer` implementations: pointer linking whose code is not part of this model.
- The per-state operations of the action module, including the `detach` of the Idle and connected states: their code is not part of this model. `Device.Detach` takes their effect as the parameter `Delegated` and asserts nothing about it.
- PolicyDevice.Device.Detach: does not promise that a non-Detached device ends Detached or that detaching is idempotent from every state, because that rests on the action module's `detach`, which is not part of this model.
- Async/await and the mutex: each lock-held read or write is one atomic step; interleavings between tasks are not modelled, and neither is any atomicity across two setter calls, which the code does not provide (each setter locks separately).
- The contents of `DeviceId` and of the capability types: opaque type parameters.
- `Command`, `CommandData` and `Response`: plain records used only by the command channel.
- The policy `Error` type: the device code itself constructs only `InvalidState`; every other variant (raised by the action module's operations that `detach` delegates to) is folded into the single variant `Other`.
