# DogBot output bookkeeping in Dafny

This project models the resource bookkeeping and pulse arithmetic of DogBot's
output layer. That layer drives servos and LEDs from a Raspberry Pi through the
RPIO driver. The model covers four parts:

- **Pin registry** (`utility.py`, module `Utility`). `ClaimPin` hands a GPIO pin
  to one owner, records `pin -> comment` in the shared `usedPins` map and sets
  the pin's direction through the driver. `ReleasePin` deletes the entry.
  Releasing a pin that nobody holds is only a warning, and only when `echo` is
  set.
- **DMA channel choice** (`io_controller.py:245-252`, module `Channels`). It
  picks the least id in `[0, 15)` that is neither reserved nor already holding
  a servo handle. Lemmas prove that each allocation uses up exactly the id it
  returns, and that allocation fails exactly when the free ids run out.
- **Actuators** (`io_controller.py:47-167`, module `Actuators`). `Servo`,
  `ContinuousServo` and `Led` are classes. Each checks its value against an open
  interval and computes a pulse. The servo pulse is floor-quantized to the
  driver's pulse increment. The arithmetic uses Dafny's exact `real`.
- **Output controller** (`io_controller.py:170-252`, module `Controller`). A
  class that holds the cycle→channel table, the channel→handle table and the
  name registries. It allocates channels, claims pins and builds actuators in
  the code's order.

The RPIO driver is a `Driver` object that records every state-changing call
in an event trace (module `Hardware`). Driver queries become parameters: the
pulse increment and the channel subcycle time. The configuration object
(`config.py`) is a `Config` class built from the values it would have read:
the used-pin map, the reserved channel list and the echo flag (module
`Configuration`). Python exceptions become `Err`/`Fail` values (module
`Outcomes`).

Python dicts keep insertion order, and `new_led` and `get_servo_channel()` both
read "the first key" of `update_channels`. The controller therefore keeps
`cycleOrder`, the keys in insertion order, next to the map. `Valid()` keeps the
two in step.

## Departures from the code

The code as written cannot run these paths: each raises, or is reached only
after a line that raises. The model follows what the code evidently intends,
and each departure is also noted at its definition.

- `Servo.__init__` assigns the sorted bounds to `self.pulse` (io_controller.py:86).
  That name is a read-only property (112-124). The model stores the sorted bounds
  as `minPulse`/`maxPulse`.
- `ContinousServo.__init__` passes an extra `self` to its parent constructor
  (130). It never stores its bounds, and `new_continuous_servo` builds it
  without a controller (199). The model gives it the same constructor shape as
  `Servo`.
- The registries are keyed by the literal `'name'` (192, 200, 210). The model
  keys them by the supplied name.
- `claim_pin` is called with its arguments in the wrong order (189, 197, 208).
  The model uses the signature of utility.py:8, with direction `RPIO.OUT`.
- `ABCServo.update` calls `self.controller.set_servo`, but `OutputController`
  has no such method (40). The call evidently means the `set_servo` of the
  servo's channel handle. The model records it as a driver event
  `SetServo(channel, pin, pulse)` that names the handle's DMA channel.

These are modelled literally, as the code has them:

- The reverse flag negates the position ratio (118).
  `ReversedServoPulseBelowMinimum` shows that the raw pulse then falls below
  the minimum, which contradicts the docstring at 60-62. Bounds are proved only
  for the non-reversed case.
- The inconsistency branch of `get_servo_channel` compares an update cycle with
  channel-id keys (220). It is a distinct failure, `ChannelInconsistency`.
- `new_led` never enters its channel in `channel_servos` (207). A later
  allocation can hand out the same id again. No exclusivity is claimed.
- Actuators get their channel before their pin is claimed (188-189, 196-197,
  204-208). A failed claim leaves the channel allocation in place. The model
  makes no all-or-nothing claim.
- `ContinousServo` stores `reverse` but its pulse never uses it (144-146).

## Model

| member | source | states |
|---|---|---|
| Utility.ModeOf | utility.py:21 | the direction is IN exactly when `io_type` is `'in'`, `'IN'` or `RPIO.IN`, and OUT otherwise |
| Utility.ClaimPin | utility.py:8-23 | claiming a pin already in the map fails, leaves the map unchanged and issues no driver setup; otherwise the map gains exactly `pin -> comment` and the driver sees one setup with `ModeOf(io_type)` |
| Utility.ReleasePin | utility.py:26-34 | the map afterwards is the old map without `pin`; an unclaimed pin leaves it unchanged and never fails; a warning is issued exactly when the pin was unclaimed and `echo` is set |
| Utility.ClaimTwice | utility.py:18-23 | a second claim of the same pin without a release always fails; the first succeeds exactly when the pin was free |
| Utility.ClaimThenRelease | utility.py:18-31 | claiming a free pin and then releasing it restores the original map, with no warning |
| Channels.AvailableFrom | io_controller.py:246-248 | the list holds exactly the ids from `k` to 14 that are neither reserved nor taken, in strictly increasing order |
| Channels.Available | io_controller.py:246-248 | the comprehension over `range(15)`: `AvailableFrom` from 0; see `AvailableFrom` and `AllocationConsumes` |
| Channels.FirstAvailable | io_controller.py:245-252 | the result is none exactly when no id in `[0,15)` is free; otherwise it is free and no smaller id is free |
| Channels.AllocationConsumes | io_controller.py:230 | marking the returned id as taken removes exactly that id from the free list |
| Channels.DrainConsumes | io_controller.py:245-252 | `n` successive allocations use up exactly the first `n` free ids |
| Channels.Exhaustion | io_controller.py:240-252 | after `n` allocations the next one fails exactly when `n` equals the number of ids free at the start |
| Channels.AllocationExamples | io_controller.py:245-252 | with nothing reserved the first channel is 0; with `{0, 1}` reserved it is 2, 13 allocations succeed and the 14th fails |
| Actuators.Quantize | io_controller.py:122-123 | the floor-quantized pulse is a whole multiple of the increment, at most the raw pulse and less than one increment below it |
| Actuators.RawServoPulse | io_controller.py:117-121 | the unrounded pulse: the angle's share of the range, negated when reversed, scaled onto the bounds from the minimum; its range is stated by `ServoPulseWithinBounds` and `ReversedServoPulseBelowMinimum` |
| Actuators.ServoPulse | io_controller.py:117-124 | the reported servo pulse, `RawServoPulse` rounded down by `Quantize`; see `Quantize`, `ServoPulseWithinBounds` and `ServoPulseExample` |
| Actuators.ServoPulseWithinBounds | io_controller.py:117-123 | for a non-reversed servo with sorted bounds and an angle in `[0, range]`, the raw pulse lies in `[min, max]` and the reported pulse lies in `(raw - incr, raw]` |
| Actuators.ReversedServoPulseBelowMinimum | io_controller.py:118-121 | with `reverse` set and distinct bounds, any positive angle yields a raw pulse below the minimum bound |
| Actuators.ServoPulseExample | io_controller.py:117-123 | a 90-degree servo on bounds (1.0, 2.0) with increment 0.1 reports 1.5 at 45 degrees |
| Actuators.ContinuousPulse | io_controller.py:142-146 | the midpoint of the bounds plus the speed's share of half the span; see `ContinuousPulseAtRest` and `ContinuousPulseWithinBounds` |
| Actuators.ContinuousPulseAtRest | io_controller.py:144-146 | speed 0 gives exactly the midpoint of the bounds, for any bounds |
| Actuators.ContinuousPulseWithinBounds | io_controller.py:142-146 | every speed in `(-1, 1)` gives a pulse strictly between distinct bounds |
| Actuators.LedPulseWidth | io_controller.py:163-165 | the brightness share of the channel subcycle, in pulse increments; see `LedPulseWidthWithinSubcycle` |
| Actuators.LedPulseWidthWithinSubcycle | io_controller.py:165 | a brightness in `(0, 100)` gives a width strictly between 0 and `subcycle / incr` |
| Actuators.Servo.constructor | io_controller.py:82-88 | the bounds are stored sorted (min ≤ max) and the angle starts at 0 |
| Actuators.Servo.Pulse | io_controller.py:112-124 | the `pulse` property: `ServoPulse` of the current angle over the stored sorted bounds; see `ServoPulseWithinBounds` |
| Actuators.Servo.Update | io_controller.py:35-40 | the driver receives one `set_servo` of the pin, on the servo's channel, with the current quantized pulse |
| Actuators.Servo.Set | io_controller.py:90-101 | succeeds exactly when `0 < a < range`; on success the angle becomes `a` and the driver receives the new pulse; on failure nothing changes |
| Actuators.Servo.Increment | io_controller.py:103-110 | behaves exactly like `Set(angle + change)` |
| Actuators.ContinuousServo.constructor | io_controller.py:129-132 | the bounds are stored sorted and the speed starts at 0 |
| Actuators.ContinuousServo.Pulse | io_controller.py:142-146 | the `pulse` property: `ContinuousPulse` of the current speed over the stored sorted bounds; see `ContinuousPulseWithinBounds` |
| Actuators.ContinuousServo.Update | io_controller.py:35-40 | the driver receives one `set_servo` of the pin, on the servo's channel, with the current pulse |
| Actuators.ContinuousServo.Set | io_controller.py:134-137 | succeeds exactly when `-1 < s < 1`; on success the speed becomes `s`, on failure it is unchanged; the driver is not touched |
| Actuators.ContinuousServo.Increment | io_controller.py:139-140 | behaves exactly like `Set(speed + change)` |
| Actuators.Led.constructor | io_controller.py:151-155 | the LED keeps its name, pin and channel, and the brightness starts at 0 |
| Actuators.Led.Set | io_controller.py:157-160 | succeeds exactly when `0 < b < 100`; on success the brightness becomes `b`, on failure it is unchanged |
| Actuators.Led.Update | io_controller.py:162-167 | the driver receives a clear of the pin on the channel and then one pulse at offset 0 of the brightness width |
| Controller.OutputController.constructor | io_controller.py:172-184 | all tables start empty and the driver is put in board numbering mode |
| Controller.OutputController.FirstCycle | io_controller.py:216-217 | `list(update_channels.keys())[0]`: the first key in insertion order, or none (the `IndexError`) when the table is empty; used by `Existing` |
| Controller.OutputController.Allocates | io_controller.py:219-221 | the `except` branch's fall-through: nothing was found and the cycle is not (as a number) a key of the handle table; used by the contract of `GetServoChannel` |
| Controller.OutputController.WarnsOn | io_controller.py:234-237 | get_servo_channel warns exactly when it allocates for a cycle that is already bound and `echo` is set; used by the contracts of `GetServoChannel`, `NewServo` and `NewContinuousServo` |
| Controller.OutputController.Bind | io_controller.py:242 | `update_channels[update_cycle] = channel`: the cycle is bound to the id, any old binding overwritten, a new key goes last in the key order, and `Valid()` is kept |
| Controller.OutputController.GetDmaChannel | io_controller.py:245-252 | get_dma_channel over the controller's reserved list and handle table; see `Channels.FirstAvailable` |
| Controller.OutputController.ChosenChannel | io_controller.py:238-241 | the explicit channel when one is given, otherwise `GetDmaChannel`; used by the contract of `NewDmaChannel` |
| Controller.OutputController.Existing | io_controller.py:215-219 | the handle the `try` block finds for a cycle, or for the first key when the cycle is none; used by the contracts of `GetServoChannel` and `SameCycleSharesChannel` |
| Controller.OutputController.ServoChannelFor | io_controller.py:213-225 | what get_servo_channel returns: the existing handle, an inconsistency, no channel, or a new handle on the least free id; see `GetServoChannel` |
| Controller.OutputController.LedChannel | io_controller.py:204-207 | the first key's channel, otherwise `GetDmaChannel`; see `NewLed` |
| Controller.OutputController.NewDmaChannel | io_controller.py:233-243 | fails when no channel is given and none is free; otherwise it binds the cycle to the explicit channel (unchecked) or the least free id, overwriting any prior binding and changing nothing else; it warns exactly when the cycle was bound and `echo` is set |
| Controller.OutputController.NewServoChannel | io_controller.py:227-231 | after a successful channel choice, exactly one handle `(id, cycle)` is added under the chosen id; on failure nothing changes |
| Controller.OutputController.GetServoChannel | io_controller.py:213-225 | a cycle bound in both tables gets its existing handle and nothing changes; a cycle that collides with a channel-id key fails with an inconsistency; otherwise it fails with no channel and nothing changes when no id is free, and else exactly one new handle is added, on the id now bound to the cycle |
| Controller.OutputController.NewServo | io_controller.py:186-193 | resolves the channel first; a channel or pin failure is returned with the registry, pin map and driver trace unchanged; on success a fresh servo on that channel is registered under its name and its pin is claimed as output |
| Controller.OutputController.NewContinuousServo | io_controller.py:195-201 | as `NewServo`, with the channel found for no cycle, and a continuous servo registered |
| Controller.OutputController.NewLed | io_controller.py:203-211 | reuses the channel of the first bound cycle when there is one; otherwise binds a fresh id under `None` or fails; `channelServos` is never touched; then claims the pin and registers the LED under its name |
| Controller.SameCycleSharesChannel | io_controller.py:213-231 | two requests for one numbered cycle return the same result; after a success the cycle's existing handle is the one returned and at most that one id gained a handle, and after a failure the handle table is unchanged |

## Left out

- RPIO driver calls are recorded as events in a trace. `RPIO.PWM.Servo(channel, cycle)` is a plain record and emits no event. The driver's queries `get_pulse_incr_us` and `get_channel_subcycle_time_us` are parameters.
- `config.py` in full: reading and writing the file and `print`. Its three outputs are constructor arguments of `Config`.
- `warnings.warn` is reduced to a `warned` result flag.
- `config.echo` is the raw string from the configuration file (config.py:25). Python tests its truthiness (utility.py:33, io_controller.py:235), and the model holds that truthiness as a `bool`.
- The driver constants `RPIO.IN` and `RPIO.OUT` are taken to be 1 and 0, since the driver is not part of this model.
- IEEE floating point: pulses are exact reals, so the model says nothing about rounding in `//`. In doubles `1.5 // 0.1` is 14.0, so the code gives about 1.4 on the example that `ServoPulseExample` proves to be 1.5.
- The Python abstract base class (io_controller.py:11, 15-44) is replaced by three classes and the `ServoEntry` datatype for the servo registry.
- The `actuators` dict (io_controller.py:181) is created but never used; it is not modelled.
- The check `if self.pulse is not None` in `ABCServo.update` always holds for these classes and is dropped.
- Actuators.Servo.Pulse: requires a non-zero range. The public `pulse` property divides by `range_of_motion` (io_controller.py:117) and raises `ZeroDivisionError` whenever it is read with a zero range; the model drops that exception instead of returning an error.
- Actuators.ServoPulse: requires a non-zero range, for the same reason; the `ZeroDivisionError` is not modelled.
- Actuators.RawServoPulse: requires a non-zero range, for the same reason; the `ZeroDivisionError` is not modelled.
- Actuators.Servo.Update: requires a non-zero range, since it reads the pulse; a zero range would raise `ZeroDivisionError` there. Through `Set` a zero range never reaches it, because `Set` only updates after `0 < a < range`. A direct call to `update` with a zero range is the dropped exception.
- The `pulse` bounds argument is modelled as a pair. The code accepts any sequence and takes its minimum and maximum.
- Update cycles are `Option<int>` and channel ids are `int`. The code accepts any hashable value.
- `Led.Update` passes the width as a real. The driver expects whole increments.
- Default arguments are kept as Dafny default parameters: `comment` (utility.py:8), the `Servo` and `ContinousServo` constructor defaults (io_controller.py:82-83, 129), the `new_servo` and `new_continuous_servo` defaults (186-187, 195), and `update_cycle`/`channel` (213, 227, 233). In `ClaimPin` the driver parameter sits before `comment`, so that the defaulted parameter comes last.
- Concurrency: the code has none.
