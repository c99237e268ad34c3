/** The output controller: it owns the update-cycle and channel tables,
    creates actuators, claims their pins and keeps them by name. */
module Controller {
  import opened Outcomes
  import opened Hardware
  import opened Configuration
  import opened Actuators
  import Utility
  import Channels

  /** An update cycle in microseconds; `None` is the key new_led and a
      cycle-less get_servo_channel bind under. */
  type Cycle = Option<int>

  /** An entry of the servo registry: either kind of servo. */
  datatype ServoEntry = Standard(servo: Servo) | Continuous(continuous: ContinuousServo)

  /** The key order of a Python dict after `d[key] = v`: a new key goes
      last, an existing key keeps its place. */
  function AppendKey(order: seq<Cycle>, keys: set<Cycle>, key: Cycle): seq<Cycle>
  {
    if key in keys then order else order + [key]
  }

  class OutputController {
    const config: Config
    const driver: Driver
    /** Update cycle -> DMA channel id. */
    var updateChannels: map<Cycle, int>
    /** The keys of `updateChannels` in insertion order. */
    var cycleOrder: seq<Cycle>
    /** DMA channel id -> the PWM servo handle created on it. */
    var channelServos: map<int, PwmServo>
    /** Name -> servo of either kind. */
    var servos: map<string, ServoEntry>
    /** Name -> LED. */
    var leds: map<string, Led>

    /** `cycleOrder` lists the keys of `updateChannels` once each, and every
        handle sits under its own channel id. */
    ghost predicate Valid()
      reads this
    {
      && (forall k :: k in updateChannels <==> k in cycleOrder)
      && (forall i, j :: 0 <= i < j < |cycleOrder| ==> cycleOrder[i] != cycleOrder[j])
      && (forall ch :: ch in channelServos ==> channelServos[ch].channel == ch)
    }

    constructor (config: Config, driver: Driver)
      modifies driver
      ensures Valid()
      ensures this.config == config && this.driver == driver
      ensures updateChannels == map[] && cycleOrder == [] && channelServos == map[]
      ensures servos == map[] && leds == map[]
      ensures driver.events == old(driver.events) + [SetModeBoard]
    {
      this.config := config;
      this.driver := driver;
      updateChannels := map[];
      cycleOrder := [];
      channelServos := map[];
      servos := map[];
      leds := map[];
      new;
      driver.Emit(SetModeBoard);
    }

    /** The first key of `updateChannels`, if any. */
    function FirstCycle(): Option<Cycle>
      reads this
    {
      if cycleOrder == [] then None else Some(cycleOrder[0])
    }

    /** get_dma_channel: the least id in [0, 15) that is neither reserved
        nor a key of `channelServos`. */
    function GetDmaChannel(): Option<int>
      reads this
    {
      Channels.FirstAvailable(config.reservedChannels, channelServos.Keys)
    }

    /** The channel new_dma_channel uses: the explicit one, unchecked, or
        else a fresh one. */
    function ChosenChannel(channel: Option<int>): Option<int>
      reads this
    {
      if channel.Some? then channel else GetDmaChannel()
    }

    /** The handle the `try` block of get_servo_channel finds: the one on
        the channel bound to `cycle`, or to the first cycle when `cycle` is
        none. */
    function Existing(cycle: Cycle): Option<PwmServo>
      reads this
    {
      var key := if cycle.None? then FirstCycle() else Some(cycle);
      if key.Some? && key.value in updateChannels && updateChannels[key.value] in channelServos
      then Some(channelServos[updateChannels[key.value]])
      else None
    }

    /** get_servo_channel falls through to allocating a new handle: nothing
        was found and the cycle is not (as a number) a key of
        `channelServos`. */
    predicate Allocates(cycle: Cycle)
      reads this
    {
      Existing(cycle).None? && !(cycle.Some? && cycle.value in channelServos)
    }

    /** What get_servo_channel returns in the current state. */
    function ServoChannelFor(cycle: Cycle): Result<PwmServo>
      reads this
    {
      if Existing(cycle).Some? then Ok(Existing(cycle).value)
      else if !Allocates(cycle) then Err(ChannelInconsistency(cycle.value))
      else match GetDmaChannel()
        case None => Err(NoDmaChannel)
        case Some(id) => Ok(PwmServo(id, cycle))
    }

    /** Whether get_servo_channel warns: it allocates for a cycle that is
        already bound, with `echo` set. */
    predicate WarnsOn(cycle: Cycle)
      reads this
    {
      config.echo && Allocates(cycle) && cycle in updateChannels
    }

    /** The channel tables are as they were. */
    twostate predicate ChannelsUnchanged()
      reads this
    {
      updateChannels == old(updateChannels) && cycleOrder == old(cycleOrder)
      && channelServos == old(channelServos)
    }

    /** `cycle` is now bound to `id`, overwriting any earlier binding, and
        nothing else in `updateChannels` changed. */
    twostate predicate Rebound(cycle: Cycle, id: int)
      reads this
    {
      updateChannels == old(updateChannels)[cycle := id]
      && cycleOrder == AppendKey(old(cycleOrder), old(updateChannels).Keys, cycle)
    }

    /** `cycle` is now bound to `id` and `id` holds a new handle for it. */
    twostate predicate Allocated(cycle: Cycle, id: int)
      reads this
    {
      Rebound(cycle, id) && channelServos == old(channelServos)[id := PwmServo(id, cycle)]
    }

    /** The channel tables after get_servo_channel: one new handle when it
        allocates one, no change otherwise. */
    twostate predicate ServoChannelResolved(cycle: Cycle)
      reads this
    {
      var r := old(ServoChannelFor(cycle));
      if old(Allocates(cycle)) && r.Ok? then Allocated(cycle, r.value.channel) else ChannelsUnchanged()
    }

    method Bind(cycle: Cycle, id: int)
      requires Valid()
      modifies this`updateChannels, this`cycleOrder
      ensures Valid()
      ensures Rebound(cycle, id)
    {
      cycleOrder := AppendKey(cycleOrder, updateChannels.Keys, cycle);
      updateChannels := updateChannels[cycle := id];
    }

    /** new_dma_channel: binds `cycle` to the explicit channel, unchecked,
        or else to the least free id; fails when there is none. Any earlier
        binding of `cycle` is overwritten, with a warning when `echo` is
        set. */
    method NewDmaChannel(cycle: Cycle := None, channel: Option<int> := None) returns (r: Result<int>, warned: bool)
      requires Valid()
      modifies this`updateChannels, this`cycleOrder
      ensures Valid()
      ensures warned <==> config.echo && cycle in old(updateChannels)
      ensures old(ChosenChannel(channel)).None? ==>
        r == Err(NoDmaChannel) && updateChannels == old(updateChannels) && cycleOrder == old(cycleOrder)
      ensures old(ChosenChannel(channel)).Some? ==>
        r == Ok(old(ChosenChannel(channel)).value) && Rebound(cycle, r.value)
    {
      warned := config.echo && cycle in updateChannels;
      var id := channel;
      if id.None? {
        id := GetDmaChannel();
        if id.None? {
          return Err(NoDmaChannel), warned;
        }
      }
      Bind(cycle, id.value);
      r := Ok(id.value);
    }

    /** new_servo_channel: a DMA channel for `cycle` as new_dma_channel
        chooses it, and a new handle recorded under that channel. */
    method NewServoChannel(cycle: Cycle, channel: Option<int> := None) returns (r: Result<PwmServo>, warned: bool)
      requires Valid()
      modifies this`updateChannels, this`cycleOrder, this`channelServos
      ensures Valid()
      ensures warned <==> config.echo && cycle in old(updateChannels)
      ensures old(ChosenChannel(channel)).None? ==> r == Err(NoDmaChannel) && ChannelsUnchanged()
      ensures old(ChosenChannel(channel)).Some? ==>
        var id := old(ChosenChannel(channel)).value;
        r == Ok(PwmServo(id, cycle)) && Allocated(cycle, id)
    {
      var c;
      c, warned := NewDmaChannel(cycle, channel);
      if c.Err? {
        return Err(c.error), warned;
      }
      var handle := PwmServo(c.value, cycle);
      channelServos := channelServos[c.value := handle];
      r := Ok(handle);
    }

    /** get_servo_channel: the existing handle for `cycle` when there is
        one, and nothing changes; a failure when the cycle collides with a
        channel id; otherwise a newly allocated handle. */
    method GetServoChannel(cycle: Cycle := None) returns (r: Result<PwmServo>, warned: bool)
      requires Valid()
      modifies this`updateChannels, this`cycleOrder, this`channelServos
      ensures Valid()
      ensures r == old(ServoChannelFor(cycle))
      ensures ServoChannelResolved(cycle)
      ensures warned == old(WarnsOn(cycle))
    {
      if Existing(cycle).Some? {
        return Ok(Existing(cycle).value), false;
      }
      if !Allocates(cycle) {
        return Err(ChannelInconsistency(cycle.value)), false;
      }
      r, warned := NewServoChannel(cycle);
    }

    /** new_servo: resolves the channel for `update`, then claims `pin`,
        then registers a new servo under `name`. A failed pin claim leaves
        the channel allocation in place. */
    method NewServo(name: string, pin: int, update: Cycle := Some(20000), rangeOfMotion: real := 90.0,
                    bounds: (real, real) := (1.0, 2.0), reverse: bool := false)
      returns (r: Result<Servo>, warned: bool)
      requires Valid()
      modifies this`updateChannels, this`cycleOrder, this`channelServos, this`servos, config`usedPins, driver
      ensures Valid()
      ensures ServoChannelResolved(update) && warned == old(WarnsOn(update))
      ensures leds == old(leds)
      ensures var ch := old(ServoChannelFor(update));
        if ch.Err? || pin in old(config.usedPins) then
          r == (if ch.Err? then Err(ch.error) else Err(PinAlreadyClaimed(pin)))
          && servos == old(servos) && config.usedPins == old(config.usedPins)
          && driver.events == old(driver.events)
        else
          r.Ok? && fresh(r.value)
          && r.value.driver == driver && r.value.name == name && r.value.pin == pin
          && r.value.channel == ch.value && r.value.range == rangeOfMotion && r.value.reverse == reverse
          && r.value.minPulse == Min(bounds.0, bounds.1) && r.value.maxPulse == Max(bounds.0, bounds.1)
          && r.value.angle == 0.0
          && servos == old(servos)[name := Standard(r.value)]
          && config.usedPins == old(config.usedPins)[pin := "servo " + name]
          && driver.events == old(driver.events) + [Setup(pin, Out)]
    {
      ghost var pins0, events0, servos0 := config.usedPins, driver.events, servos;
      var ch;
      ch, warned := GetServoChannel(update);
      assert config.usedPins == pins0 && driver.events == events0 && servos == servos0;
      if ch.Err? {
        return Err(ch.error), warned;
      }
      // io_controller.py:189 passes claim_pin's arguments out of order; this call uses utility.py:8's order.
      var claimed := Utility.ClaimPin(pin, config, Utility.Constant(OutCode), driver, "servo " + name);
      if claimed.Fail? {
        return Err(claimed.error), warned;
      }
      var servo := new Servo(driver, name, pin, ch.value, rangeOfMotion, bounds, reverse);
      // io_controller.py:192 keys the registry by the literal 'name'; this uses the name given.
      servos := servos[name := Standard(servo)];
      r := Ok(servo);
    }

    /** new_continuous_servo: as new_servo, on the channel get_servo_channel
        finds without a cycle. */
    method NewContinuousServo(name: string, pin: int, bounds: (real, real), reverse: bool := false)
      returns (r: Result<ContinuousServo>, warned: bool)
      requires Valid()
      modifies this`updateChannels, this`cycleOrder, this`channelServos, this`servos, config`usedPins, driver
      ensures Valid()
      ensures ServoChannelResolved(None) && warned == old(WarnsOn(None))
      ensures leds == old(leds)
      ensures var ch := old(ServoChannelFor(None));
        if ch.Err? || pin in old(config.usedPins) then
          r == (if ch.Err? then Err(ch.error) else Err(PinAlreadyClaimed(pin)))
          && servos == old(servos) && config.usedPins == old(config.usedPins)
          && driver.events == old(driver.events)
        else
          r.Ok? && fresh(r.value)
          && r.value.driver == driver && r.value.name == name && r.value.pin == pin
          && r.value.channel == ch.value && r.value.reverse == reverse
          && r.value.minPulse == Min(bounds.0, bounds.1) && r.value.maxPulse == Max(bounds.0, bounds.1)
          && r.value.speed == 0.0
          && servos == old(servos)[name := Continuous(r.value)]
          && config.usedPins == old(config.usedPins)[pin := "continuous servo " + name]
          && driver.events == old(driver.events) + [Setup(pin, Out)]
    {
      ghost var pins0, events0, servos0 := config.usedPins, driver.events, servos;
      var ch;
      ch, warned := GetServoChannel();
      assert config.usedPins == pins0 && driver.events == events0 && servos == servos0;
      if ch.Err? {
        return Err(ch.error), warned;
      }
      // io_controller.py:197 passes claim_pin's arguments out of order; this call uses utility.py:8's order.
      var claimed := Utility.ClaimPin(pin, config, Utility.Constant(OutCode), driver, "continuous servo " + name);
      if claimed.Fail? {
        return Err(claimed.error), warned;
      }
      var servo := new ContinuousServo(driver, name, pin, ch.value, bounds, reverse);
      // io_controller.py:200 keys the registry by the literal 'name'; this uses the name given.
      servos := servos[name := Continuous(servo)];
      r := Ok(servo);
    }

    /** The channel new_led uses: the one bound to the first cycle, or else
        a fresh one. */
    function LedChannel(): Option<int>
      reads this
      requires Valid()
    {
      if cycleOrder != [] then Some(updateChannels[cycleOrder[0]]) else GetDmaChannel()
    }

    /** new_led: shares the first cycle's channel, or binds a fresh one
        under the cycle `None`; then claims `pin` and registers the LED.
        The channel is not entered in `channelServos`. */
    method NewLed(name: string, pin: int) returns (r: Result<Led>)
      requires Valid()
      modifies this`updateChannels, this`cycleOrder, this`leds, config`usedPins, driver
      ensures Valid()
      ensures servos == old(servos) && channelServos == old(channelServos)
      ensures var ch := old(LedChannel());
        if ch.None? then
          r == Err(NoDmaChannel) && updateChannels == old(updateChannels) && cycleOrder == old(cycleOrder)
          && leds == old(leds) && config.usedPins == old(config.usedPins) && driver.events == old(driver.events)
        else
          (if old(cycleOrder) == [] then Rebound(None, ch.value)
           else updateChannels == old(updateChannels) && cycleOrder == old(cycleOrder))
          && if pin in old(config.usedPins) then
               r == Err(PinAlreadyClaimed(pin)) && leds == old(leds)
               && config.usedPins == old(config.usedPins) && driver.events == old(driver.events)
             else
               r.Ok? && fresh(r.value)
               && r.value.name == name && r.value.pin == pin && r.value.channel == ch.value
               && r.value.brightness == 0.0
               && leds == old(leds)[name := r.value]
               && config.usedPins == old(config.usedPins)[pin := "led " + name]
               && driver.events == old(driver.events) + [Setup(pin, Out)]
    {
      var channel: int;
      if cycleOrder != [] {
        channel := updateChannels[cycleOrder[0]];
      } else {
        var c, _ := NewDmaChannel();
        if c.Err? {
          return Err(c.error);
        }
        channel := c.value;
      }
      // io_controller.py:208 passes claim_pin's arguments out of order; this call uses utility.py:8's order.
      var claimed := Utility.ClaimPin(pin, config, Utility.Constant(OutCode), driver, "led " + name);
      if claimed.Fail? {
        return Err(claimed.error);
      }
      var led := new Led(name, pin, channel);
      // io_controller.py:210 keys the registry by the literal 'name'; this uses the name given.
      leds := leds[name := led];
      r := Ok(led);
    }
  }

  /** Two requests for the same numbered cycle: once the first one
      succeeds, the second returns the same handle and changes nothing. */
  method SameCycleSharesChannel(c: OutputController, cycle: int)
    returns (r1: Result<PwmServo>, r2: Result<PwmServo>)
    requires c.Valid()
    modifies c`updateChannels, c`cycleOrder, c`channelServos
    ensures c.Valid()
    ensures r2 == r1
    ensures r1.Ok? ==> c.Existing(Some(cycle)) == Some(r1.value)
    ensures r1.Ok? ==> c.channelServos.Keys <= old(c.channelServos.Keys) + {r1.value.channel}
    ensures r1.Err? ==> c.channelServos == old(c.channelServos)
  {
    var w1, w2;
    r1, w1 := c.GetServoChannel(Some(cycle));
    r2, w2 := c.GetServoChannel(Some(cycle));
  }
}
