/** The three actuator kinds of the output controller: their range checks
    and the pulse each one sends to the PWM driver. The driver-reported
    pulse increment and channel subcycle time are parameters. */
module Actuators {
  import opened Outcomes
  import opened Hardware

  function Min(a: real, b: real): real { if a <= b then a else b }
  function Max(a: real, b: real): real { if a <= b then b else a }

  /** Dividing by a positive divisor keeps a strict order. */
  lemma DivMonotonic(a: real, b: real, c: real)
    requires a < b && c > 0.0
    ensures a / c < b / c
  {
  }

  /** Multiplying by a positive factor keeps a strict order. */
  lemma MulMonotonic(a: real, b: real, c: real)
    requires a < b && c > 0.0
    ensures a * c < b * c
  {
  }

  /** `r` times `span`. The pulse formulas multiply through this function
      so that the prover treats each product as a single term. */
  function Scale(r: real, span: real): real
  {
    r * span
  }

  /** A factor in [0, 1] scales a non-negative span into [0, span]. */
  lemma ScaleBetween(r: real, span: real)
    requires 0.0 <= r <= 1.0 && span >= 0.0
    ensures 0.0 <= Scale(r, span) <= span
  {
    if span > 0.0 {
      if 0.0 < r { MulMonotonic(0.0, r, span); }
      if r < 1.0 { MulMonotonic(r, 1.0, span); }
    }
  }

  /** A factor in (-1, 1) scales a positive span into (-span, span). */
  lemma ScaleStrictlyBetween(r: real, span: real)
    requires -1.0 < r < 1.0 && span > 0.0
    ensures -span < Scale(r, span) < span
  {
    MulMonotonic(-1.0, r, span);
    MulMonotonic(r, 1.0, span);
  }

  /** A factor in (0, 1) scales a positive span into (0, span). */
  lemma ScaleStrictlyInside(r: real, span: real)
    requires 0.0 < r < 1.0 && span > 0.0
    ensures 0.0 < Scale(r, span) < span
  {
    ScaleStrictlyBetween(r, span);
    MulMonotonic(0.0, r, span);
  }

  /** A negative factor scales a positive span below 0. */
  lemma ScaleNegative(r: real, span: real)
    requires r < 0.0 && span > 0.0
    ensures Scale(r, span) < 0.0
  {
    MulMonotonic(r, 0.0, span);
  }

  /** A quotient of `0 <= a <= b` lies in [0, 1]. */
  lemma DivBetween(a: real, b: real)
    requires 0.0 <= a <= b && b > 0.0
    ensures 0.0 <= a / b <= 1.0
  {
  }

  /** Facts about `k * incr` for `k` the floor of `x / incr`. */
  lemma FloorScaled(x: real, incr: real)
    requires incr > 0.0
    ensures var k := (x / incr).Floor as real;
      k * incr <= x < k * incr + incr && (k * incr) / incr == k
  {
    var y := x / incr;
    var k := y.Floor as real;
    assert k <= y < k + 1.0;
    assert x == y * incr;
    if k < y {
      MulMonotonic(k, y, incr);
    }
    MulMonotonic(y, k + 1.0, incr);
    assert y * incr < (k + 1.0) * incr;
    assert (k + 1.0) * incr == k * incr + incr;
    assert x < k * incr + incr;
  }

  /** `x // incr * incr`: the multiple of `incr` at most one increment
      below `x`. */
  function Quantize(x: real, incr: real): (q: real)
    requires incr > 0.0
    ensures q <= x < q + incr
    ensures (q / incr).Floor as real == q / incr
  {
    FloorScaled(x, incr);
    (x / incr).Floor as real * incr
  }

  // ----- Servo -----

  /** The servo's pulse before quantization: the position ratio
      `angle / range`, negated when `reverse` is set, scaled onto the
      sorted bounds `lo <= hi`. */
  function RawServoPulse(angle: real, range: real, lo: real, hi: real, reverse: bool): real
    requires range != 0.0
  {
    var ratio := angle / range;
    var ratio := if reverse then -ratio else ratio;
    Scale(ratio, hi - lo) + lo
  }

  /** The pulse a servo reports: the raw pulse quantized to the driver's
      pulse increment. */
  function ServoPulse(angle: real, range: real, lo: real, hi: real, reverse: bool, incr: real): real
    requires range != 0.0 && incr > 0.0
  {
    Quantize(RawServoPulse(angle, range, lo, hi, reverse), incr)
  }

  /** A non-reversed servo anywhere in its range of motion gets a raw
      pulse between its bounds, and the reported pulse is the multiple of
      the increment at most one increment below it. */
  lemma ServoPulseWithinBounds(angle: real, range: real, lo: real, hi: real, incr: real)
    requires range > 0.0 && 0.0 <= angle <= range && lo <= hi && incr > 0.0
    ensures lo <= RawServoPulse(angle, range, lo, hi, false) <= hi
    ensures var q := ServoPulse(angle, range, lo, hi, false, incr);
      RawServoPulse(angle, range, lo, hi, false) - incr < q <= RawServoPulse(angle, range, lo, hi, false)
  {
    DivBetween(angle, range);
    ScaleBetween(angle / range, hi - lo);
  }

  /** The reverse flag negates the ratio: for any position past 0 a
      reversed servo with distinct bounds asks for a raw pulse below its
      minimum, not the mirrored position its documentation describes. */
  lemma ReversedServoPulseBelowMinimum(angle: real, range: real, lo: real, hi: real)
    requires range > 0.0 && 0.0 < angle && lo < hi
    ensures RawServoPulse(angle, range, lo, hi, true) < lo
  {
    assert angle / range > 0.0;
    ScaleNegative(-(angle / range), hi - lo);
  }

  /** A 90-degree servo on bounds (1.0, 2.0) with a 0.1 increment, set to
      45 degrees, reports 1.5. */
  lemma ServoPulseExample()
    ensures RawServoPulse(45.0, 90.0, 1.0, 2.0, false) == 1.5
    ensures ServoPulse(45.0, 90.0, 1.0, 2.0, false, 0.1) == 1.5
  {
    assert 1.5 / 0.1 == 15.0;
  }

  // ----- Continuous servo -----

  /** The pulse of a continuous servo: the midpoint of its bounds moved by
      `speed` half-ranges. */
  function ContinuousPulse(speed: real, lo: real, hi: real): real
  {
    (lo + hi) / 2.0 + Scale(speed, hi - lo) / 2.0
  }

  /** At speed 0 the pulse is the midpoint of the bounds, whatever they
      are. */
  lemma ContinuousPulseAtRest(lo: real, hi: real)
    ensures ContinuousPulse(0.0, lo, hi) == (lo + hi) / 2.0
  {
  }

  /** For every valid speed the pulse lies strictly between distinct
      bounds. */
  lemma ContinuousPulseWithinBounds(speed: real, lo: real, hi: real)
    requires -1.0 < speed < 1.0 && lo < hi
    ensures lo < ContinuousPulse(speed, lo, hi) < hi
  {
    ScaleStrictlyBetween(speed, hi - lo);
  }

  // ----- LED -----

  /** The LED pulse width in driver increments: the brightness percentage
      of the channel's subcycle time. */
  function LedPulseWidth(brightness: real, subcycle: real, incr: real): real
    requires incr != 0.0
  {
    Scale(brightness / 100.0, subcycle) / incr
  }

  /** A valid brightness gives a width strictly between 0 and the whole
      subcycle. */
  lemma LedPulseWidthWithinSubcycle(brightness: real, subcycle: real, incr: real)
    requires 0.0 < brightness < 100.0 && subcycle > 0.0 && incr > 0.0
    ensures 0.0 < LedPulseWidth(brightness, subcycle, incr) < subcycle / incr
  {
    var w := Scale(brightness / 100.0, subcycle);
    ScaleStrictlyInside(brightness / 100.0, subcycle);
    DivMonotonic(0.0, w, incr);
    DivMonotonic(w, subcycle, incr);
  }

  /** A standard servo: a position in degrees within an open range. Its
      pulse bounds are stored sorted in `minPulse`/`maxPulse`. The code at
      io_controller.py:86 assigns them to `self.pulse`, which is the
      read-only pulse property (112-124), so the fields carry the intended
      bounds under other names. */
  class Servo {
    const driver: Driver
    const name: string
    const pin: int
    const channel: PwmServo
    const range: real
    const minPulse: real
    const maxPulse: real
    const reverse: bool
    var angle: real

    constructor (driver: Driver, name: string, pin: int, channel: PwmServo,
                 range: real := 90.0, bounds: (real, real) := (1.0, 2.0), reverse: bool := false)
      ensures this.driver == driver && this.name == name && this.pin == pin
      ensures this.channel == channel && this.range == range && this.reverse == reverse
      ensures minPulse == Min(bounds.0, bounds.1) && maxPulse == Max(bounds.0, bounds.1)
      ensures minPulse <= maxPulse
      ensures angle == 0.0
    {
      this.driver := driver;
      this.name := name;
      this.pin := pin;
      this.channel := channel;
      this.range := range;
      this.minPulse := Min(bounds.0, bounds.1);
      this.maxPulse := Max(bounds.0, bounds.1);
      this.reverse := reverse;
      this.angle := 0.0;
    }

    /** The pulse for the current angle. */
    function Pulse(incr: real): real
      reads this
      requires range != 0.0 && incr > 0.0
    {
      ServoPulse(angle, range, minPulse, maxPulse, reverse, incr)
    }

    /** Sends the current pulse for the pin to the driver, on the servo's
        channel handle. */
    method Update(incr: real)
      requires range != 0.0 && incr > 0.0
      modifies driver
      ensures driver.events == old(driver.events) + [SetServo(channel.channel, pin, Pulse(incr))]
    {
      driver.Emit(SetServo(channel.channel, pin, Pulse(incr)));
    }

    /** Moves to angle `a` when `0 < a < range`, then updates the driver;
        any other angle is refused and nothing changes. */
    method Set(a: real, incr: real) returns (r: Outcome)
      requires incr > 0.0
      modifies this`angle, driver
      ensures r.Pass? <==> 0.0 < a < range
      ensures r.Fail? ==> r.error == InvalidAngle
      ensures angle == if r.Pass? then a else old(angle)
      ensures driver.events == if r.Pass? then old(driver.events) + [SetServo(channel.channel, pin, ServoPulse(a, range, minPulse, maxPulse, reverse, incr))]
                               else old(driver.events)
    {
      if !(0.0 < a < range) {
        return Fail(InvalidAngle);
      }
      angle := a;
      Update(incr);
      r := Pass;
    }

    /** Exactly `Set(angle + change)`. */
    method Increment(change: real, incr: real) returns (r: Outcome)
      requires incr > 0.0
      modifies this`angle, driver
      ensures var a := old(angle) + change;
        (r.Pass? <==> 0.0 < a < range) &&
        (r.Fail? ==> r.error == InvalidAngle) &&
        angle == (if r.Pass? then a else old(angle)) &&
        driver.events == if r.Pass? then old(driver.events) + [SetServo(channel.channel, pin, ServoPulse(a, range, minPulse, maxPulse, reverse, incr))]
                         else old(driver.events)
    {
      r := Set(angle + change, incr);
    }
  }

  /** A continuous-rotation servo: a speed within (-1, 1). The code passes
      an extra `self` to its parent constructor and never stores its bounds
      (io_controller.py:129-132), and new_continuous_servo builds it without
      a controller (199); this class takes the driver and stores the sorted
      bounds as `Servo` does. */
  class ContinuousServo {
    const driver: Driver
    const name: string
    const pin: int
    const channel: PwmServo
    const minPulse: real
    const maxPulse: real
    const reverse: bool
    var speed: real

    constructor (driver: Driver, name: string, pin: int, channel: PwmServo,
                 bounds: (real, real), reverse: bool := false)
      ensures this.driver == driver && this.name == name && this.pin == pin
      ensures this.channel == channel && this.reverse == reverse
      ensures minPulse == Min(bounds.0, bounds.1) && maxPulse == Max(bounds.0, bounds.1)
      ensures minPulse <= maxPulse
      ensures speed == 0.0
    {
      this.driver := driver;
      this.name := name;
      this.pin := pin;
      this.channel := channel;
      this.minPulse := Min(bounds.0, bounds.1);
      this.maxPulse := Max(bounds.0, bounds.1);
      this.reverse := reverse;
      this.speed := 0.0;
    }

    /** The pulse for the current speed (the reverse flag plays no part). */
    function Pulse(): real
      reads this
    {
      ContinuousPulse(speed, minPulse, maxPulse)
    }

    /** Sends the current pulse for the pin to the driver, on the servo's
        channel handle. */
    method Update()
      modifies driver
      ensures driver.events == old(driver.events) + [SetServo(channel.channel, pin, Pulse())]
    {
      driver.Emit(SetServo(channel.channel, pin, Pulse()));
    }

    /** Stores speed `s` when `-1 < s < 1`; any other speed is refused and
        nothing changes. The driver is not updated. */
    method Set(s: real) returns (r: Outcome)
      modifies this`speed
      ensures r.Pass? <==> -1.0 < s < 1.0
      ensures r.Fail? ==> r.error == InvalidSpeed
      ensures speed == if r.Pass? then s else old(speed)
    {
      if !(-1.0 < s < 1.0) {
        return Fail(InvalidSpeed);
      }
      speed := s;
      r := Pass;
    }

    /** Exactly `Set(speed + change)`. */
    method Increment(change: real) returns (r: Outcome)
      modifies this`speed
      ensures r.Pass? <==> -1.0 < old(speed) + change < 1.0
      ensures r.Fail? ==> r.error == InvalidSpeed
      ensures speed == if r.Pass? then old(speed) + change else old(speed)
    {
      r := Set(speed + change);
    }
  }

  /** An LED dimmed by a pulse on a DMA channel: a brightness within
      (0, 100). */
  class Led {
    const name: string
    const pin: int
    const channel: int
    var brightness: real

    constructor (name: string, pin: int, channel: int)
      ensures this.name == name && this.pin == pin && this.channel == channel
      ensures brightness == 0.0
    {
      this.name := name;
      this.pin := pin;
      this.channel := channel;
      this.brightness := 0.0;
    }

    /** Stores brightness `b` when `0 < b < 100`; any other value is
        refused and nothing changes. */
    method Set(b: real) returns (r: Outcome)
      modifies this`brightness
      ensures r.Pass? <==> 0.0 < b < 100.0
      ensures r.Fail? ==> r.error == InvalidBrightness
      ensures brightness == if r.Pass? then b else old(brightness)
    {
      if !(0.0 < b < 100.0) {
        return Fail(InvalidBrightness);
      }
      brightness := b;
      r := Pass;
    }

    /** Clears the pin's pulses on the channel, then adds one pulse at
        offset 0 whose width is the brightness share of the subcycle. */
    method Update(driver: Driver, subcycle: real, incr: real)
      requires incr > 0.0
      modifies driver
      ensures driver.events == old(driver.events) +
        [ClearChannelGpio(channel, pin), AddChannelPulse(channel, pin, 0, LedPulseWidth(brightness, subcycle, incr))]
    {
      var width := LedPulseWidth(brightness, subcycle, incr);
      driver.Emit(ClearChannelGpio(channel, pin));
      driver.Emit(AddChannelPulse(channel, pin, 0, width));
    }
  }
}
