/** The RPIO driver, seen only through the calls the core makes on it:
    every call that changes driver state is appended to an event trace. */
module Hardware {
  import opened Outcomes

  /** Pin direction given to RPIO.setup. */
  datatype Direction = In | Out

  /** Numeric values of the driver constants RPIO.IN and RPIO.OUT. The
      driver is not part of this model, so 1 and 0 are assumed. */
  const InCode: int := 1
  const OutCode: int := 0

  /** An RPIO.PWM.Servo handle: a DMA channel id and the subcycle
      (update cycle) it was created with. */
  datatype PwmServo = PwmServo(channel: int, subcycle: Option<int>)

  /** The driver calls the core issues. */
  datatype Event =
    | SetModeBoard                                       // RPIO.setmode(RPIO.BOARD)
    | Setup(pin: int, direction: Direction)              // RPIO.setup(pin, mode)
    | SetServo(channel: int, pin: int, pulse: real)      // set_servo(pin, pulse) on the channel's handle
    | ClearChannelGpio(channel: int, pin: int)           // RPIO.PWM.clear_channel_gpio
    | AddChannelPulse(channel: int, pin: int, start: int, width: real) // RPIO.PWM.add_channel_pulse

  /** The driver collaborator: it keeps the trace of calls made on it. */
  class Driver {
    var events: seq<Event>

    constructor ()
      ensures events == []
    {
      events := [];
    }

    method Emit(e: Event)
      modifies this
      ensures events == old(events) + [e]
    {
      events := events + [e];
    }
  }
}
