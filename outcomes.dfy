/** Values standing for the exceptions the controller raises, and the
    optional values its Python code expresses with `None`. */
module Outcomes {

  datatype Option<+T> = None | Some(value: T)

  /** One error per exception the core raises. */
  datatype Error =
    | PinAlreadyClaimed(pin: int)     // AttributeError from claim_pin
    | NoDmaChannel                    // RuntimeError from new_dma_channel
    | ChannelInconsistency(cycle: int) // AttributeError from get_servo_channel
    | InvalidAngle                    // ValueError from Servo.set
    | InvalidSpeed                    // ValueError from ContinousServo.set
    | InvalidBrightness               // ValueError from LED.set

  /** The result of an operation that returns a value or raises. */
  datatype Result<+T> = Ok(value: T) | Err(error: Error)

  /** The result of an operation that returns nothing or raises. */
  datatype Outcome = Pass | Fail(error: Error)
}
