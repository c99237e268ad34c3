/** The pin registry: claiming and releasing GPIO pins in the shared
    `usedPins` map of the configuration. */
module Utility {
  import opened Outcomes
  import opened Hardware
  import opened Configuration

  /** The `io_type` argument of claim_pin: a string or a driver constant. */
  datatype IoType = Label(text: string) | Constant(code: int)

  /** The direction a claim configures: input exactly for "in", "IN" and
      RPIO.IN, output for anything else. */
  function ModeOf(ioType: IoType): (d: Direction)
    ensures d == In <==> ioType == Label("in") || ioType == Label("IN") || ioType == Constant(InCode)
  {
    match ioType
    case Label(t) => if t == "in" || t == "IN" then In else Out
    case Constant(k) => if k == InCode then In else Out
  }

  /** Grants `pin` to one owner. A pin already in the map is refused and
      nothing happens; otherwise the driver sets the pin up and the map
      records `pin -> comment`, every other entry unchanged. */
  method ClaimPin(pin: int, config: Config, ioType: IoType, driver: Driver, comment: string := "")
    returns (r: Outcome)
    modifies config`usedPins, driver
    ensures r == if pin in old(config.usedPins) then Fail(PinAlreadyClaimed(pin)) else Pass
    ensures r.Fail? ==> config.usedPins == old(config.usedPins) && driver.events == old(driver.events)
    ensures r.Pass? ==> config.usedPins == old(config.usedPins)[pin := comment]
    ensures r.Pass? ==> driver.events == old(driver.events) + [Setup(pin, ModeOf(ioType))]
  {
    if pin in config.usedPins {
      return Fail(PinAlreadyClaimed(pin));
    }
    driver.Emit(Setup(pin, ModeOf(ioType)));
    config.usedPins := config.usedPins[pin := comment];
    r := Pass;
  }

  /** Removes `pin` from the map. Releasing a pin nobody holds is never an
      error: the map stays as it is, and a warning is issued only when
      `echo` is set. */
  method ReleasePin(pin: int, config: Config) returns (warned: bool)
    modifies config`usedPins
    ensures config.usedPins == old(config.usedPins) - {pin}
    ensures pin !in old(config.usedPins) ==> config.usedPins == old(config.usedPins)
    ensures warned <==> pin !in old(config.usedPins) && config.echo
  {
    if pin in config.usedPins {
      config.usedPins := config.usedPins - {pin};
      warned := false;
    } else {
      warned := config.echo;
    }
  }

  /** Two claims of one pin without a release in between: the second one
      always fails, whatever the first did. */
  method ClaimTwice(pin: int, config: Config, ioType: IoType, first: string, second: string, driver: Driver)
    returns (r1: Outcome, r2: Outcome)
    modifies config`usedPins, driver
    ensures r2 == Fail(PinAlreadyClaimed(pin))
    ensures r1.Pass? <==> pin !in old(config.usedPins)
    ensures config.usedPins == if r1.Pass? then old(config.usedPins)[pin := first] else old(config.usedPins)
  {
    r1 := ClaimPin(pin, config, ioType, driver, first);
    r2 := ClaimPin(pin, config, ioType, driver, second);
  }

  /** Claiming a free pin and then releasing it gives back the map the
      registry started with, with no warning; the driver saw one setup. */
  method ClaimThenRelease(pin: int, config: Config, ioType: IoType, comment: string, driver: Driver)
    returns (warned: bool)
    requires pin !in config.usedPins
    modifies config`usedPins, driver
    ensures config.usedPins == old(config.usedPins)
    ensures !warned
    ensures driver.events == old(driver.events) + [Setup(pin, ModeOf(ioType))]
  {
    var r := ClaimPin(pin, config, ioType, driver, comment);
    warned := ReleasePin(pin, config);
  }
}
