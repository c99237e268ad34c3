/** The configuration object shared by the pin registry and the output
    controller. Reading it from a file is not modelled: its three values
    are given to the constructor. */
module Configuration {

  class Config {
    /** Claimed pins and the purpose each was claimed for. */
    var usedPins: map<int, string>
    /** Channel ids the allocator must never hand out. */
    const reservedChannels: seq<int>
    /** Whether non-fatal events produce a warning. config.py:25 keeps the
        raw string from the file, which Python tests for truthiness; this
        flag is that truthiness. */
    const echo: bool

    constructor (usedPins: map<int, string>, reservedChannels: seq<int>, echo: bool)
      ensures this.usedPins == usedPins
      ensures this.reservedChannels == reservedChannels && this.echo == echo
    {
      this.usedPins := usedPins;
      this.reservedChannels := reservedChannels;
      this.echo := echo;
    }
  }
}
