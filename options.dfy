/** Provisioning options: the builder that fixes a server's name, data
    volume and port, and the options `logs` takes. */
module Options {
  import opened Outcomes

  /** Rust's `u32`. */
  newtype u32 = x: int | 0 <= x < 0x1_0000_0000

  /** `DEFAULT_MC_PORT`: the game server's well-known port. */
  const DEFAULT_MC_PORT: u32 := 25565

  /** `MCServerOptions`, as `build` leaves them. The volume is the host
      path as text. */
  datatype MCServerOptions = MCServerOptions(volume: string, port: u32, name: string)

  /** `MCServerOptionsBuilder`: `port` overwrites its port field in place. */
  class MCServerOptionsBuilder {
    var name: string
    var port: u32
    var volume: string

    /** `new(name, volume)`: seeded with the default port. */
    constructor (name: string, volume: string)
      ensures this.name == name && this.volume == volume
      ensures port == DEFAULT_MC_PORT
    {
      this.name := name;
      this.volume := volume;
      port := DEFAULT_MC_PORT;
    }

    /** `port(p)`: replaces the port, keeps name and volume, and hands the
        same builder back for chaining. */
    method Port(p: u32) returns (b: MCServerOptionsBuilder)
      modifies this
      ensures b == this
      ensures port == p
      ensures name == old(name) && volume == old(volume)
    {
      port := p;
      b := this;
    }

    /** `build()`: the options carry the builder's three fields unchanged. */
    method Build() returns (o: MCServerOptions)
      ensures o.name == name && o.volume == volume && o.port == port
    {
      o := MCServerOptions(volume, port, name);
    }
  }

  /** The builder chain a caller writes: `new(name, volume)`, then
      `port(p)` when a port is given, then `build()`. Without a port the
      options carry `DEFAULT_MC_PORT`. */
  method Provision(name: string, volume: string, port: Option<u32>) returns (o: MCServerOptions)
    ensures o.name == name && o.volume == volume
    ensures o.port == if port.Some? then port.value else DEFAULT_MC_PORT
  {
    var b := new MCServerOptionsBuilder(name, volume);
    if port.Some? {
      b := b.Port(port.value);
    }
    o := b.Build();
  }

  /** `MCServerLogOptions`: how many of the last log lines to fetch, as the
      text the engine's `tail` parameter takes. */
  datatype MCServerLogOptions = MCServerLogOptions(limit: string)

  /** `MCServerLogOptions::default()`: the last twenty lines. */
  function DefaultLogOptions(): (o: MCServerLogOptions)
    ensures o.limit == "20"
  {
    MCServerLogOptions("20")
  }
}
