/** The container engine as the lifecycle layer sees it: the requests it
    sends and an oracle that fixes the engine's reply to each. The engine
    is remote and its behaviour is not modelled, so every reply, success
    or failure, is possible. */
module Engine {
  import opened Outcomes
  import opened Options

  /** What one engine call resolves to; the failure reason is what the
      service logs before translating it. */
  datatype Reply<+T> = Done(value: T) | Failed(reason: string)

  /** The port-mapping call of the create payload, recorded argument by
      argument as the service makes it: first the options' port, then the
      protocol, then `DEFAULT_MC_PORT`. */
  datatype PortExposure = PortExposure(optionsPort: u32, protocol: string, defaultPort: u32)

  /** The create payload (`ContainerOptions`). */
  datatype ContainerOptions = ContainerOptions(
    image: string,
    env: seq<string>,
    volumes: seq<string>,
    attachStdin: bool,
    expose: PortExposure)

  /** `ContainerCreateInfo`: the engine-assigned id and optional warnings. */
  datatype ContainerCreateInfo = ContainerCreateInfo(id: string, warnings: Option<seq<string>>)

  /** The part of `ContainerDetails` the service reads: `state.error`. */
  datatype ContainerState = ContainerState(error: string)
  datatype ContainerDetails = ContainerDetails(state: ContainerState)

  datatype LogsOptions = LogsOptions(stderr: bool, stdout: bool, tail: string)

  datatype RmContainerOptions = RmContainerOptions(force: bool)

  /** One chunk of a container's log stream, as raw bytes. */
  type LogChunk = seq<bv8>

  /** A request the service sends, in the order it sends them. */
  datatype Request =
    | CreateRequest(options: ContainerOptions)
    | StartRequest(id: string)
    | InspectRequest(id: string)
    | StopRequest(id: string, timeoutSeconds: Option<nat>)
    | AttachRequest(id: string)
    | WriteRequest(id: string, data: string)
    | FlushRequest(id: string)
    | LogsRequest(id: string, logOptions: LogsOptions)
    | RemoveRequest(id: string, rmOptions: RmContainerOptions)

  /** The engine's reply to each request. `write` and `flush` act on the
      stream that a successful `attach` opened. */
  datatype Docker = Docker(
    create: ContainerOptions -> Reply<ContainerCreateInfo>,
    start: string -> Reply<()>,
    inspect: string -> Reply<ContainerDetails>,
    stop: (string, Option<nat>) -> Reply<()>,
    attach: string -> Reply<()>,
    write: (string, string) -> Reply<()>,
    flush: string -> Reply<()>,
    logs: (string, LogsOptions) -> Reply<seq<LogChunk>>,
    remove: (string, RmContainerOptions) -> Reply<()>)
}
