/** The lifecycle layer: `MCService` (create, get_container) and
    `MCContainerService` (status, start, stop, run_command, logs, rm).
    Each operation sends one or a few requests to the engine, in order,
    and maps the replies onto `MCError`. Every method returns, beside the
    operation's result, the requests it sent. */
module Lifecycle {
  import opened Outcomes
  import opened Options
  import opened Commands
  import opened Errors
  import opened Engine

  /** `MCContainer`: a handle on an engine container, by id. */
  datatype MCContainer = MCContainer(id: string)

  /** The image every server container runs (`MCService::new`). */
  const Image := "itzg/minecraft-server"

  /** The directory inside the container the volume is mounted on. */
  const DataDir := "/data"

  /** The create payload built from provisioning options. */
  function ContainerOptionsFor(options: MCServerOptions): (p: ContainerOptions)
    ensures p.image == Image && p.env == ["EULA=TRUE"] && p.attachStdin
    ensures |p.volumes| == 1 && p.volumes[0] == options.volume + ":" + DataDir
    ensures p.expose == PortExposure(options.port, "tcp", DEFAULT_MC_PORT)
  {
    ContainerOptions(
      Image,
      ["EULA=TRUE"],
      [options.volume + ":" + DataDir],
      true,
      PortExposure(options.port, "tcp", DEFAULT_MC_PORT))
  }

  /** Two option sets give the same create payload exactly when their
      volumes and ports agree: the payload keeps both, and the server's
      name plays no part in it. */
  lemma PayloadDeterminedByVolumeAndPort(a: MCServerOptions, b: MCServerOptions)
    ensures ContainerOptionsFor(a) == ContainerOptionsFor(b) <==> a.volume == b.volume && a.port == b.port
  {
    if ContainerOptionsFor(a) == ContainerOptionsFor(b) {
      var va, vb := a.volume + ":" + DataDir, b.volume + ":" + DataDir;
      assert va == vb;
      assert |a.volume| == |b.volume|;
      assert va[..|a.volume|] == a.volume;
      assert vb[..|b.volume|] == b.volume;
    }
  }

  /** `get_container`: a handle on a known id; no engine call. */
  function GetContainer(id: string): (c: MCContainer)
    ensures c.id == id
  {
    MCContainer(id)
  }

  /** The line logged for one create warning. */
  function WarningLine(id: string, warning: string): string
  {
    "Warning [Container " + id + "]: " + warning
  }

  function WarningsOf(info: ContainerCreateInfo): seq<string>
  {
    if info.warnings.Some? then info.warnings.value else []
  }

  /** `create`: one create request; a failure is `FailedToCreateContainer`,
      a success the handle on the engine-assigned id. Each engine warning
      is logged as one line, in order, and has no effect on the result. */
  method Create(docker: Docker, options: MCServerOptions)
    returns (r: Result<MCContainer, MCError>, requests: seq<Request>, logged: seq<string>)
    ensures requests == [CreateRequest(ContainerOptionsFor(options))]
    ensures docker.create(ContainerOptionsFor(options)).Failed? ==>
      r == Err(FailedToCreateContainer) && logged == []
    ensures docker.create(ContainerOptionsFor(options)).Done? ==>
      var info := docker.create(ContainerOptionsFor(options)).value;
      && r == Ok(GetContainer(info.id))
      && |logged| == |WarningsOf(info)|
      && forall i :: 0 <= i < |logged| ==> logged[i] == WarningLine(info.id, WarningsOf(info)[i])
    ensures r.Ok? ==> GetContainer(r.value.id) == r.value
  {
    var payload := ContainerOptionsFor(options);
    requests := [CreateRequest(payload)];
    logged := [];
    var reply := docker.create(payload);
    if reply.Failed? {
      return Err(FailedToCreateContainer), requests, logged;
    }
    var info := reply.value;
    if info.warnings.Some? {
      var warnings := info.warnings.value;
      for i := 0 to |warnings|
        invariant |logged| == i
        invariant forall j :: 0 <= j < i ==> logged[j] == WarningLine(info.id, warnings[j])
      {
        logged := logged + [WarningLine(info.id, warnings[i])];
      }
    }
    r := Ok(GetContainer(info.id));
  }

  /** `status`: a placeholder that reports success without asking the
      engine, whatever state the container is in. */
  function Status(container: MCContainer): (r: Result<(), ()>)
    ensures r.Ok?
  {
    Ok(())
  }

  /** `start`: a start request, and only if it succeeds an inspect request.
      The container has started only if both succeed and the inspected
      state reports no error; otherwise the failure is named after the
      step that failed and carries the container's id. */
  method Start(docker: Docker, container: MCContainer)
    returns (r: Result<(), MCError>, requests: seq<Request>)
    ensures requests == if docker.start(container.id).Done?
      then [StartRequest(container.id), InspectRequest(container.id)]
      else [StartRequest(container.id)]
    ensures r.Ok? <==>
      && docker.start(container.id).Done?
      && docker.inspect(container.id).Done?
      && docker.inspect(container.id).value.state.error == ""
    ensures docker.start(container.id).Failed? ==>
      r == Err(FailedToStartContainer(container.id))
    ensures docker.start(container.id).Done? && docker.inspect(container.id).Failed? ==>
      r == Err(FailedToInspectContainer(container.id))
    ensures docker.start(container.id).Done? && docker.inspect(container.id).Done? ==>
      var fault := docker.inspect(container.id).value.state.error;
      fault != "" ==> r == Err(ContainerError(container.id, fault))
    ensures r.Err? ==> ErrorId(r.error) == Some(container.id)
  {
    var id := container.id;
    requests := [StartRequest(id)];
    var started := docker.start(id);
    if started.Failed? {
      return Err(FailedToStartContainer(id)), requests;
    }
    requests := requests + [InspectRequest(id)];
    var inspected := docker.inspect(id);
    if inspected.Failed? {
      return Err(FailedToInspectContainer(id)), requests;
    }
    if inspected.value.state.error != "" {
      return Err(ContainerError(id, inspected.value.state.error)), requests;
    }
    r := Ok(());
  }

  /** `stop`: one stop request with no timeout; any failure is
      `FailedToStopContainer` with the container's id. */
  method Stop(docker: Docker, container: MCContainer)
    returns (r: Result<(), MCError>, requests: seq<Request>)
    ensures requests == [StopRequest(container.id, None)]
    ensures r.Ok? <==> docker.stop(container.id, None).Done?
    ensures r.Err? ==> r.error == FailedToStopContainer(container.id)
  {
    requests := [StopRequest(container.id, None)];
    var stopped := docker.stop(container.id, None);
    if stopped.Failed? {
      return Err(FailedToStopContainer(container.id)), requests;
    }
    r := Ok(());
  }

  /** `run_command`: attaches to the container's stdin and, once attached,
      writes the command's text and flushes. Only a failed attach is
      reported, as `FailedToRunCommand` with the id and the command; the
      outcomes of the write and the flush are discarded. */
  method RunCommand(docker: Docker, container: MCContainer, command: MCServerCommands)
    returns (r: Result<(), MCError>, requests: seq<Request>)
    ensures requests == if docker.attach(container.id).Done?
      then [AttachRequest(container.id), WriteRequest(container.id, Text(command)), FlushRequest(container.id)]
      else [AttachRequest(container.id)]
    ensures r.Ok? <==> docker.attach(container.id).Done?
    ensures r.Err? ==> r.error == FailedToRunCommand(container.id, command)
  {
    var id := container.id;
    var commandForError := command;
    requests := [AttachRequest(id)];
    var attached := docker.attach(id);
    if attached.Failed? {
      return Err(FailedToRunCommand(id, commandForError)), requests;
    }
    var line := Text(command);
    requests := requests + [WriteRequest(id, line)];
    var written := docker.write(id, line);
    requests := requests + [FlushRequest(id)];
    var flushed := docker.flush(id);
    r := Ok(());
  }

  /** Decodes each collected log chunk into one line, keeping their number
      and their order. */
  function DecodeAll(chunks: seq<LogChunk>, lossy: LogChunk -> string): (lines: seq<string>)
    ensures |lines| == |chunks|
    ensures forall i :: 0 <= i < |chunks| ==> lines[i] == lossy(chunks[i])
  {
    if chunks == [] then [] else [lossy(chunks[0])] + DecodeAll(chunks[1..], lossy)
  }

  /** `logs`: one request for stdout and stderr, tail-limited by the
      options. Collected chunks come back decoded one to one, in order;
      a failed collection aborts (the source's `expect`), so `logs` never
      returns its error value. */
  method Logs(docker: Docker, container: MCContainer, options: MCServerLogOptions, lossy: LogChunk -> string)
    returns (c: Completion<Result<seq<string>, ()>>, requests: seq<Request>)
    ensures requests == [LogsRequest(container.id, LogsOptions(true, true, options.limit))]
    ensures c.Aborted? <==> docker.logs(container.id, LogsOptions(true, true, options.limit)).Failed?
    ensures c.Returned? ==>
      var chunks := docker.logs(container.id, LogsOptions(true, true, options.limit)).value;
      && c.value.Ok?
      && |c.value.value| == |chunks|
      && forall i :: 0 <= i < |chunks| ==> c.value.value[i] == lossy(chunks[i])
  {
    var query := LogsOptions(true, true, options.limit);
    requests := [LogsRequest(container.id, query)];
    var collected := docker.logs(container.id, query);
    if collected.Failed? {
      return Aborted, requests;
    }
    c := Returned(Ok(DecodeAll(collected.value, lossy)));
  }

  /** `rm`: one forced remove request; its failure is
      `FailedToRMContainer` with the container's id. */
  method Rm(docker: Docker, container: MCContainer)
    returns (r: Result<(), MCError>, requests: seq<Request>)
    ensures requests == [RemoveRequest(container.id, RmContainerOptions(true))]
    ensures r.Ok? <==> docker.remove(container.id, RmContainerOptions(true)).Done?
    ensures r.Err? ==> r.error == FailedToRMContainer(container.id)
  {
    var rmOptions := RmContainerOptions(true);
    requests := [RemoveRequest(container.id, rmOptions)];
    var removed := docker.remove(container.id, rmOptions);
    r := match removed
      case Done(_) => Ok(())
      case Failed(_) => Err(FailedToRMContainer(container.id));
  }
}
