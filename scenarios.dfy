/** How callers combine the lifecycle operations: the handle a caller
    rebuilds from an id, a container the engine no longer knows, and a
    whole lifecycle against an engine that accepts everything. */
module Scenarios {
  import opened Outcomes
  import opened Options
  import opened Commands
  import opened Errors
  import opened Engine
  import opened Lifecycle

  /** The engine refuses every request about container `id` that the
      lifecycle operations send, as it does once the container is removed. */
  predicate Forgotten(docker: Docker, id: string, logOptions: MCServerLogOptions)
  {
    && docker.start(id).Failed?
    && docker.stop(id, None).Failed?
    && docker.attach(id).Failed?
    && docker.remove(id, RmContainerOptions(true)).Failed?
    && docker.logs(id, LogsOptions(true, true, logOptions.limit)).Failed?
  }

  /** On a container the engine no longer knows, start, stop, run_command
      and rm each fail with an error that names the container, `logs`
      aborts, and the `status` stub still reports success. */
  method OperationsOnForgottenContainer(
    docker: Docker, id: string, command: MCServerCommands,
    logOptions: MCServerLogOptions, lossy: LogChunk -> string)
    returns (started: Result<(), MCError>, stopped: Result<(), MCError>,
             ran: Result<(), MCError>, removed: Result<(), MCError>,
             logs: Completion<Result<seq<string>, ()>>, status: Result<(), ()>)
    requires Forgotten(docker, id, logOptions)
    ensures started.Err? && ErrorId(started.error) == Some(id)
    ensures stopped.Err? && ErrorId(stopped.error) == Some(id)
    ensures ran.Err? && ErrorId(ran.error) == Some(id)
    ensures removed.Err? && ErrorId(removed.error) == Some(id)
    ensures logs.Aborted?
    ensures status.Ok?
  {
    var container := GetContainer(id);
    var requests;
    started, requests := Start(docker, container);
    stopped, requests := Stop(docker, container);
    ran, requests := RunCommand(docker, container, command);
    removed, requests := Rm(docker, container);
    logs, requests := Logs(docker, container, logOptions, lossy);
    status := Status(container);
  }

  /** A full lifecycle against an engine that accepts every request and
      reports no fault: each step succeeds, the command written is
      `/op Alice` and a newline, and the logs are the engine's chunks. */
  method WholeLifecycle(canned: seq<LogChunk>, lossy: LogChunk -> string)
  {
    var options := Provision("test", "/data/world", Some(25566));
    assert options.port == 25566;
    var docker := Docker(
      _ => Done(ContainerCreateInfo("c1", None)),
      _ => Done(()),
      _ => Done(ContainerDetails(ContainerState(""))),
      (_, _) => Done(()),
      _ => Done(()),
      (_, _) => Done(()),
      _ => Done(()),
      (_, _) => Done(canned),
      (_, _) => Done(()));
    var created, sent, logged := Create(docker, options);
    assert created == Ok(MCContainer("c1")) && logged == [];
    var container := created.value;
    var started, _ := Start(docker, container);
    assert started.Ok?;
    var ran, written := RunCommand(docker, container, OP("Alice"));
    assert ran.Ok? && written[1] == WriteRequest("c1", "/op Alice\n");
    var logs, _ := Logs(docker, container, DefaultLogOptions(), lossy);
    assert logs.Returned? && logs.value.Ok? && |logs.value.value| == |canned|;
    assert forall i :: 0 <= i < |canned| ==> logs.value.value[i] == lossy(canned[i]);
    var stopped, _ := Stop(docker, container);
    var removed, _ := Rm(docker, container);
    assert stopped.Ok? && removed.Ok?;
  }
}
