# Minecraft server container lifecycle — a Dafny model

This project models the container lifecycle layer of a small service that
provisions, starts, stops, commands and removes Minecraft server containers
through a Docker engine. The layer lives in `src/service.rs`; `src/main.rs`
declares the same code inline as `mod service` (src/main.rs:45-315), and that
inline copy is the one the binary compiles. Both copies are identical, so the
logic is modelled once and the table below cites whichever copy is clearer.

The model has seven modules:

- `Outcomes`: the `Option` and `Result` shapes the operations return, and
  `Completion`, which records whether a call returned or aborted on a panic.
- `Options`: `MCServerOptionsBuilder` as a class, because `port` overwrites
  its field in place. Also `MCServerOptions`, `DEFAULT_MC_PORT` (25565) and
  `MCServerLogOptions`.
- `Commands`: `MCServerCommands` (`OP(name)`) and its `to_string` text line.
  It also holds the form Rust's derived `Debug` gives a command, which error
  messages embed, and a reader for each of these texts.
- `Errors`: the seven-variant `MCError` taxonomy and its `to_string`. It adds
  a reader that recovers an error from its message.
- `Engine`: the requests the layer sends to the Docker engine and the
  engine's replies. The engine is an oracle: a value that fixes the reply to
  every request, success or failure. It is passed to each operation as a
  parameter.
- `Lifecycle`: `create`, `get_container`, `status`, `start`, `stop`,
  `run_command`, `logs` and `rm`. Each operation that talks to the engine is a
  method. It returns the operation's result together with the requests it
  sent, in order. That list is what shows that `inspect` follows only a
  successful `start`, that `stop` carries no timeout and that `rm` forces.
- `Scenarios`: callers combining the operations. One scenario is a container
  the engine no longer knows, as after a removal. `WholeLifecycle` goes through
  create, start, run_command, logs, stop and rm against an engine that
  accepts every request. It shows that the operations' contracts are enough
  to predict every step.

## Model

| member | source | states |
|---|---|---|
| `Options.MCServerOptionsBuilder.constructor` | src/service.rs:252-258 | a new builder keeps the given name and volume and starts at port `DEFAULT_MC_PORT` |
| `Options.MCServerOptionsBuilder.Port` | src/service.rs:260-263 | sets the port to the argument, leaves name and volume unchanged, and hands back the same builder |
| `Options.MCServerOptionsBuilder.Build` | src/service.rs:265-271 | the options carry the builder's name, volume and port unchanged |
| `Options.Provision` | src/main.rs:294-313 | the builder chain yields the given name and volume, and the given port if `port` was called, else 25565 (src/main.rs:17) |
| `Options.DefaultLogOptions` | src/main.rs:274-278 | the default log options ask for the last `"20"` lines |
| `Commands.Text` | src/service.rs:220-226 | `OP(name)` is the line `/op ` + name + newline: it starts with `/op `, carries the name verbatim, ends with a newline and is 5 characters longer than the name |
| `Commands.ParseText` | src/service.rs:220-226 | the command line reads back as the same command, so the written text determines the command |
| `Commands.MultiLine` | src/service.rs:223 | when the name holds a newline, the command text holds at least two newlines: the name is written verbatim and becomes several console lines |
| `Commands.SingleLine` | src/service.rs:223 | when the name holds no newline, the command text holds exactly one newline, its last character |
| `Commands.ParseEscape` | src/service.rs:215-218 | the derived `Debug` escape of the command's name (`Commands.Escape`, character by character `Commands.EscapeChar`) reads back exactly, and reading stops at its closing quote |
| `Errors.Render` | src/service.rs:24-36 | `to_string`: the message of every error other than `ContainerError` reads back through `ParseError` as that error, with its variant, id and command; a `ContainerError` renders as its engine message verbatim |
| `Errors.StartParses` | src/service.rs:28 | the start message `failed to start container <id>` reads back as `FailedToStartContainer(id)` |
| `Errors.InspectParses` | src/service.rs:29 | `failed to inspect container <id>` reads back as `FailedToInspectContainer(id)` |
| `Errors.StopParses` | src/service.rs:30 | `failed to stop container <id>` reads back as `FailedToStopContainer(id)` |
| `Errors.RunCommandParses` | src/service.rs:31 | `failed to run command OP("<name>") on container <id>`, with the command in its `Debug` form (`Commands.Debug`), reads back as `FailedToRunCommand(id, OP(name))` |
| `Errors.RMParses` | src/service.rs:32 | `failed to rm container <id>` reads back as `FailedToRMContainer(id)` |
| `Errors.ContainerErrorShowsMessageOnly` | src/main.rs:78 | a `ContainerError` renders as exactly its engine message, for every id and every message, so its message can equal any other error's |
| `Lifecycle.ContainerOptionsFor` | src/service.rs:56-62 | the create payload uses the image `Lifecycle.Image` that `MCService::new` fixes (src/service.rs:50), env `["EULA=TRUE"]`, the single volume `<volume>:/data`, stdin attached, and the exposure triple `(options.port, "tcp", 25565)` in that argument order |
| `Lifecycle.PayloadDeterminedByVolumeAndPort` | src/service.rs:57-62 | two option sets give the same create payload if and only if their volumes and ports agree; the server name is not part of the payload |
| `Lifecycle.GetContainer` | src/service.rs:82-86 | the handle's id is the given id; no engine request |
| `Lifecycle.Create` | src/service.rs:55-80 | one create request with the payload; engine failure gives `FailedToCreateContainer`, success the handle on the engine-assigned id, which round-trips through `GetContainer`; each warning gives one log line (`Lifecycle.WarningLine`, the `warn!` format of src/service.rs:76) in order and the result does not depend on the warnings |
| `Lifecycle.Status` | src/main.rs:152-154 | always `Ok(())`, with no engine request |
| `Lifecycle.Start` | src/main.rs:156-189 | sends start and, only when start succeeds, inspect after it; `Ok` if and only if both succeed and the inspected `state.error` is empty; otherwise `FailedToStartContainer`, `FailedToInspectContainer` or `ContainerError` with the engine message verbatim, always carrying the handle's id |
| `Lifecycle.Stop` | src/main.rs:191-202 | one stop request without a timeout; `Ok` exactly when it succeeds, else `FailedToStopContainer(id)` |
| `Lifecycle.RunCommand` | src/main.rs:204-221 | attaches and, once attached, writes exactly the command's text and flushes; fails exactly when attaching fails, with `FailedToRunCommand(id, command)` holding the command passed in |
| `Lifecycle.DecodeAll` | src/main.rs:236 | one decoded line per collected chunk, same number and same order |
| `Lifecycle.Logs` | src/main.rs:223-237 | one logs request for stdout and stderr with tail set to the options' limit; returns the decoded chunks one to one and in order, never its error value, and aborts exactly when collection fails |
| `Lifecycle.Rm` | src/main.rs:239-254 | one remove request with `force = true`; `Ok` exactly when it succeeds, else `FailedToRMContainer(id)` |
| `Scenarios.OperationsOnForgottenContainer` | src/main.rs:152-254 | when the engine refuses every request about a container, start, stop, run_command and rm all fail with an error carrying that container's id, logs aborts, and status still succeeds |

Behaviour of the code that the model follows as written:

- `run_command` ignores the results of `write_all` and `flush`
  (src/service.rs:172-173). Only a failed attach becomes `FailedToRunCommand`,
  so a failed write still reports success.
- `status` is a stub. It succeeds even for a removed container, so "every
  operation on a removed container fails" holds for start, stop, run_command
  and rm, but not for status. `logs` aborts instead of failing.
- `run_command` writes the player name verbatim (src/service.rs:223, 172).
  A name holding a newline therefore sends several console lines, for
  example `OP("x\nstop")` sends `/op x` and then `stop`.
- `create` does not check that the engine-assigned id is non-empty. The handle
  carries whatever id the engine returns.
- The port mapping is recorded as the argument triple of the `expose` call
  (src/service.rs:61), in that order, without deciding which side is the
  host's.
- A volume path that is not valid UTF-8 makes `create` panic
  (src/service.rs:56). The layer does not report it as an error.

## Left out

- The Docker engine and its HTTP client (`Docker::host`, `Container::new` and
  the calls on them). Each reply is a parameter of the operation. The
  engine's own state between operations is not modelled.
- The tokio runtime and `block_on`. Each engine call is one synchronous step.
- Logging (`info!`, `warn!`, `error!`, `eprintln!`). The exception is the
  warning lines `create` emits, which are the only effect of its loop. The
  `Error::Fault` status-code test in `start` only decides whether to log, so
  it is left out too.
- Lossy UTF-8 decoding of log chunks (`as_string_lossy`). It is the parameter
  `lossy` of `Logs` and `DecodeAll`.
- The conversion of the volume `PathBuf` to text and its panic. The volume is
  modelled as text.
- The UTF-8 encoding of the written command (`as_bytes`). The write request
  carries the text.
- `Commands.ParseEscape`: characters above U+007F are kept as they are. Rust's
  `Debug` also escapes non-printable and grapheme-extending Unicode characters
  as `\u{..}`.
- `Commands.EscapeChar` writes the NUL character as `\0`, as Rust 1.61 and
  later toolchains do; earlier toolchains wrote `\u{0}`. `ParseQuoted` reads
  both forms.
- The stop timeout is an `Option<Duration>` in the client. It is modelled as a
  number of seconds; the layer always passes `None`.
- `MCService::new` and `MCContainerService::new` open the engine connection,
  the runtime and the repository. Only the image name that `MCService::new`
  fixes (src/service.rs:50) is kept, as `Lifecycle.Image`.
- `src/repository.rs` with the inline `repository` module, `src/server.rs`
  with the inline `server` module (HTTP routing), `MCWorker` and `main`. They
  are plumbing or unused.
