/** `MCError`: the closed taxonomy every lifecycle failure is translated
    into, and its `to_string` rendering, which becomes the message the
    HTTP layer returns. */
module Errors {
  import opened Outcomes
  import opened Commands

  datatype MCError =
    | FailedToCreateContainer
    | FailedToStartContainer(id: string)
    | FailedToInspectContainer(id: string)
    | FailedToStopContainer(id: string)
    | FailedToRunCommand(id: string, command: MCServerCommands)
    | FailedToRMContainer(id: string)
    | ContainerError(id: string, message: string)

  /** The container id an error carries; every variant but
      `FailedToCreateContainer` carries one. */
  function ErrorId(e: MCError): Option<string>
  {
    if e.FailedToCreateContainer? then None else Some(e.id)
  }

  const CreatePrefix := "failed to create container"
  const StartPrefix := "failed to start container "
  const InspectPrefix := "failed to inspect container "
  const StopPrefix := "failed to stop container "
  const RunPrefix := "failed to run command "
  const RunInfix := " on container "
  const RMPrefix := "failed to rm container "

  /** `to_string`: the message the HTTP layer shows. Every message but a
      `ContainerError`'s identifies its error (variant, id and command);
      a `ContainerError` shows the engine's message verbatim. */
  function Render(e: MCError): (msg: string)
    ensures !e.ContainerError? ==> ParseError(msg) == Some(e)
    ensures e.ContainerError? ==> msg == e.message
  {
    match e
    case FailedToCreateContainer => CreatePrefix
    case FailedToStartContainer(x) => StartParses(x); StartPrefix + x
    case FailedToInspectContainer(x) => InspectParses(x); InspectPrefix + x
    case FailedToStopContainer(x) => StopParses(x); StopPrefix + x
    case FailedToRunCommand(x, c) => RunCommandParses(x, c); RunPrefix + Debug(c) + RunInfix + x
    case FailedToRMContainer(x) => RMParses(x); RMPrefix + x
    case ContainerError(_, m) => m
  }

  predicate HasPrefix(s: string, p: string)
  {
    |p| <= |s| && s[..|p|] == p
  }

  /** Reads a rendered message back into the error it came from. Messages
      that are not of a fixed form read as `None`. */
  function ParseError(msg: string): Option<MCError>
  {
    if msg == CreatePrefix then Some(FailedToCreateContainer)
    else if HasPrefix(msg, StartPrefix) then Some(FailedToStartContainer(msg[|StartPrefix|..]))
    else if HasPrefix(msg, InspectPrefix) then Some(FailedToInspectContainer(msg[|InspectPrefix|..]))
    else if HasPrefix(msg, StopPrefix) then Some(FailedToStopContainer(msg[|StopPrefix|..]))
    else if HasPrefix(msg, RMPrefix) then Some(FailedToRMContainer(msg[|RMPrefix|..]))
    else if HasPrefix(msg, RunCommandPrefix) then ParseRunCommand(msg[|RunCommandPrefix|..])
    else None
  }

  const RunCommandPrefix := RunPrefix + "OP(\""
  const RunCommandInfix := ")" + RunInfix

  /** Reads what follows `failed to run command OP("`: the escaped name,
      its closing quote, then ` on container ` and the id. */
  function ParseRunCommand(t: string): Option<MCError>
  {
    match ParseQuoted(t)
    case Some((name, rest)) =>
      if HasPrefix(rest, RunCommandInfix)
      then Some(FailedToRunCommand(rest[|RunCommandInfix|..], OP(name)))
      else None
    case None => None
  }

  /** `failed to start container <id>` reads back as its error. */
  lemma StartParses(x: string)
    ensures ParseError(StartPrefix + x) == Some(FailedToStartContainer(x))
  {
    var m := StartPrefix + x;
    assert m[..|StartPrefix|] == StartPrefix;
    assert m != CreatePrefix by { assert m[10] != CreatePrefix[10]; }
  }

  /** `failed to inspect container <id>` reads back as its error. */
  lemma InspectParses(x: string)
    ensures ParseError(InspectPrefix + x) == Some(FailedToInspectContainer(x))
  {
    var m := InspectPrefix + x;
    assert m[..|InspectPrefix|] == InspectPrefix;
    assert m != CreatePrefix by { assert m[10] != CreatePrefix[10]; }
    assert !HasPrefix(m, StartPrefix) by { assert m[10] != StartPrefix[10]; }
  }

  /** `failed to stop container <id>` reads back as its error. */
  lemma StopParses(x: string)
    ensures ParseError(StopPrefix + x) == Some(FailedToStopContainer(x))
  {
    var m := StopPrefix + x;
    assert m[..|StopPrefix|] == StopPrefix;
    assert m != CreatePrefix by { assert m[10] != CreatePrefix[10]; }
    assert !HasPrefix(m, StartPrefix) by { assert m[12] != StartPrefix[12]; }
    assert !HasPrefix(m, InspectPrefix) by { assert m[10] != InspectPrefix[10]; }
  }

  /** `failed to rm container <id>` reads back as its error. */
  lemma RMParses(x: string)
    ensures ParseError(RMPrefix + x) == Some(FailedToRMContainer(x))
  {
    var m := RMPrefix + x;
    assert m[..|RMPrefix|] == RMPrefix;
    assert m != CreatePrefix by { assert m[10] != CreatePrefix[10]; }
    assert !HasPrefix(m, StartPrefix) by { assert m[10] != StartPrefix[10]; }
    assert !HasPrefix(m, InspectPrefix) by { assert m[10] != InspectPrefix[10]; }
    assert !HasPrefix(m, StopPrefix) by { assert m[10] != StopPrefix[10]; }
  }

  /** `failed to run command OP("<name>") on container <id>`, with the
      name in its `Debug` form, reads back as its error. */
  lemma RunCommandParses(x: string, c: MCServerCommands)
    ensures ParseError(RunPrefix + Debug(c) + RunInfix + x) == Some(FailedToRunCommand(x, c))
  {
    var m := RunPrefix + Debug(c) + RunInfix + x;
    var t := Escape(c.name) + "\"" + (RunCommandInfix + x);
    assert m == RunCommandPrefix + t;
    RunCommandTailParses(x, c);
    NotOtherPrefix(m, t);
  }

  lemma RunCommandTailParses(x: string, c: MCServerCommands)
    ensures ParseRunCommand(Escape(c.name) + "\"" + (RunCommandInfix + x)) == Some(FailedToRunCommand(x, c))
  {
    ParseEscape(c.name, RunCommandInfix + x);
    assert (RunCommandInfix + x)[..|RunCommandInfix|] == RunCommandInfix;
    assert (RunCommandInfix + x)[|RunCommandInfix|..] == x;
  }

  lemma NotOtherPrefix(m: string, t: string)
    requires m == RunCommandPrefix + t
    ensures ParseError(m) == ParseRunCommand(t)
  {
    assert m[..|RunCommandPrefix|] == RunCommandPrefix;
    assert m[|RunCommandPrefix|..] == t;
    assert m != CreatePrefix by { assert m[10] != CreatePrefix[10]; }
    assert !HasPrefix(m, StartPrefix) by { assert m[10] != StartPrefix[10]; }
    assert !HasPrefix(m, InspectPrefix) by { assert m[10] != InspectPrefix[10]; }
    assert !HasPrefix(m, StopPrefix) by { assert m[10] != StopPrefix[10]; }
    assert !HasPrefix(m, RMPrefix) by { assert m[11] != RMPrefix[11]; }
  }

  /** `ContainerError` shows the engine's message verbatim and drops the
      id, so its message can coincide with any other error's: the text
      alone does not tell the variants apart. */
  lemma ContainerErrorShowsMessageOnly(id: string, m: string, other: MCError)
    ensures Render(ContainerError(id, m)) == m
    ensures Render(ContainerError(id, Render(other))) == Render(other)
  {
  }
}
