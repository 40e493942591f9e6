/**
 The command executor: `execute_task`, an exhaustive dispatch on the task
 type followed, for DOCKER, by a match on the `command` text in `details`.
 The one external action, running `docker ps -a --format '{{json .}}'`, is
 not performed: its outcome arrives as a `DockerRun` value, with both
 output streams already decoded to text.
 */
module Executor {
  import opened Results
  import opened Text
  import opened Json
  import opened TaskEnvelope

  const ShellAck := "Shell command executed successfully."
  const ListContainers := "list_containers"
  const CommandField := "command"

  const UnsupportedPrefix := "Unsupported Docker command: "
  const CommandFailedPrefix := "Docker command failed: "
  const LaunchFailedPrefix := "Failed to execute docker command: "

  /** What the container runtime did when asked to list containers: the
      run failed with an I/O error (for example, it could not be started),
      or it ran and exited. */
  datatype DockerRun =
    | LaunchFailed(reason: string)
    | Exited(success: bool, stdout: string, stderr: string)

  /** `details` is an object whose `command` member is a string. */
  predicate HasCommand(details: JsonValue) {
    details.Object? && CommandField in details.fields && details.fields[CommandField].Str?
  }

  /** `details["command"].as_str().unwrap_or("")`: a missing member, a
      non-object `details` and a non-string member all read as "". */
  function CommandOf(details: JsonValue): (command: string)
    ensures HasCommand(details) ==> command == details.fields[CommandField].s
    ensures !HasCommand(details) ==> command == ""
  {
    match AsStr(Member(details, CommandField))
    case Some(s) => s
    case None => ""
  }

  function ExecuteTask(task: Task, run: DockerRun): (r: Result<string, string>)
    ensures r.Ok? <==>
      || task.taskType == Shell
      || (CommandOf(task.details) == ListContainers && run.Exited? && run.success)
    ensures task.taskType == Shell ==> r == Ok(ShellAck)
    ensures task.taskType == Docker && r.Ok? ==> r.value == run.stdout
  {
    match task.taskType
    case Shell => Ok(ShellAck)
    case Docker =>
      var command := CommandOf(task.details);
      if command == ListContainers then
        match run
        case LaunchFailed(reason) => Err(LaunchFailedPrefix + reason)
        case Exited(success, stdout, stderr) =>
          if success then Ok(stdout) else Err(CommandFailedPrefix + stderr)
      else
        Err(UnsupportedPrefix + command)
  }

  /** A SHELL task is acknowledged whatever its id, target, details or the
      state of the container runtime. */
  lemma ShellAlwaysAcknowledged(id: string, host: string, details: JsonValue, run: DockerRun)
    ensures ExecuteTask(Task(id, host, Shell, details), run) == Ok(ShellAck)
  {
  }

  /** Any command other than `list_containers` is rejected, naming it. */
  lemma UnsupportedCommandRejected(task: Task, run: DockerRun, command: string)
    requires task.taskType == Docker
    requires task.details.Object? && CommandField in task.details.fields
    requires task.details.fields[CommandField] == Str(command)
    requires command != ListContainers
    ensures ExecuteTask(task, run) == Err(UnsupportedPrefix + command)
  {
  }

  /** A missing or non-string `command` is the empty command, which is
      unsupported. */
  lemma MissingCommandIsEmpty(task: Task, run: DockerRun)
    requires task.taskType == Docker
    requires !HasCommand(task.details)
    ensures ExecuteTask(task, run) == Err(UnsupportedPrefix)
  {
    assert UnsupportedPrefix + "" == UnsupportedPrefix;
  }

  /** `list_containers` has one outcome per kind of runtime behaviour. */
  lemma ListContainersOutcomes(task: Task, run: DockerRun)
    requires task.taskType == Docker && CommandOf(task.details) == ListContainers
    ensures run.Exited? && run.success ==> ExecuteTask(task, run) == Ok(run.stdout)
    ensures run.Exited? && !run.success ==> ExecuteTask(task, run) == Err(CommandFailedPrefix + run.stderr)
    ensures run.LaunchFailed? ==> ExecuteTask(task, run) == Err(LaunchFailedPrefix + run.reason)
  {
  }

  /** The runtime is consulted only for `list_containers`, and neither the
      id nor the target host ever influences the outcome. */
  lemma OutcomeDependsOnlyOnTypeAndDetails(t1: Task, t2: Task, run1: DockerRun, run2: DockerRun)
    requires t1.taskType == t2.taskType && t1.details == t2.details
    requires t1.taskType == Shell || CommandOf(t1.details) != ListContainers || run1 == run2
    ensures ExecuteTask(t1, run1) == ExecuteTask(t2, run2)
  {
  }

  /** Why a task failed, as a submitter reading the error text sees it. */
  datatype Cause =
    | Unsupported(command: string)
    | CommandFailed(stderr: string)
    | NotLaunched(reason: string)

  /** The failure a task should end in, read off the raw `details`
      document and the runtime behaviour, without going through
      `CommandOf` and with no message text: `None` when it should
      succeed. A missing or non-string command is named as "". */
  function ExpectedCause(task: Task, run: DockerRun): Option<Cause> {
    match task.taskType
    case Shell => None
    case Docker =>
      if HasCommand(task.details) && task.details.fields[CommandField].s == ListContainers then
        match run
        case Exited(true, _, _) => None
        case Exited(false, _, stderr) => Some(CommandFailed(stderr))
        case LaunchFailed(reason) => Some(NotLaunched(reason))
      else if HasCommand(task.details) then Some(Unsupported(task.details.fields[CommandField].s))
      else Some(Unsupported(""))
  }

  /** Reads an error message back into its cause. The three prefixes start
      with different letters, so at most one applies. */
  function ErrorCause(message: string): (cause: Option<Cause>)
    ensures cause.Some? ==> message == ErrorMessage(cause.value)
  {
    match StripPrefix(UnsupportedPrefix, message)
    case Some(rest) => Some(Unsupported(rest))
    case None =>
      match StripPrefix(CommandFailedPrefix, message)
      case Some(rest) => Some(CommandFailed(rest))
      case None =>
        match StripPrefix(LaunchFailedPrefix, message)
        case Some(rest) => Some(NotLaunched(rest))
        case None => None
  }

  function ErrorMessage(cause: Cause): string {
    match cause
    case Unsupported(command) => UnsupportedPrefix + command
    case CommandFailed(stderr) => CommandFailedPrefix + stderr
    case NotLaunched(reason) => LaunchFailedPrefix + reason
  }

  lemma ErrorMessageRoundTrip(cause: Cause)
    ensures ErrorCause(ErrorMessage(cause)) == Some(cause)
  {
    match cause
    case Unsupported(command) =>
      StripPrefixOfConcat(UnsupportedPrefix, command);
    case CommandFailed(stderr) =>
      StripPrefixOfConcat(CommandFailedPrefix, stderr);
      DistinctHeads(UnsupportedPrefix, CommandFailedPrefix, ErrorMessage(cause));
    case NotLaunched(reason) =>
      StripPrefixOfConcat(LaunchFailedPrefix, reason);
      DistinctHeads(UnsupportedPrefix, LaunchFailedPrefix, ErrorMessage(cause));
      DistinctHeads(CommandFailedPrefix, LaunchFailedPrefix, ErrorMessage(cause));
  }

  /** Every failure of `ExecuteTask` is the expected one and its message
      names the cause exactly; every success is a task expected to succeed. */
  lemma ErrorsExplained(task: Task, run: DockerRun)
    ensures ExecuteTask(task, run).Err? <==> ExpectedCause(task, run).Some?
    ensures ExecuteTask(task, run).Err? ==> ErrorCause(ExecuteTask(task, run).error) == ExpectedCause(task, run)
  {
    var cause := ExpectedCause(task, run);
    if cause.Some? {
      assert ExecuteTask(task, run) == Err(ErrorMessage(cause.value));
      ErrorMessageRoundTrip(cause.value);
    }
  }
}
