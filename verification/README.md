# Task-queue worker core, modelled in Dafny

The worker pops JSON task payloads from two broker queues
(`mcp::tasks::shell`, `mcp::tasks::docker`), decodes each into a `Task`,
dispatches on its `TaskType` (`SHELL` or `DOCKER`), and writes
`"SUCCESS: <output>"` or `"ERROR: <message>"` under `mcp::result::<id>`
with a 3600-second expiry. A failed pop costs a fixed 5-second delay; a
payload that does not decode is dropped; no branch of the loop body leaves
the loop.

This project models that decision logic as pure functions:

- `results.dfy` — `Option` and `Result`.
- `text.dfy` — prefix stripping, the inverse of every string the worker builds.
- `json.dfy` — the inspected part of a JSON value: member lookup and `as_str`.
- `task.dfy` (`TaskEnvelope`) — `Task`, `TaskType`, the case-sensitive variant
  names, and the mapping from a decoded JSON document to a `Task`.
- `executor.dfy` (`Executor`) — `execute_task`. The `docker ps` subprocess is
  an input, `DockerRun`: either `LaunchFailed(reason)`, an I/O error from
  the run (for example, it could not be started), or
  `Exited(success, stdout, stderr)` with both streams already decoded to text.
- `result_record.dfy` (`ResultRecord`) — the result key, value and expiry,
  each with a reader that inverts it.
- `worker_loop.dfy` (`WorkerLoop`) — one loop iteration as `Step`, from a pop
  outcome (`Event`) to abstract effects (`Write(key, value, ttl)`,
  `Sleep(5)`). Also `Run`, which folds `Step` over a sequence of events, and
  `Listen`, the loop itself.
- `result_store.dfy` (`ResultStore`) — the broker's key-value contents
  after the loop's writes are applied.

Two details of the code that the model keeps exactly:

- A non-zero docker exit yields `"Docker command failed: " + stderr`.
- A `Task` decodes only when all four fields `id`, `target_host`,
  `task_type` and `details` are present, with `id` and `target_host`
  strings; the derived deserializer demands this.

## Model

| member | source | states |
|---|---|---|
| TaskEnvelope.DecodeTaskType | src/main.rs:17-22 | a variant name decodes exactly when it is `"DOCKER"` or `"SHELL"`, and what it decodes to is spelled by that name |
| TaskEnvelope.TaskTypeNameDecodes | src/main.rs:17-22 | a name decodes to a variant if and only if it is that variant's upper-case name |
| TaskEnvelope.OtherSpellingsRejected | src/main.rs:17-22 | lower-case, capitalised and empty spellings are decode failures, never a default variant |
| TaskEnvelope.DecodeTask | src/main.rs:9-15 | a document decodes to a task exactly when it is an object with string `id` and `target_host`, a valid `task_type` name and some `details`; the task carries those field values |
| TaskEnvelope.DecodeEncodeTask | src/main.rs:9-22 | the derived serialized form of any task is a valid envelope and decodes back to the same task |
| TaskEnvelope.UnknownFieldsIgnored | src/main.rs:9-15 | adding a member outside the four field names does not change the decoding |
| Executor.CommandOf | src/main.rs:120 | the command is the `command` member's text when `details` is an object holding a string there, and `""` in every other case |
| Executor.ExecuteTask | src/main.rs:111-146 | the outcome is `Ok` exactly for SHELL tasks and for `list_containers` runs that exit successfully; SHELL yields the fixed acknowledgement; a DOCKER success returns the runtime's stdout unchanged |
| Executor.ShellAlwaysAcknowledged | src/main.rs:113-118 | a SHELL task yields `Ok("Shell command executed successfully.")` for every id, target, details and runtime behaviour |
| Executor.UnsupportedCommandRejected | src/main.rs:120-142 | a DOCKER task whose command is any string other than `list_containers` yields exactly `Err("Unsupported Docker command: " + command)` |
| Executor.MissingCommandIsEmpty | src/main.rs:120-142 | a DOCKER task with no string `command` member yields `Err("Unsupported Docker command: ")` |
| Executor.ListContainersOutcomes | src/main.rs:122-140 | for `list_containers`: a successful exit yields `Ok(stdout)`, a failed exit `Err("Docker command failed: " + stderr)`, a launch failure `Err("Failed to execute docker command: " + reason)` |
| Executor.OutcomeDependsOnlyOnTypeAndDetails | src/main.rs:111-146 | id and target host never affect the outcome, and the runtime's behaviour affects it only for `list_containers` |
| Executor.ErrorCause | src/main.rs:131-142 | a message read back as a cause is exactly the message that cause produces |
| Executor.ErrorMessageRoundTrip | src/main.rs:131-142 | the three error messages are distinct, and each one reads back to the cause that produced it |
| Executor.ErrorsExplained | src/main.rs:111-146 | a task fails exactly when `ExpectedCause`, read directly off the `details` document (a missing or non-string command named as `""`) and the runtime behaviour, predicts a failure, and its message reads back to that predicted cause |
| ResultRecord.ResultKey | src/main.rs:88 | the key starts with `mcp::result::` and stripping that prefix gives back the id |
| ResultRecord.ResultKeyInverse | src/main.rs:88 | a key reads back to an id if and only if it is that id's result key |
| ResultRecord.ResultKeyInjective | src/main.rs:88 | distinct ids give distinct keys |
| ResultRecord.ResultValue | src/main.rs:89-92 | the value starts with `SUCCESS: ` if and only if the outcome is `Ok`, and with `ERROR: ` if and only if it is `Err` |
| ResultRecord.ParseResultValue | src/main.rs:89-92 | a value is readable exactly when it carries one of the two tags, and what is read formats back to that value |
| ResultRecord.ResultValueRoundTrip | src/main.rs:89-92 | removing the tag recovers the output or the error text exactly, together with which of the two it was |
| ResultRecord.ResultValueInjective | src/main.rs:89-92 | distinct outcomes give distinct values |
| WorkerLoop.Step | src/main.rs:75-106 | a failed pop gives exactly `[Sleep(5)]`; an undecodable payload gives no effect; a decoded task gives exactly one write, whose key reads back to the task id, whose value reads back to the executor's outcome, and whose ttl is 3600 |
| WorkerLoop.QueueNameIgnored | src/main.rs:76 | the queue a payload arrived on does not affect the effects |
| WorkerLoop.RunCounts | src/main.rs:71-108 | over any event sequence, writes equal decoded tasks, delays equal failed pops, and there are no other effects |
| WorkerLoop.RunEffectsFixed | src/main.rs:94-105 | every write in any run has ttl 3600 and every delay is 5 seconds |
| WorkerLoop.UndecodableLeavesNoTrace | src/main.rs:80-99 | removing every undecodable payload from an event sequence leaves its effects unchanged |
| WorkerLoop.BadPayloadInvisible | src/main.rs:80-99 | one undecodable payload inserted anywhere in an event sequence leaves its effects unchanged |
| WorkerLoop.Listen | src/main.rs:67-108 | given events whose docker runs all terminate, and assuming logging never fails, the loop handles every one of them, so no branch exits, and its effects are the fold of `Step` |
| ResultStore.StepOverwrites | src/main.rs:88-95 | processing a task sets its result key to the formatted outcome, replacing any earlier value, and leaves every other key unchanged |
| ResultStore.StepWithoutTaskKeepsStore | src/main.rs:97-106 | a failed pop or an undecodable payload leaves the stored results unchanged |
| ResultStore.RedeliveryIdempotent | src/main.rs:88-94 | handling the same delivery twice leaves the same store as handling it once |
| ResultStore.RecordIffDecoded | src/main.rs:75-99 | from an empty store, a result record has been written for an id exactly when some payload decoded to a task with that id |
| ResultStore.StoreHoldsOnlyResultKeys | src/main.rs:88-94 | from an empty store, every key the loop writes reads back to a task id |

## Left out

- The broker is not modelled: client creation, the connection, `blpop` and `set_ex` (src/main.rs:44-64, 73, 94) are network I/O. A pop is an `Event`; a result write is a `Write` effect.
- A failed `set_ex` is ignored by the code and is not re-tried. The `Write` effect records the attempt; `ResultStore` assumes every write is stored.
- WorkerLoop.Listen: a docker run that never returns is not representable (`DockerRun` is only `LaunchFailed` or `Exited`), so "handles every event" assumes every run terminates. In the code, `output().await` (src/main.rs:124-130) has no timeout, and a hung run stops the loop from handling any later event.
- WorkerLoop.Listen: the model assumes logging never fails. In the code, `log` prints with `println!` (src/main.rs:26), which panics when standard output cannot be written (for example, a closed pipe). The listener runs directly inside the `#[tokio::main]` entry point (src/main.rs:39, 64), so such a panic ends the process and the loop with it.
- ResultStore.RecordIffDecoded: the store has no clock and ignores the 3600-second expiry that `set_ex` gives each record (src/main.rs:94). The lemma describes which records have been written, that is, the store before any record expires.
- The `docker ps -a --format '{{json .}}'` subprocess is not modelled, and neither is `String::from_utf8_lossy` (src/main.rs:124-138). Both are replaced by the `DockerRun` input. An iteration's `DockerRun` travels with its `Event`, so it is deterministic.
- Logging to stdout and to `mcp-worker.log` (src/main.rs:25-36) is left out, and the model assumes it never fails. Failures to open or write the log file are ignored by the code. A failed write to standard output makes `println!` panic (see the `WorkerLoop.Listen` line above).
- The tokio runtime and real sleeping (src/main.rs:39, 105) are left out. The delay is only the token `Sleep(5)`.
- Lexing payload text into JSON is not modelled; it is the abstract `WorkerLoop.Parser` function. Only the field-to-`Task` mapping is modelled.
- TaskEnvelope.DecodeTask: the deserializer's other accepted encodings are not modelled. These are a struct given as a JSON array and a variant given as the object `{"SHELL": null}`. Its rejection of duplicate members is also not modelled, because a map cannot hold duplicates.
- JSON numbers are modelled as integers. `details` is never read as a number, so this makes no difference.
- Startup configuration and the fatal early returns in `main` (src/main.rs:41-61) are left out, as configuration and I/O rather than task logic.
