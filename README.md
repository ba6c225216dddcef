# Pulsar client decision logic, modelled in Dafny

This project models three small pieces of the Pulsar job-execution client and
proves properties about them:

- **Configuration-format resolution** (`pulsar/client/config_util.py`),
  module `ConfigUtil`. `read_file` rejects a missing path. It then resolves a
  format in a fixed order: an explicit truthy hint first, then the first
  registered extension (`.json`, `.yaml`/`.yml`, `.ini`) that ends the path,
  then a default (`"yaml"`). Finally it dispatches to the reader registered
  for that format. The YAML reader fails when PyYAML is unavailable. That
  availability is a parameter, so it is checked when the reader is called.
- **Job setup** (`pulsar/client/setup_handler.py`), module `SetupHandler`.
  `build` returns a local handler when the client has a job directory and a
  remote one otherwise. The local handler collects the `remote_property_*`
  destination parameters into system properties and adds the directory's
  separator. It may replace the job id (`assign_ids == "uuid"`), tells the
  client the id when the client's own differs, and builds the job
  configuration: a map with fixed keys, plus `tool_id` and `tool_version`
  when those are truthy. The remote handler forwards its arguments with
  `use_metadata` set to `"true"`. The client is a class whose methods
  change its fields. The two handlers are classes with fixed fields, and
  their `setup` methods change the client. `build_job_config` is a method
  that fills a map step by step.
- **Local command execution** (`pulsar/managers/util/cli/shell/local.py`),
  module `LocalShell`. A string command runs through the shell and an
  argument vector runs directly. The process is polled at most
  `int(timeout / timeout_check_interval)` times, and the loop stops at the
  first poll that finds it exited. If no poll finds an exit, the process is
  killed and the result is the sentinel (`''`, `'Execution timed out'`,
  `-1`). Otherwise both output streams are decoded as UTF-8 and returned
  with the exit code. The process is a `Process` object. It has a scripted
  sequence of poll answers and fixed output bytes, and it records how many
  polls were made and whether it was killed. `Execute` is a method with the
  bounded loop. It is proved equal to the specification function
  `ExpectedResult`, and the lemmas below are about that function.
  Module `Utf8` is the strict UTF-8 codec that `_read_str` relies on. Both
  round trips are proved for it: decode after encode, and encode after a
  successful decode.

`__find_type` accepts any truthy explicit type, not only "json", "yaml" and
"ini". An unregistered type fails later, at the reader lookup, with
KeyError. Only the YAML reader checks that its library is available. The
model follows the code in both respects.

Module `Wrappers` holds `Option` (Python's `None`), `Result` (a raised
exception as a value) and Python truthiness for an optional string.

One observation about the source: the local handler stores the job
directory's separator under the key `"separator"`
(`setup_handler.py:39`). `build_job_config`, however, reads `"sep"`
(`setup_handler.py:98`). So a locally built configuration's
`path_separator` is `os.sep`, unless a `remote_property_sep` destination
parameter is given. The model keeps this behaviour as written, and
`LocalPathSeparator` states it. Whether it is intended cannot be told from
the source, so it is not listed as a finding.

## Model

| member | source | states |
|---|---|---|
| `ConfigUtil.FirstMatch` | pulsar/client/config_util.py:43-46 | the result is None iff no entry has an extension ending the path; otherwise it is the type of a matching entry with no matching entry before it |
| `ConfigUtil.FindType` | pulsar/client/config_util.py:39-48 | a truthy hint is returned as is; with no hint and no matching extension the default is returned |
| `ConfigUtil.ReaderFor` | pulsar/client/config_util.py:71-75 | exactly "json", "yaml" and "ini" have readers, each its own; any other type has none (KeyError) |
| `ConfigUtil.ReadFile` | pulsar/client/config_util.py:31-36 | a None path is a ValueError; otherwise KeyError iff the resolved type has no reader, ImportError iff it is "yaml" without YAML support, else the path goes to the reader of the resolved type |
| `ConfigUtil.ReadFileDefault` | pulsar/client/config_util.py:31 | with the default `default_type`, an unhinted, unmatched path goes to the YAML reader, or fails with ImportError when YAML is unavailable |
| `ConfigUtil.ExtensionsSuffixFree` | pulsar/client/config_util.py:20-22 | no registered extension is a suffix of a different one |
| `ConfigUtil.AtMostOneExtension` | pulsar/client/config_util.py:20-22 | a path ends with at most one registered extension |
| `ConfigUtil.ExtMapUnambiguous` | pulsar/client/config_util.py:24-28 | every entry of EXT_MAP that matches a path names the same type |
| `ConfigUtil.FirstMatchIs` | pulsar/client/config_util.py:43-46 | if all matching entries name one type, the search returns that type |
| `ConfigUtil.FirstMatchOrderIrrelevant` | pulsar/client/config_util.py:43-46 | when matches are unambiguous, any reordering of the table gives the same first match |
| `ConfigUtil.ExtMapOrderIrrelevant` | pulsar/client/config_util.py:24-28 | the iteration order of EXT_MAP does not affect the resolved type |
| `ConfigUtil.ExplicitTypeWins` | pulsar/client/config_util.py:40-41 | a non-empty explicit type is returned unchanged, whatever the path |
| `ConfigUtil.ResolvesByExtension` | pulsar/client/config_util.py:43-46 | without a hint, a path ending in a registered extension resolves to that extension's type |
| `ConfigUtil.JsonSuffix` | pulsar/client/config_util.py:20 | without a hint, a path ending in ".json" resolves to "json" |
| `ConfigUtil.YamlSuffix` | pulsar/client/config_util.py:21 | without a hint, a path ending in ".yaml" or ".yml" resolves to "yaml" |
| `ConfigUtil.IniSuffix` | pulsar/client/config_util.py:22 | without a hint, a path ending in ".ini" resolves to "ini" |
| `ConfigUtil.UnmatchedUsesDefault` | pulsar/client/config_util.py:48 | without a hint, a path ending in no registered extension resolves to the default type |
| `ConfigUtil.DefaultIsYaml` | pulsar/client/config_util.py:18 | the default `default_type` is "yaml": such a path is read by the YAML reader, or fails when YAML is unavailable |
| `ConfigUtil.NoneRejectedFirst` | pulsar/client/config_util.py:32-33 | a None path raises ValueError whatever the hint, the default or the YAML support |
| `ConfigUtil.YamlCapabilityOnlyForYaml` | pulsar/client/config_util.py:51-53 | YAML availability changes the outcome only when the resolved type is "yaml" |
| `SetupHandler.Build` | pulsar/client/setup_handler.py:11-19 | the handler is local (and `IsLocal()` holds) iff the client has a job directory, else remote; both keep the client; a local handler gets the system properties, `jobs_directory` and `assign_ids` (default "galaxy") from the destination parameters; a local build without `jobs_directory` is a KeyError |
| `SetupHandler.HandlerLocality` | pulsar/client/setup_handler.py:61-65 | `local` is true for the local handler and false for the remote one |
| `SetupHandler.FilterDestinationParams` | pulsar/client/setup_handler.py:31-33 | every prefixed parameter appears under its name without the prefix, with its value, and nothing else appears |
| `SetupHandler.LocalSystemProperties` | pulsar/client/setup_handler.py:37-40 | "separator" holds the job directory's separator; every other key is a stripped `remote_property_` parameter and every such parameter is present |
| `SetupHandler.LocalSetupHandler.constructor` | pulsar/client/setup_handler.py:36-42 | keeps the client, sets the system properties as above, takes `jobs_directory`, and defaults `assign_ids` to "galaxy" |
| `SetupHandler.LocalSetupHandler.Setup` | pulsar/client/setup_handler.py:44-59 | the id is the fresh id iff `assign_ids` is "uuid"; `assign_job_id` is called exactly when the client's id differs, and then the client's job directory is the one re-derived for the new id; the result is the job configuration for that id and for the client's job directory as it is after the call |
| `SetupHandler.BuildJobConfig` | pulsar/client/setup_handler.py:88-119 | all fixed keys are present with their values; "job_id" is the argument; "tool_id" / "tool_version" are present iff truthy; "path_separator" is `system_properties["sep"]` if present, else `os.sep` |
| `SetupHandler.JobConfigDetermined` | pulsar/client/setup_handler.py:99-118 | the stated key set and values determine the job configuration completely |
| `SetupHandler.LocalPathSeparator` | pulsar/client/setup_handler.py:98 | for a local handler, "path_separator" is the `remote_property_sep` parameter if given, else `os.sep`, never the stored "separator" |
| `SetupHandler.RemoteRequest` | pulsar/client/setup_handler.py:78 | the forwarded request has the same keys plus "use_metadata", which is "true", and every other value is unchanged |
| `SetupHandler.RemoteSetupHandler.constructor` | pulsar/client/setup_handler.py:74-75 | keeps the client |
| `SetupHandler.RemoteSetupHandler.Setup` | pulsar/client/setup_handler.py:77-79 | sends exactly the forwarded request to the client and returns the server's reply; the client's job id is untouched |
| `LocalShell.Truncate` | pulsar/managers/util/cli/shell/local.py:53 | `int()` truncates toward zero |
| `LocalShell.PollBound` | pulsar/managers/util/cli/shell/local.py:53 | the number of loop iterations is the whole part of timeout / interval, and 0 when that is below 1 |
| `LocalShell.FirstExit` | pulsar/managers/util/cli/shell/local.py:53-57 | the first poll within the bound that reports an exit; None iff no poll within the bound does |
| `LocalShell.PollsMade` | pulsar/managers/util/cli/shell/local.py:53-57 | the process is polled at most the bound number of times |
| `LocalShell.Process.Popen` | pulsar/managers/util/cli/shell/local.py:48-50 | the process is spawned through the shell iff the command is a string |
| `LocalShell.Process.Poll` | pulsar/managers/util/cli/shell/local.py:55 | returns the next scripted answer; an exit code is kept as the return code |
| `LocalShell.Process.Kill` | pulsar/managers/util/cli/shell/local.py:60 | marks the process killed and changes nothing else |
| `LocalShell.Execute` | pulsar/managers/util/cli/shell/local.py:47-63 | shell flag iff string command; result equals `ExpectedResult`; polls made as `PollsMade`; killed iff no poll within the bound reported an exit |
| `LocalShell.StopsAtFirstExit` | pulsar/managers/util/cli/shell/local.py:55-57 | when poll k is the first to report an exit, the loop stops there after k + 1 polls |
| `LocalShell.CompletedRunResult` | pulsar/managers/util/cli/shell/local.py:62-63 | a completed run returns the decoded stdout and stderr and the code of the first exit poll |
| `LocalShell.TimedOutRunResult` | pulsar/managers/util/cli/shell/local.py:59-61 | with no exit within the bound, all polls are made and the result is exactly ('', 'Execution timed out', -1) |
| `LocalShell.ZeroBoundNoPoll` | pulsar/managers/util/cli/shell/local.py:53-61 | when timeout / interval is below 1 there is no poll and the sentinel is returned |
| `LocalShell.DefaultBound` | pulsar/managers/util/cli/shell/local.py:19-20 | with the defaults 60 and 3 the bound is 20 polls |
| `LocalShell.SleepTimesOutScenario` | pulsar/managers/util/cli/shell/local.py:33-39 | with timeout 1 and interval 0.1, a command still running after 10 polls gets the timeout sentinel |
| `LocalShell.EchoHiScenario` | pulsar/managers/util/cli/shell/local.py:40-41 | a shell that writes "hi\n" and exits 0 yields stdout "hi\n", stderr "" and code 0 |
| `LocalShell.ReadStr` | pulsar/managers/util/cli/shell/local.py:66-68 | text is returned unchanged; successfully decoded bytes are exactly the UTF-8 encoding of the result |
| `LocalShell.ReadStrRoundTrip` | pulsar/managers/util/cli/shell/local.py:68 | the UTF-8 encoding of any text is read back as that text |
| `Utf8.DecodeEncode` | pulsar/managers/util/cli/shell/local.py:68 | decoding the UTF-8 encoding of a string gives the string back |
| `Utf8.EncodeDecode` | pulsar/managers/util/cli/shell/local.py:68 | bytes that decode successfully are exactly the encoding of the decoded text (the decoder accepts only well-formed UTF-8) |

## Left out

- Process spawning, the 0.1 s and interval sleeps, the temporary output file
  and its `seek`, and the pipe: these are OS I/O. A process is a scripted
  `Behaviour`: one answer per poll, plus the bytes of its two streams.
- A `Popen` failure (for example a missing executable) is not modelled. In
  the source it propagates as an exception.
- `kill_pid` kills the process group and tolerates a process that has
  already gone. Its source is not part of this model, so the kill is only
  recorded as a flag.
- `execute`'s `persist` and `**kwds` parameters are ignored by the source
  and are not modelled. `LocalShell.__init__` does nothing and has no
  counterpart.
- `LocalShell.PollBound`: `timeout / timeout_check_interval` is computed on
  reals, not on IEEE floats. Rounding of the float quotient is not modelled.
- The timeout return code `-1` is also what a process killed by signal 1
  reports. The model, like the source, only sets it as the sentinel and
  does not claim it is distinct.
- `Utf8.Decode` reports only that the bytes are invalid, not the position
  or message of Python's UnicodeDecodeError.
- JSON, YAML and INI parsing and file opening are library calls. A
  successful `ReadFile` only names the reader and the path.
- `ConfigUtil.ReadFile` takes the path as an optional string. Path objects
  and other non-string arguments are not modelled.
- `filter_destination_params` lives in `pulsar/client/util.py`, which is
  not part of this model. It is modelled as the prefix stripping that the
  `LocalSetupHandler` docstring describes.
- `uuid4().hex` is the parameter `freshId` of `LocalSetupHandler.Setup`.
  The uniqueness of generated ids (two uuid setups give distinct ids) is
  not modelled.
- `pulsar.__version__`, `os.sep`, the job directory's path methods and the
  remote server's reply are parameters.
- `Client` is outside this core. It is reduced to its job directory, its
  job id, and a record of `assign_job_id` and `remote_setup` calls.
- `SetupHandler.Client.AssignJobId`: how the client re-derives its job
  directory from a new id is not part of this model. The new directory is
  the parameter `rebuilt`. The model assumes only that a client with a job
  directory keeps one, so `LocalSetupHandler.Setup` can still build from it.
- `LocalShell.Execute` and `LocalShell.PollBound` require a positive
  `timeout_check_interval`. The source's other error paths are not
  modelled. An interval of 0 raises ZeroDivisionError. With a negative
  interval the bound is positive only when `timeout / timeout_check_interval`
  is at least 1, that is, when the timeout is also negative and no closer to
  zero than the interval. Only then does `sleep` raise ValueError on the
  negative interval, unless the first poll finds the process exited. (Any
  other negative interval gives an empty range: a non-negative timeout, or a
  negative timeout closer to zero than the interval. Then the process is
  killed and the sentinel is returned.)
- `SetupHandler.BuildJobConfig`: in Python, the configuration's
  `system_properties` entry is the handler's own dict object (aliasing).
  The model stores a copy of its contents.
- Python's dynamically typed values are narrowed to `Value`: strings, string
  dictionaries, booleans and `None`. Job ids are strings.
