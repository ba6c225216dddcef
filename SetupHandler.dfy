/**
 * Job setup (pulsar/client/setup_handler.py).
 *
 * `build` chooses, once, between a handler that computes the job
 * configuration locally (when the client has a job directory) and one that
 * asks the remote Pulsar server for it. The client is modelled only as far as
 * the handlers use it: its job directory, its current job id, and a record of
 * the `assign_job_id` and `remote_setup` calls made on it.
 */
module SetupHandler {
  import opened Wrappers

  const RemoteSystemPropertyPrefix: string := "remote_property_"

  /** The values a job configuration or a setup request holds. */
  datatype Value = Str(s: string) | Dict(entries: map<string, string>) | Flag(b: bool) | Null

  /**
   * A job directory, reduced to the paths `build_job_config` reads from it:
   * its own path, its separator and the results of its sub-directory methods.
   */
  datatype JobDirectory = JobDirectory(
    path: string,
    separator: string,
    inputsDirectory: string,
    workingDirectory: string,
    metadataDirectory: string,
    outputsDirectory: string,
    configsDirectory: string,
    toolFilesDirectory: string,
    unstructuredFilesDirectory: string)

  /** A missing destination parameter (Python's KeyError). */
  datatype SetupError = KeyError(key: string)

  /**
   * `filter_destination_params`: the parameters whose names start with
   * `prefix`, renamed by removing the prefix.
   */
  function FilterDestinationParams(params: map<string, string>, prefix: string): (r: map<string, string>)
    ensures forall k :: k in params && prefix <= k ==> k[|prefix|..] in r && r[k[|prefix|..]] == params[k]
    ensures forall s :: s in r ==> prefix + s in params && params[prefix + s] == r[s]
  {
    assert forall k :: k in params && prefix <= k ==> prefix + k[|prefix|..] == k;
    var names := set k | k in params && prefix <= k :: k[|prefix|..];
    map s | s in names :: params[prefix + s]
  }

  /** The system properties of a local handler: the prefixed destination parameters plus the separator. */
  function LocalSystemProperties(destinationArgs: map<string, string>, separator: string): (r: map<string, string>)
    ensures "separator" in r && r["separator"] == separator
    ensures forall s :: s in r && s != "separator" ==>
      RemoteSystemPropertyPrefix + s in destinationArgs && r[s] == destinationArgs[RemoteSystemPropertyPrefix + s]
    ensures forall s :: s != "separator" && RemoteSystemPropertyPrefix + s in destinationArgs ==>
      s in r && r[s] == destinationArgs[RemoteSystemPropertyPrefix + s]
  {
    var props := FilterDestinationParams(destinationArgs, RemoteSystemPropertyPrefix);
    forall s | RemoteSystemPropertyPrefix + s in destinationArgs
      ensures s in props
    {
      var k := RemoteSystemPropertyPrefix + s;
      assert k[|RemoteSystemPropertyPrefix|..] == s;
    }
    props["separator" := separator]
  }

  /** `system_properties.get("sep", os.sep)`. */
  function PathSeparator(systemProperties: map<string, string>, osSep: string): string {
    if "sep" in systemProperties then systemProperties["sep"] else osSep
  }

  /** The keys every job configuration has. */
  const FixedKeys: set<string> := {
    "job_directory", "working_directory", "metadata_directory", "outputs_directory",
    "configs_directory", "tools_directory", "inputs_directory", "unstructured_files_directory",
    "path_separator", "job_id", "system_properties", "pulsar_version",
    "preserve_galaxy_python_environment"}

  /** `config` is the job configuration `build_job_config` produces for these arguments. */
  ghost predicate DescribesJob(config: map<string, Value>, jobId: string, jobDirectory: JobDirectory,
                               systemProperties: map<string, string>, toolId: Option<string>,
                               toolVersion: Option<string>, preserve: Value,
                               pulsarVersion: string, osSep: string)
  {
    && config.Keys == FixedKeys + (if Truthy(toolId) then {"tool_id"} else {})
                                + (if Truthy(toolVersion) then {"tool_version"} else {})
    && config["job_directory"] == Str(jobDirectory.path)
    && config["working_directory"] == Str(jobDirectory.workingDirectory)
    && config["metadata_directory"] == Str(jobDirectory.metadataDirectory)
    && config["outputs_directory"] == Str(jobDirectory.outputsDirectory)
    && config["configs_directory"] == Str(jobDirectory.configsDirectory)
    && config["tools_directory"] == Str(jobDirectory.toolFilesDirectory)
    && config["inputs_directory"] == Str(jobDirectory.inputsDirectory)
    && config["unstructured_files_directory"] == Str(jobDirectory.unstructuredFilesDirectory)
    && config["path_separator"] == Str(PathSeparator(systemProperties, osSep))
    && config["job_id"] == Str(jobId)
    && config["system_properties"] == Dict(systemProperties)
    && config["pulsar_version"] == Str(pulsarVersion)
    && config["preserve_galaxy_python_environment"] == preserve
    && (Truthy(toolId) ==> config["tool_id"] == Str(toolId.value))
    && (Truthy(toolVersion) ==> config["tool_version"] == Str(toolVersion.value))
  }

  /**
   * `build_job_config`: the fixed keys, then `tool_id` and `tool_version`
   * added only when truthy. `pulsarVersion` and `osSep` stand for
   * `pulsar.__version__` and `os.sep`.
   */
  method BuildJobConfig(jobId: string, jobDirectory: JobDirectory, systemProperties: map<string, string>,
                        toolId: Option<string>, toolVersion: Option<string>, preserve: Value,
                        pulsarVersion: string, osSep: string)
    returns (jobConfig: map<string, Value>)
    ensures FixedKeys <= jobConfig.Keys
    ensures "tool_id" in jobConfig <==> Truthy(toolId)
    ensures "tool_version" in jobConfig <==> Truthy(toolVersion)
    ensures jobConfig["job_id"] == Str(jobId)
    ensures jobConfig["path_separator"] == Str(PathSeparator(systemProperties, osSep))
    ensures DescribesJob(jobConfig, jobId, jobDirectory, systemProperties, toolId, toolVersion,
                         preserve, pulsarVersion, osSep)
  {
    var sep := PathSeparator(systemProperties, osSep);
    jobConfig := map[
      "job_directory" := Str(jobDirectory.path),
      "working_directory" := Str(jobDirectory.workingDirectory),
      "metadata_directory" := Str(jobDirectory.metadataDirectory),
      "outputs_directory" := Str(jobDirectory.outputsDirectory),
      "configs_directory" := Str(jobDirectory.configsDirectory),
      "tools_directory" := Str(jobDirectory.toolFilesDirectory),
      "inputs_directory" := Str(jobDirectory.inputsDirectory),
      "unstructured_files_directory" := Str(jobDirectory.unstructuredFilesDirectory),
      "path_separator" := Str(sep),
      "job_id" := Str(jobId),
      "system_properties" := Dict(systemProperties),
      "pulsar_version" := Str(pulsarVersion),
      "preserve_galaxy_python_environment" := preserve];
    if Truthy(toolId) {
      jobConfig := jobConfig["tool_id" := Str(toolId.value)];
    }
    if Truthy(toolVersion) {
      jobConfig := jobConfig["tool_version" := Str(toolVersion.value)];
    }
  }

  /** The request a remote handler forwards: the arguments with `use_metadata` set to "true". */
  function RemoteRequest(setupArgs: map<string, Value>): (r: map<string, Value>)
    ensures r.Keys == setupArgs.Keys + {"use_metadata"}
    ensures r["use_metadata"] == Str("true")
    ensures forall k :: k in setupArgs && k != "use_metadata" ==> r[k] == setupArgs[k]
  {
    setupArgs["use_metadata" := Str("true")]
  }

  /**
   * The client, as far as the setup handlers use it. Its job directory is
   * derived from its job id, so assigning a new id may replace it.
   */
  class Client {
    var jobDirectory: Option<JobDirectory>
    var jobId: string
    /** Every `assign_job_id` call made on this client, in order. */
    var assignedJobIds: seq<string>
    /** Every `remote_setup` request sent by this client, in order. */
    var remoteSetupRequests: seq<map<string, Value>>

    constructor(jobDirectory: Option<JobDirectory>, jobId: string)
      ensures this.jobDirectory == jobDirectory && this.jobId == jobId
      ensures assignedJobIds == [] && remoteSetupRequests == []
    {
      this.jobDirectory := jobDirectory;
      this.jobId := jobId;
      assignedJobIds := [];
      remoteSetupRequests := [];
    }

    /**
     * `assign_job_id`: records the new id and re-derives the job directory
     * from it. `rebuilt` stands for the directory the client derives for
     * `id`; a client without a job directory keeps none.
     */
    method AssignJobId(id: string, rebuilt: JobDirectory)
      modifies this
      ensures jobId == id && assignedJobIds == old(assignedJobIds) + [id]
      ensures jobDirectory == if old(jobDirectory).Some? then Some(rebuilt) else None
      ensures remoteSetupRequests == old(remoteSetupRequests)
    {
      jobId := id;
      assignedJobIds := assignedJobIds + [id];
      if jobDirectory.Some? {
        jobDirectory := Some(rebuilt);
      }
    }

    /** Sends `request` to the server; `reply` stands for what the server answers. */
    method RemoteSetup(request: map<string, Value>, reply: map<string, Value>) returns (config: map<string, Value>)
      modifies this
      ensures config == reply
      ensures remoteSetupRequests == old(remoteSetupRequests) + [request]
      ensures jobId == old(jobId) && assignedJobIds == old(assignedJobIds)
      ensures jobDirectory == old(jobDirectory)
    {
      remoteSetupRequests := remoteSetupRequests + [request];
      config := reply;
    }
  }

  /** Computes the job configuration itself from the client's job directory. */
  class LocalSetupHandler {
    const client: Client
    const systemProperties: map<string, string>
    const jobsDirectory: string
    const assignIds: string

    /** Requires what `build` guarantees: the client has a job directory and `jobs_directory` is given. */
    constructor(client: Client, destinationArgs: map<string, string>)
      requires client.jobDirectory.Some? && "jobs_directory" in destinationArgs
      ensures this.client == client
      ensures systemProperties == LocalSystemProperties(destinationArgs, client.jobDirectory.value.separator)
      ensures systemProperties["separator"] == client.jobDirectory.value.separator
      ensures jobsDirectory == destinationArgs["jobs_directory"]
      ensures assignIds == (if "assign_ids" in destinationArgs then destinationArgs["assign_ids"] else "galaxy")
    {
      this.client := client;
      systemProperties := LocalSystemProperties(destinationArgs, client.jobDirectory.value.separator);
      jobsDirectory := destinationArgs["jobs_directory"];
      assignIds := if "assign_ids" in destinationArgs then destinationArgs["assign_ids"] else "galaxy";
    }

    function IsLocal(): bool { true }

    /**
     * `setup`: with `assign_ids == "uuid"` the job id is replaced by
     * `freshId` (standing for `uuid4().hex`); the client is told the id when
     * its own differs, which re-derives the client's job directory
     * (`rebuilt` stands for the result); the configuration is built from the
     * client's job directory as it is after that call.
     */
    method Setup(jobId: string, toolId: Option<string>, toolVersion: Option<string>, preserve: Value,
                 freshId: string, rebuilt: JobDirectory, pulsarVersion: string, osSep: string)
      returns (config: map<string, Value>)
      requires client.jobDirectory.Some?
      modifies client
      ensures var id := if assignIds == "uuid" then freshId else jobId;
        && client.jobId == id
        && client.assignedJobIds == old(client.assignedJobIds) + (if old(client.jobId) != id then [id] else [])
        && client.jobDirectory == (if old(client.jobId) != id then Some(rebuilt) else old(client.jobDirectory))
        && DescribesJob(config, id, client.jobDirectory.value, systemProperties, toolId, toolVersion,
                        preserve, pulsarVersion, osSep)
      ensures client.remoteSetupRequests == old(client.remoteSetupRequests)
    {
      var id := jobId;
      if assignIds == "uuid" {
        id := freshId;
      }
      if client.jobId != id {
        client.AssignJobId(id, rebuilt);
      }
      config := BuildJobConfig(id, client.jobDirectory.value, systemProperties, toolId, toolVersion,
                               preserve, pulsarVersion, osSep);
    }
  }

  /** Asks the remote Pulsar server for the job configuration. */
  class RemoteSetupHandler {
    const client: Client

    constructor(client: Client)
      ensures this.client == client
    {
      this.client := client;
    }

    function IsLocal(): bool { false }

    /** `setup(**setup_args)`: forward the arguments plus `use_metadata`; `reply` is the server's answer. */
    method Setup(setupArgs: map<string, Value>, reply: map<string, Value>) returns (config: map<string, Value>)
      modifies client
      ensures config == reply
      ensures client.remoteSetupRequests == old(client.remoteSetupRequests) + [RemoteRequest(setupArgs)]
      ensures client.jobId == old(client.jobId) && client.assignedJobIds == old(client.assignedJobIds)
      ensures client.jobDirectory == old(client.jobDirectory)
    {
      config := client.RemoteSetup(RemoteRequest(setupArgs), reply);
    }
  }

  /** The handler `build` returns. */
  datatype Handler = Local(localHandler: LocalSetupHandler) | Remote(remoteHandler: RemoteSetupHandler) {
    /** The `local` property of the handler. */
    function IsLocal(): bool {
      match this
      case Local(h) => h.IsLocal()
      case Remote(h) => h.IsLocal()
    }
  }

  /**
   * `build`: a local handler when the client has a job directory, a remote
   * one otherwise. A local handler needs `jobs_directory` among the
   * destination parameters; without it construction raises KeyError.
   */
  method Build(client: Client, destinationArgs: map<string, string>) returns (r: Result<Handler, SetupError>)
    ensures r.Failure? <==> client.jobDirectory.Some? && "jobs_directory" !in destinationArgs
    ensures r.Success? ==> (r.value.Local? <==> client.jobDirectory.Some?)
    ensures r.Success? ==> (r.value.IsLocal() <==> client.jobDirectory.Some?)
    ensures r.Success? && r.value.Local? ==>
      && fresh(r.value.localHandler) && r.value.localHandler.client == client
      && r.value.localHandler.systemProperties ==
           LocalSystemProperties(destinationArgs, client.jobDirectory.value.separator)
      && r.value.localHandler.jobsDirectory == destinationArgs["jobs_directory"]
      && r.value.localHandler.assignIds ==
           (if "assign_ids" in destinationArgs then destinationArgs["assign_ids"] else "galaxy")
    ensures r.Success? && r.value.Remote? ==> fresh(r.value.remoteHandler) && r.value.remoteHandler.client == client
  {
    if client.jobDirectory.Some? {
      if "jobs_directory" !in destinationArgs {
        return Failure(KeyError("jobs_directory"));
      }
      var h := new LocalSetupHandler(client, destinationArgs);
      r := Success(Local(h));
    } else {
      var h := new RemoteSetupHandler(client);
      r := Success(Remote(h));
    }
  }

  // ---------------------------------------------------------------------------
  // Properties
  // ---------------------------------------------------------------------------

  /** `local` is true exactly for the local variant. */
  lemma HandlerLocality(h: Handler)
    ensures h.IsLocal() <==> h.Local?
  {
  }

  /**
   * The job configuration is fully determined by the arguments: two
   * configurations that both describe the same job are equal.
   */
  lemma JobConfigDetermined(c1: map<string, Value>, c2: map<string, Value>, jobId: string,
                               jobDirectory: JobDirectory, systemProperties: map<string, string>,
                               toolId: Option<string>, toolVersion: Option<string>,
                               preserve: Value, pulsarVersion: string, osSep: string)
    requires DescribesJob(c1, jobId, jobDirectory, systemProperties, toolId, toolVersion, preserve, pulsarVersion, osSep)
    requires DescribesJob(c2, jobId, jobDirectory, systemProperties, toolId, toolVersion, preserve, pulsarVersion, osSep)
    ensures c1 == c2
  {
    assert c1.Keys == c2.Keys;
    forall k | k in c1 ensures c1[k] == c2[k] {
      assert k in FixedKeys || k == "tool_id" || k == "tool_version";
    }
  }

  /**
   * For a local handler the path separator of the job configuration comes
   * from the `remote_property_sep` destination parameter, else from `os.sep`;
   * the job directory's separator (stored under "separator") is not used.
   */
  lemma LocalPathSeparator(destinationArgs: map<string, string>, separator: string, osSep: string)
    ensures PathSeparator(LocalSystemProperties(destinationArgs, separator), osSep) ==
      if "remote_property_sep" in destinationArgs then destinationArgs["remote_property_sep"] else osSep
  {
    assert RemoteSystemPropertyPrefix + "sep" == "remote_property_sep";
    assert "sep" != "separator";
  }
}
