# Sahara HDFS application plugin — a Dafny model

This project models the Sahara HDFS plugin of the application manager
(`application_manager/plugins/sahara_hdfs/plugin.py`). The plugin runs a
Spark job on an OpenStack Sahara cluster.

`SaharaHDFSProvider.execute` hands back an
`OpenStackSparkStandaloneApplicationExecutor` under an application id
`"saharahdfs" + <generated id>`. The executor's `start_application` then
runs these steps:

1. Sets the state `"Running"`.
2. Builds the OpenStack connector and opens the Sahara and Swift clients.
3. Looks up a cluster by size, or creates one through `_create_cluster`.
4. Asks for the cluster's master and workers.
5. Sorts the job arguments into Swift input paths, the output path, plain
   parameters and the container (`_get_job_params`, `_get_swift_path`,
   `_get_swift_container`).
6. Stages the inputs and the job binary under `/tmp/spark-jobs/<id>` and
   copies them to the master node.
7. Runs `spark-submit` there (`_submit_job`).
8. Copies the output back and uploads it to Swift.
9. Sets `"OK"`.

Any exception sets `"Error"` and is logged. It is never propagated.

The modules follow that structure:

- `Exceptions`: the Python exceptions the core raises, plus `Result` and `Option`.
- `PyStrings`: `str.split`, `sep.join`, `startswith` and `in`, as the core uses them.
- `SwiftArgs`: Swift URL parsing and the classification of job arguments.
- `SparkSubmit`: the `spark-submit` command line.
- `StagingPaths`: the execution id and the staging directories.
- `Pipeline`: `start_application` as a value. Every outside call is an
  `Effect`, and an `Env` value decides how each call turns out. The run is
  the trace of effects plus the result and the logged exception.
- `Lifecycle`: properties of a whole run. These cover the order of states,
  exactly when a run succeeds, when a cluster is created and how a
  successful run ends.
- `SaharaExecutor`: the executor as a class. It has the state and time
  fields, the getters and the setter. `start_application` is carried out
  step by step, and each step method is proved to perform exactly the
  effects of the matching stretch of `Pipeline`. A ghost field `effects`
  records the outside calls, state updates included.
- `Provider`: `SaharaHDFSProvider` (title, description and `execute`).

Behaviour of the code worth noting:

- The states are the strings `"None"`, `"Running"`, `"OK"` and `"Error"`.
- `"Error"` is set twice when creation returns no cluster id: once in the
  else branch and once in the handler (`Lifecycle.RunStates`).
- Remote commands, `scp` copies and `mkdir` go through `subprocess.call`,
  whose return code is ignored, so they never raise. What can raise in the
  model is the construction of the connector and of the two clients, the
  cluster calls, the Swift downloads and upload, the parsing of the
  arguments, and the two `os.listdir` calls (the binary directory, then the
  input directory inside `_submit_job`), plus `IndexError` when the binary
  directory is empty.
- The broker stages under `/tmp/spark-jobs/<id>`. The remote path is
  `ubuntu@<master>:/tmp/spark-jobs/<id>`. The HDFS paths are computed but
  never used.
- The container is taken from `args[0]` whether or not it is a Swift URL.
- The `input`/`output` substring tests look at the whole URL, container
  included (`SwiftArgs.ContainerNamedOutput`).
- The time getters take no lock, and the times are never assigned after
  construction.
- `_create_cluster` rewrites only a `SaharaAPIException` (into one with
  the message "Could not create clusters"). Every other outcome passes
  through unchanged.

## Model

| member | source | states |
|---|---|---|
| PyStrings.JoinSplit | application_manager/plugins/sahara_hdfs/plugin.py:255 | joining the pieces of `arg.split('/')` with `/` gives `arg` back |
| PyStrings.SplitJoin | application_manager/plugins/sahara_hdfs/plugin.py:255 | splitting a join of separator-free pieces gives the pieces back |
| PyStrings.SplitPieces | application_manager/plugins/sahara_hdfs/plugin.py:255 | no piece of a split contains the separator |
| PyStrings.Split | application_manager/plugins/sahara_hdfs/plugin.py:255 | `str.split` on one character; its properties are `JoinSplit`, `SplitJoin` and `SplitPieces` |
| PyStrings.Join | application_manager/plugins/sahara_hdfs/plugin.py:258-259 | `'/'.join`, the closed form of the loop; `GetSwiftPath` is proved against it |
| PyStrings.StartsWith | application_manager/plugins/sahara_hdfs/plugin.py:244 | `arg.startswith('swift://')`; `OthersArePlain` and `PlainSwiftPartition` use it |
| PyStrings.Contains | application_manager/plugins/sahara_hdfs/plugin.py:245-246 | `"input" in arg` and `"output" in arg`; `ContainerNamedOutput` shows it sees the container too |
| SwiftArgs.SwiftPath | application_manager/plugins/sahara_hdfs/plugin.py:254-261 | the path exists exactly when the argument has at least four `/`-segments; otherwise `IndexError` (from `splitted[3]`) |
| SwiftArgs.GetSwiftPath | application_manager/plugins/sahara_hdfs/plugin.py:254-261 | the loop that starts at segment 3 and appends `'/' + segment` returns exactly the segments from index 3 on, re-joined with `/`, or `IndexError` |
| SwiftArgs.SwiftPathSuffix | application_manager/plugins/sahara_hdfs/plugin.py:254-261 | the Swift path is a proper suffix of the argument |
| SwiftArgs.SwiftContainer | application_manager/plugins/sahara_hdfs/plugin.py:263-267 | the container exists exactly when there are at least three segments (otherwise `IndexError`) and it contains no `/` |
| SwiftArgs.SwiftUrlRoundTrip | application_manager/plugins/sahara_hdfs/plugin.py:254-267 | for a `swift://` URL with at least four segments, `"swift://" + container + "/" + path` is the URL |
| SwiftArgs.SchemeParts | application_manager/plugins/sahara_hdfs/plugin.py:254-267 | after `swift://`, the first segment is the container and the rest, re-joined, is the path (`IndexError` when there is no rest) |
| SwiftArgs.SwiftUrlParse | application_manager/plugins/sahara_hdfs/plugin.py:254-267 | parsing `swift://c/p` gives back `c` and `p` for any container `c` without `/` |
| SwiftArgs.SwiftPathExample | application_manager/plugins/sahara_hdfs/plugin.py:254-267 | `swift://c/input/a.txt` has container `c` and path `input/a.txt` |
| SwiftArgs.JobParamsOf | application_manager/plugins/sahara_hdfs/plugin.py:239-252 | `_get_job_params` as a value; `GetJobParams` is proved equal to it and `ClassifiedPaths`, `JobParamsFailures` and `OthersArePlain` state its results |
| SwiftArgs.InPathsOf | application_manager/plugins/sahara_hdfs/plugin.py:244-245 | `in_paths` after a pass; `InPathsFiltered` states it |
| SwiftArgs.OutPathOf | application_manager/plugins/sahara_hdfs/plugin.py:246 | `out_path` after a pass; `OutPathIsLast` states it |
| SwiftArgs.GetJobParams | application_manager/plugins/sahara_hdfs/plugin.py:239-252 | the single pass over `args` returns exactly the declarative classification `JobParamsOf`, failures included |
| SwiftArgs.PlainSwiftPartition | application_manager/plugins/sahara_hdfs/plugin.py:243-248 | every argument is either plain or a Swift URL; as multisets, the plain ones and the Swift ones add up to the arguments |
| SwiftArgs.InPathsFiltered | application_manager/plugins/sahara_hdfs/plugin.py:244-245 | `in_paths` has one entry per Swift argument containing "input", in argument order, each that argument's path |
| SwiftArgs.OutPathIsLast | application_manager/plugins/sahara_hdfs/plugin.py:246 | `out_path` is unbound exactly when no Swift argument contains "output"; otherwise it is the path of the last such argument |
| SwiftArgs.OthersArePlain | application_manager/plugins/sahara_hdfs/plugin.py:247-248 | `others` holds, in order, exactly the arguments that do not start with `swift://` |
| SwiftArgs.ClassifiedPaths | application_manager/plugins/sahara_hdfs/plugin.py:239-252 | a successful result has one path per input argument in order, the output path of the last output argument, and the container of `args[0]` |
| SwiftArgs.JobParamsFailures | application_manager/plugins/sahara_hdfs/plugin.py:243-252 | empty arguments, an input/output URL with too few segments, or a first argument with fewer than three segments raise `IndexError`; no output argument raises `UnboundLocalError`; success implies an output argument exists |
| SwiftArgs.UnclassifiedSwiftArgDropped | application_manager/plugins/sahara_hdfs/plugin.py:244-246 | a Swift argument containing neither "input" nor "output" is ignored (removing it, anywhere but first, changes nothing) |
| SwiftArgs.LastOutputWins | application_manager/plugins/sahara_hdfs/plugin.py:246 | when the last argument is an output URL, its path is `out_path` |
| SwiftArgs.JobParamsExample | application_manager/plugins/sahara_hdfs/plugin.py:239-252 | an input URL, an output URL and a plain parameter in one container classify as `([in], out, [param], c)` |
| SwiftArgs.ContainerNamedOutput | application_manager/plugins/sahara_hdfs/plugin.py:244-246 | an input URL whose container name contains "output" also becomes the output path |
| SparkSubmit.InputFilesAt | application_manager/plugins/sahara_hdfs/plugin.py:291-292 | one `file://<input dir><name>` URL per listed input file, in listing order |
| SparkSubmit.InputFiles | application_manager/plugins/sahara_hdfs/plugin.py:291-292 | the input file URLs; `InputFilesAt` states them |
| SparkSubmit.SubmitWords | application_manager/plugins/sahara_hdfs/plugin.py:290-300 | the command's words; `SubmitCommandWords` and `SubmitArguments` state them |
| SparkSubmit.SubmitCommand | application_manager/plugins/sahara_hdfs/plugin.py:300 | the command string; `BuildSubmitCommand` is proved to build it and `SubmitCommandLayout` spells it out |
| SparkSubmit.BuildSubmitCommand | application_manager/plugins/sahara_hdfs/plugin.py:289-300 | the two accumulating loops and the concatenation build exactly the space-joined command words |
| SparkSubmit.SubmitCommandLayout | application_manager/plugins/sahara_hdfs/plugin.py:300 | the command is the fixed words, each input URL followed by a space, a further space, the output URL, a space, and each parameter followed by a space |
| SparkSubmit.SubmitCommandWords | application_manager/plugins/sahara_hdfs/plugin.py:290-300 | when no part contains a space, splitting the command on spaces gives back its words, with the empty words at the doubled and the trailing space |
| SparkSubmit.SubmitArguments | application_manager/plugins/sahara_hdfs/plugin.py:290-300 | the non-empty words are `spark-submit --class <main> <binary>`, the input URLs, the output URL and the parameters, in that order |
| StagingPaths.ExecId | application_manager/plugins/sahara_hdfs/plugin.py:150 | the execution id is a prefix of the UUID string, of length 7, or the whole string when shorter |
| StagingPaths.StagingOf | application_manager/plugins/sahara_hdfs/plugin.py:154-169 | the staging paths; `StagingLayout`, `StagingDistinct` and `StagingSeparate` state their properties |
| StagingPaths.StagingLayout | application_manager/plugins/sahara_hdfs/plugin.py:154-169 | local paths lie under `/tmp/spark-jobs/` and inside the execution's directory; the remote paths are `ubuntu@<master>:` plus the local ones |
| StagingPaths.StagingDistinct | application_manager/plugins/sahara_hdfs/plugin.py:161-167 | the input, output and binary directories are pairwise distinct, locally and on HDFS |
| StagingPaths.StagingSeparate | application_manager/plugins/sahara_hdfs/plugin.py:150-163 | two different execution ids of the same length stage in directories that do not overlap |
| Pipeline.CreationOutcome | application_manager/plugins/sahara_hdfs/plugin.py:227-237 | a `SaharaAPIException` is replaced by one with the message "Could not create clusters"; any other outcome passes through |
| Pipeline.ClusterRequestOf | application_manager/plugins/sahara_hdfs/plugin.py:127-132 | what `_create_cluster` receives; `CreateClusterCall` is proved to pass it |
| Pipeline.Downloads | application_manager/plugins/sahara_hdfs/plugin.py:269-274 | `_download_from_swift` as a value; `DownloadsStop` and `DownloadsOk` state it and `DownloadFromSwift` is proved equal to it |
| Pipeline.SubmitCommandOf | application_manager/plugins/sahara_hdfs/plugin.py:195-196 | the command run for the first file of the binary directory and the input listing; `SubmitJob` is proved to run it |
| Pipeline.TryBlock | application_manager/plugins/sahara_hdfs/plugin.py:68-214 | the try block; `Lifecycle.TryBlockStates` and `Lifecycle.TryBlockSucceeds` state it |
| Pipeline.Connect | application_manager/plugins/sahara_hdfs/plugin.py:101-113 | connector and clients; `Lifecycle.ConnectQuiet` states it and `ConnectStep` performs it |
| Pipeline.FindCluster | application_manager/plugins/sahara_hdfs/plugin.py:115-138 | lookup by size; `Lifecycle.FindClusterQuiet` and `FindClusterSucceeds` state it |
| Pipeline.NewCluster | application_manager/plugins/sahara_hdfs/plugin.py:122-212 | creation and the falsy-id branch; `Lifecycle.NewClusterQuiet` and `NewClusterSucceeds` state it |
| Pipeline.OnCluster | application_manager/plugins/sahara_hdfs/plugin.py:138-148 | master and workers; `Lifecycle.OnClusterQuiet`, `OnClusterSucceeds` and `OnClusterTail` state it |
| Pipeline.Prepare | application_manager/plugins/sahara_hdfs/plugin.py:150-169 | parsing and staging paths; `Lifecycle.JobParamsFailureIsLogged` states its failure |
| Pipeline.Staged | application_manager/plugins/sahara_hdfs/plugin.py:171-182 | staging and downloads; `StagedQuiet`, `StagedSucceeds` and `StagedTail` state it |
| Pipeline.RunJob | application_manager/plugins/sahara_hdfs/plugin.py:184-207 | remote copies, listings, submit, copy back and upload; `RunJobQuiet` and `RunJobSucceeds` state it |
| Pipeline.StartApplicationRun | application_manager/plugins/sahara_hdfs/plugin.py:67-218 | `start_application` as a value; `Lifecycle.RunStates`, `RunOutcome`, `CreateOnlyWhenNotFound` and `SuccessEndsWithUpload` state it and `Executor.StartApplication` performs it |
| Pipeline.DownloadsStop | application_manager/plugins/sahara_hdfs/plugin.py:269-274 | once a download raises, later paths are not attempted |
| Pipeline.DownloadsOk | application_manager/plugins/sahara_hdfs/plugin.py:269-274 | the input downloads succeed exactly when no path's download raises |
| Pipeline.RunJobQuiet | application_manager/plugins/sahara_hdfs/plugin.py:184-207 | from the remote directory to the upload, no cluster is created and the only state set is `"OK"`, only on success |
| Pipeline.RunJobSucceeds | application_manager/plugins/sahara_hdfs/plugin.py:184-207 | that stretch succeeds exactly when both `os.listdir` calls succeed, the binary directory lists a file (else `IndexError`) and the upload goes through; it then ends with submit, copy back, upload and `"OK"` |
| Pipeline.StagedQuiet | application_manager/plugins/sahara_hdfs/plugin.py:171-207 | from the staging directories on, no cluster is created and only `"OK"` is set, only on success |
| Pipeline.StagedSucceeds | application_manager/plugins/sahara_hdfs/plugin.py:171-207 | that stretch succeeds exactly when every input download, the binary download, both directory listings and the upload go through |
| Pipeline.StagedTail | application_manager/plugins/sahara_hdfs/plugin.py:171-207 | a successful staging stretch ends with submit, copy back, upload and `"OK"` |
| Lifecycle.OnClusterQuiet | application_manager/plugins/sahara_hdfs/plugin.py:138-207 | once a cluster id is known, no cluster is created and only `"OK"` is set, only on success |
| Lifecycle.OnClusterSucceeds | application_manager/plugins/sahara_hdfs/plugin.py:138-207 | once a cluster id is known, the run succeeds exactly when master, workers, argument parsing, binary URL, downloads, directory listings and upload all go through |
| Lifecycle.OnClusterTail | application_manager/plugins/sahara_hdfs/plugin.py:138-207 | success after the cluster id ends with submit, copy back, upload and `"OK"` |
| Lifecycle.ClusterIdOf | application_manager/plugins/sahara_hdfs/plugin.py:119-138 | the id used is non-empty; it equals the lookup's id when that is truthy and the creation's id when creation is needed and returns a truthy id; there is no id exactly when a client cannot be built, the lookup raises, or creation is needed and raises or returns a falsy id |
| Lifecycle.ConnectEndsOk | application_manager/plugins/sahara_hdfs/plugin.py:207 | a try block that raises nothing leaves `"OK"` as the last state set, whatever effects came before it |
| Lifecycle.NewClusterQuiet | application_manager/plugins/sahara_hdfs/plugin.py:122-212 | creation is attempted exactly once; a falsy created id sets `"Error"` (the else branch) |
| Lifecycle.NewClusterSucceeds | application_manager/plugins/sahara_hdfs/plugin.py:122-212 | after creation, the run succeeds exactly when creation returns a truthy id and the rest goes through |
| Lifecycle.FindClusterQuiet | application_manager/plugins/sahara_hdfs/plugin.py:115-138 | a cluster is created exactly when the lookup by size returns a falsy id |
| Lifecycle.FindClusterSucceeds | application_manager/plugins/sahara_hdfs/plugin.py:115-207 | with both clients open, the lookup stretch succeeds exactly when the whole run does |
| Lifecycle.ConnectQuiet | application_manager/plugins/sahara_hdfs/plugin.py:101-138 | building the connector and the clients sets no state; the later states are as for the lookup |
| Lifecycle.RunningFirst | application_manager/plugins/sahara_hdfs/plugin.py:69 | `"Running"`, set first, is the first state and creates nothing |
| Lifecycle.TryBlockStates | application_manager/plugins/sahara_hdfs/plugin.py:68-214 | the try block sets `"Running"`, then `"OK"` on success or `"Error"` when no cluster is created, and creates at most one cluster |
| Lifecycle.TryBlockSucceeds | application_manager/plugins/sahara_hdfs/plugin.py:68-214 | the try block completes exactly when the run succeeds, and then ends with the upload and `"OK"` |
| Lifecycle.RunStates | application_manager/plugins/sahara_hdfs/plugin.py:67-218 | a run sets `"Running"` first, then `["OK"]` on success, `["Error", "Error"]` when no cluster could be created, and `["Error"]` on any other failure |
| Lifecycle.RunOutcome | application_manager/plugins/sahara_hdfs/plugin.py:67-218 | the run returns `"OK"` exactly when it succeeds, logs an exception exactly when it fails, and ends in state `"OK"` or `"Error"` accordingly |
| Lifecycle.CreateOnlyWhenNotFound | application_manager/plugins/sahara_hdfs/plugin.py:119-132 | a run creates one cluster when the lookup by size returns a falsy id, and none otherwise |
| Lifecycle.SuccessEndsWithUpload | application_manager/plugins/sahara_hdfs/plugin.py:196-207 | a successful run ends with the submit command, the copy back, the Swift upload and then `"OK"` |
| Lifecycle.NoClusterNoStaging | application_manager/plugins/sahara_hdfs/plugin.py:209-218 | when creation returns no id, nothing is staged: the run is the cluster steps, then `"Error"` twice, and it logs `ClusterNotCreatedException` |
| Lifecycle.CreationRejected | application_manager/plugins/sahara_hdfs/plugin.py:122-135 | any exception from creation ends the run right after the attempt, with nothing staged or submitted, logging a Sahara API error as "Could not create clusters" and any other exception as raised |
| Lifecycle.JobParamsFailureIsLogged | application_manager/plugins/sahara_hdfs/plugin.py:139-158 | when argument parsing fails, the run stops after master and workers, before any directory or download, and logs the parser's exception |
| SaharaExecutor.Executor.constructor | application_manager/plugins/sahara_hdfs/plugin.py:45-49 | a new executor has state `"None"`, both times `-1` and no calls made |
| SaharaExecutor.Executor.GetApplicationState | application_manager/plugins/sahara_hdfs/plugin.py:51-54 | returns the name of the state last set (`"None"` before any) |
| SaharaExecutor.Executor.UpdateApplicationState | application_manager/plugins/sahara_hdfs/plugin.py:56-59 | stores the state name and records the update; the times are untouched |
| SaharaExecutor.Executor.GetApplicationExecutionTime | application_manager/plugins/sahara_hdfs/plugin.py:61-62 | returns `-1`, the value that is never reassigned |
| SaharaExecutor.Executor.GetApplicationStartTime | application_manager/plugins/sahara_hdfs/plugin.py:64-65 | returns `-1` |
| SaharaExecutor.Executor.GetApplicationTime | application_manager/plugins/sahara_hdfs/plugin.py:220-221 | returns `-1` |
| SaharaExecutor.Executor.CreateClusterCall | application_manager/plugins/sahara_hdfs/plugin.py:223-237 | makes one creation call with the size twice, the broker's key and the slave group twice, rewrites a Sahara API error, and sets no state |
| SaharaExecutor.Executor.DownloadFromSwift | application_manager/plugins/sahara_hdfs/plugin.py:269-274 | downloads the paths in order and stops at the first that raises, exactly as `Downloads`, setting no state |
| SaharaExecutor.Executor.SubmitJob | application_manager/plugins/sahara_hdfs/plugin.py:289-302 | lists the input directory first: when the listing raises, it fails with that exception and does nothing else; otherwise it runs the built `spark-submit` command on the master with the broker's key and does not fail; the application state is untouched either way |
| SaharaExecutor.Executor.RunJobStep | application_manager/plugins/sahara_hdfs/plugin.py:184-207 | performs exactly the effects and failure of `Pipeline.RunJob`; leaves `"OK"` on success and the state untouched on failure |
| SaharaExecutor.Executor.CollectOutput | application_manager/plugins/sahara_hdfs/plugin.py:198-207 | copies the output back to the broker, then uploads it; the upload's exception is the step's failure, and `"OK"` is set exactly when the upload succeeds |
| SaharaExecutor.Executor.StageStep | application_manager/plugins/sahara_hdfs/plugin.py:171-182 | performs exactly the effects and failure of `Pipeline.Staged`; `"OK"` on success, state untouched on failure |
| SaharaExecutor.Executor.PrepareStep | application_manager/plugins/sahara_hdfs/plugin.py:150-169 | performs exactly the effects and failure of `Pipeline.Prepare` (parse, binary path, staging paths); `"OK"` on success, state untouched on failure |
| SaharaExecutor.Executor.OnClusterStep | application_manager/plugins/sahara_hdfs/plugin.py:138-148 | performs exactly the effects and failure of `Pipeline.OnCluster`; `"OK"` on success, state untouched on failure |
| SaharaExecutor.Executor.NewClusterStep | application_manager/plugins/sahara_hdfs/plugin.py:122-135 | performs exactly the effects and failure of `Pipeline.NewCluster`; on failure the state is `"Error"` when creation gave a falsy id (line 211) and untouched otherwise |
| SaharaExecutor.Executor.FindClusterStep | application_manager/plugins/sahara_hdfs/plugin.py:115-138 | performs exactly the effects and failure of `Pipeline.FindCluster`; on failure the state is `"Error"` when neither lookup nor creation gave an id, untouched otherwise |
| SaharaExecutor.Executor.ConnectStep | application_manager/plugins/sahara_hdfs/plugin.py:101-113 | performs exactly the effects and failure of `Pipeline.Connect`; on failure the state is `"Error"` when no cluster id was obtained, untouched otherwise |
| SaharaExecutor.Executor.StartApplication | application_manager/plugins/sahara_hdfs/plugin.py:67-218 | performs exactly the run `StartApplicationRun` (effects, result `"OK"` or none, logged exception) and keeps the state field equal to the state last set |
| Provider.GeneratedIdOf | application_manager/plugins/sahara_hdfs/plugin.py:336 | an application id has a generated id exactly when it starts with `"saharahdfs"` |
| Provider.AppId | application_manager/plugins/sahara_hdfs/plugin.py:336 | `"saharahdfs" + id`; `AppIdRoundTrip` and `AppIdInjective` state it |
| Provider.AppIdRoundTrip | application_manager/plugins/sahara_hdfs/plugin.py:336 | the generated id can be read back from the application id |
| Provider.AppIdOfGenerated | application_manager/plugins/sahara_hdfs/plugin.py:336 | every id with the prefix is the application id of what follows the prefix |
| Provider.AppIdInjective | application_manager/plugins/sahara_hdfs/plugin.py:336 | distinct generated ids give distinct application ids |
| Provider.SaharaHdfsProvider.constructor | application_manager/plugins/sahara_hdfs/plugin.py:317-319 | the list of Spark application ids starts empty |
| Provider.SaharaHdfsProvider.GetTitle | application_manager/plugins/sahara_hdfs/plugin.py:321-322 | the title is "OpenStack Sahara HDFS" |
| Provider.SaharaHdfsProvider.GetDescription | application_manager/plugins/sahara_hdfs/plugin.py:324-325 | the description is the plugin's fixed sentence |
| Provider.SaharaHdfsProvider.Execute | application_manager/plugins/sahara_hdfs/plugin.py:334-342 | returns `"saharahdfs" + <generated id>` and a fresh executor in state `"None"` that has made no calls |

## Left out

- Threads and locks: the `RLock` around the state (lines 47-59) and the
  thread `execute` starts (lines 337-341) are not modelled. `Execute`
  returns the executor before `start_application` runs, and the run is a
  separate method call.
- The text of the shell commands of `_mkdir`, `_remote_command` and
  `_remote_copy` is not modelled. Each is one effect carrying its
  arguments, and it never raises, because `subprocess.call` return codes
  are ignored.
- `_push_to_hdfs` and `_pull_from_hdfs` are never called. The HDFS paths
  they would use are computed in `StagingOf` and not used further.
- The OpenStack connector, the Sahara and Swift clients and `ID_Generator`
  are not part of this model. What they return or raise is given by the
  `Env` value, and the generated id is a parameter of `Execute`.
- `_download_from_swift` tests `os.path.isdir` on each Swift path and then
  downloads either a directory or a file. Both are modelled as one download
  effect, and the local file system is not modelled.
- `os.listdir` of the staged binary and input directories (lines 195
  and 291) is given in `Env` as a listing or the exception it raises. The
  listings are not recorded as effects. Directory contents and their order
  are not derived from the downloads and the `mkdir` calls.
- Every call's outcome is decided by the call and its arguments alone
  (`Env.raising` maps an effect to its exception). A call repeated with the
  same arguments, such as the same input URL downloaded twice, therefore
  fails both times or neither. The model cannot express a second attempt
  failing after the first succeeded. The "exactly when" lemmas
  (`Pipeline.DownloadsOk`, `Pipeline.StagedSucceeds`,
  `Lifecycle.OnClusterSucceeds`, `Lifecycle.RunOutcome`) hold in this world.
- `uuid.uuid4()` is not modelled. Its string form is a parameter in `Env`,
  and only the `[0:7]` slice is modelled.
- Workers are asked for, but their contents are not modelled, so the
  `KeyError` a worker without `'instance_id'` would raise (line 148) is not
  modelled.
- Missing keys in the request dictionary or in the master record would
  raise `KeyError` (lines 84-98, 139). `JobRequest` assumes every field is
  present.
- The Python types of exceptions raised by outside calls (the connector,
  the clients, `os.listdir`) are not modelled. `Env` gives each failing
  call one of the modelled `Exception` values, and the model only passes it
  on or logs it.
- Logging, `print` and `time.strftime` are not modelled. Only the logged
  exception itself is kept.
- The broker settings other than `key_path` and `public_key` (lines 72-81)
  are not modelled. They are only passed to the connector.
- `to_dict` (lines 327-332) reads `self.name`, which the class never sets,
  so it is not modelled.
- `start_application` never reads its `spark_applications_ids` and `app_id`
  parameters, so `StartApplication` does not take them.
