/** `start_application` as a value: every call into OpenStack, Swift and
    the shell is an effect whose outcome the environment decides, and the
    procedure is the trace of effects it performs. */
module Pipeline {
  import opened Exceptions
  import opened PyStrings
  import opened SwiftArgs
  import opened SparkSubmit
  import opened StagingPaths

  /** The values `application_state` takes. */
  datatype AppState = NotStarted | Running | OK | Error

  /** The strings the source stores in `application_state`. */
  function StateName(s: AppState): string {
    match s
    case NotStarted => "None"
    case Running => "Running"
    case OK => "OK"
    case Error => "Error"
  }

  /** The request fields `start_application` reads from `data`. */
  datatype JobRequest = JobRequest(
    netId: string, masterNg: string, slaveNg: string, openstackPlugin: string,
    jobType: string, version: string, clusterSize: int, args: seq<string>,
    mainClass: string, jobBinaryName: string, jobBinaryUrl: string, imageId: string)

  /** What `_create_cluster` passes to `connector.create_cluster`. */
  datatype ClusterRequest = ClusterRequest(
    reqSize: int, predSize: int, publicKey: string, netId: string, imageId: string,
    plugin: string, version: string, masterNg: string, slaveNg: string, opSlaveNg: string)

  /** Every call the executor makes outside itself, in the order made. */
  datatype Effect =
    | SetState(state: AppState)
    | OpenConnector
    | OpenSaharaClient
    | OpenSwiftClient
    | LookupCluster(size: int)
    | CreateCluster(request: ClusterRequest)
    | GetMaster(clusterId: string)
    | GetWorkers(clusterId: string)
    | MakeDir(path: string)
    | Download(swiftPath: string, localDir: string, container: string)
    | RemoteCommand(key: string, host: string, command: string)
    | RemoteCopy(key: string, source: string, destination: string)
    | Upload(localDir: string, swiftPath: string, container: string)

  /** How the world answers: the broker's key settings, which effects raise,
      what the connector returns, the UUID drawn and what `os.listdir` gives
      (or raises) for the staged binary and input directories. A cluster id
      is `None` when the connector gives nothing back. */
  datatype Env = Env(
    keyPath: string, publicKey: string,
    raising: map<Effect, Exception>,
    lookup: Result<Option<string>>,
    create: Result<Option<string>>,
    master: Result<string>,
    workers: Result<seq<string>>,
    uuid: string,
    binaryListing: Result<seq<string>>,
    inputListing: Result<seq<string>>)

  /** Python truthiness of a cluster id: `None` and `""` are false. */
  predicate Truthy(id: Option<string>) {
    id.Some? && id.value != ""
  }

  /** The request `_create_cluster` receives: the size twice, the broker's
      public key, and the slave node group twice. */
  function ClusterRequestOf(req: JobRequest, env: Env): ClusterRequest {
    ClusterRequest(req.clusterSize, req.clusterSize, env.publicKey, req.netId, req.imageId,
                   req.openstackPlugin, req.version, req.masterNg, req.slaveNg, req.slaveNg)
  }

  /** `_create_cluster`: a Sahara API error is raised again with a fixed
      message; any other outcome passes through. */
  function CreationOutcome(create: Result<Option<string>>): (r: Result<Option<string>>)
    ensures create.Raise? && create.exception.SaharaAPIException? ==>
              r == Raise(SaharaAPIException("Could not create clusters"))
    ensures !(create.Raise? && create.exception.SaharaAPIException?) ==> r == create
  {
    match create
    case Raise(SaharaAPIException(_)) => Raise(SaharaAPIException("Could not create clusters"))
    case _ => create
  }

  /** The effects a stretch of the procedure performed, and the exception
      that ended it, if one did. */
  datatype Trace = Trace(effects: seq<Effect>, failure: Option<Exception>)

  function Raised(env: Env, e: Effect): Option<Exception> {
    if e in env.raising then Some(env.raising[e]) else None
  }

  /** `_download_from_swift`: one download per path, in order, stopping at
      the first that raises. */
  function Downloads(env: Env, paths: seq<string>, localDir: string, container: string): Trace {
    if paths == [] then Trace([], None)
    else
      var pre := Downloads(env, paths[..|paths| - 1], localDir, container);
      if pre.failure.Some? then pre
      else
        var e := Download(paths[|paths| - 1], localDir, container);
        Trace(pre.effects + [e], Raised(env, e))
  }

  /** `rest` performed after `pre`. */
  function Then(pre: seq<Effect>, rest: Trace): Trace {
    Trace(pre + rest.effects, rest.failure)
  }

  /** A stretch run after `start` and `pre`. */
  lemma ThenAfter(start: seq<Effect>, pre: seq<Effect>, rest: Trace)
    ensures start + Then(pre, rest).effects == start + pre + rest.effects
  {
  }

  /** The try block of `start_application`: `"Running"` first. */
  function TryBlock(req: JobRequest, env: Env): Trace {
    Then([SetState(Running)], Connect(req, env))
  }

  /** The connector, the Sahara and Swift clients, then the cluster. */
  function Connect(req: JobRequest, env: Env): Trace {
    if OpenConnector in env.raising then Trace([OpenConnector], Raised(env, OpenConnector))
    else if OpenSaharaClient in env.raising then
      Trace([OpenConnector, OpenSaharaClient], Raised(env, OpenSaharaClient))
    else if OpenSwiftClient in env.raising then
      Trace([OpenConnector, OpenSaharaClient, OpenSwiftClient], Raised(env, OpenSwiftClient))
    else Then([OpenConnector, OpenSaharaClient, OpenSwiftClient], FindCluster(req, env))
  }

  /** The lookup by size: a truthy id is used, otherwise a cluster is
      created. */
  function FindCluster(req: JobRequest, env: Env): Trace {
    var t := [LookupCluster(req.clusterSize)];
    match env.lookup
    case Raise(e) => Trace(t, Some(e))
    case Ok(found) =>
      if Truthy(found) then Then(t, OnCluster(req, env, found.value))
      else Then(t, NewCluster(req, env))
  }

  /** Creation through `_create_cluster`; a falsy id sets `"Error"` and
      raises `ClusterNotCreatedException`. */
  function NewCluster(req: JobRequest, env: Env): Trace {
    var t := [CreateCluster(ClusterRequestOf(req, env))];
    match CreationOutcome(env.create)
    case Raise(e) => Trace(t, Some(e))
    case Ok(created) =>
      if Truthy(created) then Then(t, OnCluster(req, env, created.value))
      else Trace(t + [SetState(Error)], Some(ClusterNotCreatedException))
  }

  /** The try block once a cluster id is known: master and workers. */
  function OnCluster(req: JobRequest, env: Env, clusterId: string): Trace {
    var t := [GetMaster(clusterId)];
    match env.master
    case Raise(e) => Trace(t, Some(e))
    case Ok(master) =>
      var t := t + [GetWorkers(clusterId)];
      match env.workers
      case Raise(e) => Trace(t, Some(e))
      case Ok(_) => Then(t, Prepare(req, env, master))
  }

  /** The job arguments and the binary path, then the staging. */
  function Prepare(req: JobRequest, env: Env, master: string): Trace {
    match JobParamsOf(req.args)
    case Raise(e) => Trace([], Some(e))
    case Ok(params) =>
      match SwiftPath(req.jobBinaryUrl)
      case Raise(e) => Trace([], Some(e))
      case Ok(binaryPath) => Staged(req, env, master, StagingOf(ExecId(env.uuid), master), params, binaryPath)
  }

  /** The try block from the staging directories to the binary download. */
  function Staged(req: JobRequest, env: Env, master: string, p: Staging, params: JobParams, binaryPath: string): Trace {
    var t := [MakeDir(p.localInput), MakeDir(p.localBinary)];
    var d := Downloads(env, params.inPaths, p.localInput, params.container);
    if d.failure.Some? then Then(t, d)
    else
      var bin := Download(binaryPath, p.localBinary, params.container);
      var t := t + d.effects + [bin];
      if bin in env.raising then Trace(t, Raised(env, bin))
      else Then(t, RunJob(req, env, master, p, params))
  }

  /** Both directory listings succeed and the binary directory lists a file. */
  predicate ListingsOk(env: Env) {
    env.binaryListing.Ok? && env.binaryListing.value != [] && env.inputListing.Ok?
  }

  /** The try block from the copies to the master node to the final upload:
      listing the binary directory raises or, when it is empty, indexing it
      raises `IndexError`; listing the input directory inside `_submit_job`
      may raise before the command runs. */
  function RunJob(req: JobRequest, env: Env, master: string, p: Staging, params: JobParams): Trace {
    var t := [RemoteCommand(env.keyPath, master, "mkdir -p " + p.local),
              RemoteCopy(env.keyPath, p.localInput, p.remote),
              RemoteCopy(env.keyPath, p.localBinary, p.remote)];
    if env.binaryListing.Raise? then Trace(t, Some(env.binaryListing.exception))
    else if env.binaryListing.value == [] then Trace(t, Some(IndexError))
    else if env.inputListing.Raise? then Trace(t, Some(env.inputListing.exception))
    else
      var up := Upload(p.localOutput, params.outPath, params.container);
      var t := t + [RemoteCommand(env.keyPath, master, SubmitCommandOf(req, env, p, params)),
                    RemoteCopy(env.keyPath, p.remoteOutput, p.local), up];
      if up in env.raising then Trace(t, Raised(env, up))
      else Trace(t + [SetState(OK)], None)
  }

  /** The command `_submit_job` runs: the first file of the staged binary
      directory, the listing of the staged input directory, the output
      directory and the plain job parameters. */
  function SubmitCommandOf(req: JobRequest, env: Env, p: Staging, params: JobParams): string
    requires ListingsOk(env)
  {
    SubmitCommand(req.mainClass, p.localBinary + env.binaryListing.value[0], p.localInput, p.localOutput,
                  env.inputListing.value, params.others)
  }

  /** One run of `start_application`: its effects, what it returns (`"OK"`
      or nothing) and the exception it logged. */
  datatype Run = Run(effects: seq<Effect>, result: Option<string>, logged: Option<Exception>)

  /** `start_application`: the try block, and on any exception the state
      `"Error"` and no result. */
  function StartApplicationRun(req: JobRequest, env: Env): Run {
    var t := TryBlock(req, env);
    match t.failure
    case None => Run(t.effects, Some("OK"), None)
    case Some(e) => Run(t.effects + [SetState(Error)], None, Some(e))
  }

  // ---------------------------------------------------------------------------
  // What a run does

  /** The states set among `effects`, in order. */
  function States(effects: seq<Effect>): seq<AppState> {
    if effects == [] then []
    else
      var e := effects[|effects| - 1];
      States(effects[..|effects| - 1]) + (if e.SetState? then [e.state] else [])
  }

  /** The state last set among `effects`; `"None"` when none was. */
  function LastState(effects: seq<Effect>): AppState {
    var s := States(effects);
    if s == [] then NotStarted else s[|s| - 1]
  }

  /** How many times a cluster was created among `effects`. */
  function Creations(effects: seq<Effect>): nat {
    if effects == [] then 0
    else Creations(effects[..|effects| - 1]) + (if effects[|effects| - 1].CreateCluster? then 1 else 0)
  }

  lemma StatesSnoc(a: seq<Effect>, e: Effect)
    ensures States(a + [e]) == States(a) + (if e.SetState? then [e.state] else [])
    ensures Creations(a + [e]) == Creations(a) + (if e.CreateCluster? then 1 else 0)
  {
    assert (a + [e])[..|a|] == a;
  }

  /** The states and creations of two stretches run one after the other. */
  lemma {:induction false} StatesAppend(a: seq<Effect>, b: seq<Effect>)
    ensures States(a + b) == States(a) + States(b)
    ensures Creations(a + b) == Creations(a) + Creations(b)
  {
    if b == [] {
      assert a + b == a;
    } else {
      var b', e := b[..|b| - 1], b[|b| - 1];
      var x := if e.SetState? then [e.state] else [];
      assert b == b' + [e];
      assert a + b == (a + b') + [e];
      StatesAppend(a, b');
      StatesSnoc(a + b', e);
      StatesSnoc(b', e);
    }
  }

  /** Once a download has raised, later paths change nothing. */
  lemma {:induction false} DownloadsStop(env: Env, paths: seq<string>, n: nat, localDir: string, container: string)
    requires n <= |paths| && Downloads(env, paths[..n], localDir, container).failure.Some?
    ensures Downloads(env, paths, localDir, container) == Downloads(env, paths[..n], localDir, container)
  {
    if n < |paths| {
      var init := paths[..|paths| - 1];
      assert init[..n] == paths[..n];
      DownloadsStop(env, init, n, localDir, container);
    } else {
      assert paths[..n] == paths;
    }
  }

  /** Downloads set no state and create no cluster. */
  lemma {:induction false} DownloadsQuiet(env: Env, paths: seq<string>, localDir: string, container: string)
    ensures States(Downloads(env, paths, localDir, container).effects) == []
    ensures Creations(Downloads(env, paths, localDir, container).effects) == 0
  {
    if paths != [] {
      var init := paths[..|paths| - 1];
      DownloadsQuiet(env, init, localDir, container);
      var pre := Downloads(env, init, localDir, container);
      if pre.failure.None? {
        StatesSnoc(pre.effects, Download(paths[|paths| - 1], localDir, container));
      }
    }
  }

  /** The downloads all succeed exactly when none of the paths raises. */
  lemma {:induction false} DownloadsOk(env: Env, paths: seq<string>, localDir: string, container: string)
    ensures Downloads(env, paths, localDir, container).failure.None?
        <==> forall path :: path in paths ==> Download(path, localDir, container) !in env.raising
  {
    if paths != [] {
      var init, last := paths[..|paths| - 1], paths[|paths| - 1];
      DownloadsOk(env, init, localDir, container);
      assert forall x :: x in paths <==> x in init || x == last by {
        assert paths == init + [last];
      }
      var pre := Downloads(env, init, localDir, container);
      if pre.failure.Some? {
        var w :| w in init && Download(w, localDir, container) in env.raising;
        assert w in paths;
      }
    }
  }

  /** The end of the job stretch when it succeeds: the submit command, the
      copy of the output back to the broker, the upload, and `"OK"`. */
  function JobTail(req: JobRequest, env: Env, master: string, p: Staging, params: JobParams): seq<Effect>
    requires ListingsOk(env)
  {
    [RemoteCommand(env.keyPath, master, SubmitCommandOf(req, env, p, params)),
     RemoteCopy(env.keyPath, p.remoteOutput, p.local),
     Upload(p.localOutput, params.outPath, params.container),
     SetState(OK)]
  }

  /** The job stretch sets no state but `"OK"`, and that only when it
      succeeds; it creates no cluster. */
  lemma RunJobQuiet(req: JobRequest, env: Env, master: string, p: Staging, params: JobParams)
    ensures var r := RunJob(req, env, master, p, params);
      States(r.effects) == (if r.failure.None? then [OK] else []) && Creations(r.effects) == 0
  {
    var t := [RemoteCommand(env.keyPath, master, "mkdir -p " + p.local),
              RemoteCopy(env.keyPath, p.localInput, p.remote),
              RemoteCopy(env.keyPath, p.localBinary, p.remote)];
    if !ListingsOk(env) {
      QuietEffects(t);
    } else {
      var up := Upload(p.localOutput, params.outPath, params.container);
      var t' := t + [RemoteCommand(env.keyPath, master, SubmitCommandOf(req, env, p, params)),
                     RemoteCopy(env.keyPath, p.remoteOutput, p.local), up];
      QuietEffects(t');
      StatesSnoc(t', SetState(OK));
    }
  }

  /** The job stretch succeeds exactly when both listings succeed, the
      binary directory lists a file and the upload goes through; it then
      ends with the submit command, the copy back, the upload and `"OK"`. */
  lemma RunJobSucceeds(req: JobRequest, env: Env, master: string, p: Staging, params: JobParams)
    ensures var r := RunJob(req, env, master, p, params);
      && (r.failure.None? <==>
            ListingsOk(env) && Upload(p.localOutput, params.outPath, params.container) !in env.raising)
      && (r.failure.None? ==> |r.effects| >= 4 && r.effects[|r.effects| - 4..] == JobTail(req, env, master, p, params))
  {
    var r := RunJob(req, env, master, p, params);
    if r.failure.None? {
      assert r.effects[|r.effects| - 4..] == r.effects[3..];
    }
  }

  /** What the staging stretch needs to succeed: every download goes
      through, and so does the job stretch. */
  predicate StagedOk(env: Env, p: Staging, params: JobParams, binaryPath: string) {
    && (forall path :: path in params.inPaths ==> Download(path, p.localInput, params.container) !in env.raising)
    && Download(binaryPath, p.localBinary, params.container) !in env.raising
    && ListingsOk(env)
    && Upload(p.localOutput, params.outPath, params.container) !in env.raising
  }

  /** The staging stretch sets no state but `"OK"`, and that only when it
      succeeds; it creates no cluster. */
  lemma StagedQuiet(req: JobRequest, env: Env, master: string, p: Staging, params: JobParams, binaryPath: string)
    ensures var s := Staged(req, env, master, p, params, binaryPath);
      States(s.effects) == (if s.failure.None? then [OK] else []) && Creations(s.effects) == 0
  {
    var t := [MakeDir(p.localInput), MakeDir(p.localBinary)];
    var d := Downloads(env, params.inPaths, p.localInput, params.container);
    DownloadsQuiet(env, params.inPaths, p.localInput, params.container);
    QuietEffects(t);
    if d.failure.Some? {
      QuietThen(t, d);
    } else {
      var bin := Download(binaryPath, p.localBinary, params.container);
      QuietEffects([bin]);
      QuietAppend(t, d.effects);
      QuietAppend(t + d.effects, [bin]);
      if bin !in env.raising {
        RunJobQuiet(req, env, master, p, params);
        QuietThen(t + d.effects + [bin], RunJob(req, env, master, p, params));
      }
    }
  }

  /** The staging stretch succeeds exactly when every download, the job
      stretch and the upload go through. */
  lemma StagedSucceeds(req: JobRequest, env: Env, master: string, p: Staging, params: JobParams, binaryPath: string)
    ensures Staged(req, env, master, p, params, binaryPath).failure.None? <==> StagedOk(env, p, params, binaryPath)
  {
    DownloadsOk(env, params.inPaths, p.localInput, params.container);
    RunJobSucceeds(req, env, master, p, params);
  }

  /** A successful staging stretch ends as the job stretch does. */
  lemma StagedTail(req: JobRequest, env: Env, master: string, p: Staging, params: JobParams, binaryPath: string)
    ensures var s := Staged(req, env, master, p, params, binaryPath);
      s.failure.None? ==> ListingsOk(env) && |s.effects| >= 4
                          && s.effects[|s.effects| - 4..] == JobTail(req, env, master, p, params)
  {
    var s := Staged(req, env, master, p, params, binaryPath);
    if s.failure.None? {
      var d := Downloads(env, params.inPaths, p.localInput, params.container);
      var bin := Download(binaryPath, p.localBinary, params.container);
      RunJobSucceeds(req, env, master, p, params);
      ThenTail([MakeDir(p.localInput), MakeDir(p.localBinary)] + d.effects + [bin],
               RunJob(req, env, master, p, params));
    }
  }

  /** A stretch that sets some state decides the last one. */
  lemma LastStateAppend(a: seq<Effect>, b: seq<Effect>)
    requires States(b) != []
    ensures LastState(a + b) == LastState(b)
  {
    StatesAppend(a, b);
  }

  /** Effects that set no state and create no cluster. */
  predicate Quiet(es: seq<Effect>) {
    States(es) == [] && Creations(es) == 0
  }

  lemma QuietAppend(a: seq<Effect>, b: seq<Effect>)
    requires Quiet(a) && Quiet(b)
    ensures Quiet(a + b)
  {
    StatesAppend(a, b);
  }

  /** A quiet stretch before `rest` changes neither its states nor its
      creations. */
  lemma QuietThen(pre: seq<Effect>, rest: Trace)
    requires Quiet(pre)
    ensures States(Then(pre, rest).effects) == States(rest.effects)
    ensures Creations(Then(pre, rest).effects) == Creations(rest.effects)
  {
    StatesAppend(pre, rest.effects);
  }

  /** Whatever runs before `rest`, the run ends as `rest` does. */
  lemma ThenTail(pre: seq<Effect>, rest: Trace)
    requires |rest.effects| >= 4
    ensures Then(pre, rest).effects[|Then(pre, rest).effects| - 4..] == rest.effects[|rest.effects| - 4..]
  {
  }

  /** Effects none of which sets a state or creates a cluster are quiet. */
  lemma {:induction false} QuietEffects(es: seq<Effect>)
    requires forall k :: 0 <= k < |es| ==> !es[k].SetState? && !es[k].CreateCluster?
    ensures Quiet(es)
  {
    if es != [] {
      QuietEffects(es[..|es| - 1]);
    }
  }
}
