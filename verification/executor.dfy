/** `OpenStackSparkStandaloneApplicationExecutor`: the state field its
    getters and setter read and write, and `start_application` carried out
    step by step against an environment that answers every outside call.
    Each step method is proved to perform exactly the effects of the
    matching stretch of the `Pipeline` model. */
module SaharaExecutor {
  import opened Exceptions
  import opened SwiftArgs
  import opened SparkSubmit
  import opened StagingPaths
  import opened Pipeline
  import opened Lifecycle

  /** Setting a state makes it the last one; any other effect keeps it. */
  lemma LastStateSnoc(a: seq<Effect>, e: Effect)
    ensures LastState(a + [e]) == if e.SetState? then e.state else LastState(a)
  {
    StatesSnoc(a, e);
  }

  class Executor {
    var applicationState: string
    var applicationTime: int
    var startTime: int
    /** Every call this executor has made outside itself, state updates
        included, in order. */
    ghost var effects: seq<Effect>

    /** The state field holds the name of the state last set, and neither
        time is ever reassigned. */
    ghost predicate Valid()
      reads this
    {
      && applicationState == StateName(LastState(effects))
      && applicationTime == -1 && startTime == -1
    }

    /** Neither time has been reassigned. */
    twostate predicate Unchanged()
      reads this
    {
      applicationTime == old(applicationTime) && startTime == old(startTime)
    }

    constructor()
      ensures Valid() && effects == []
      ensures applicationState == "None" && applicationTime == -1 && startTime == -1
    {
      applicationState := "None";
      applicationTime := -1;
      startTime := -1;
      effects := [];
    }

    method GetApplicationState() returns (state: string)
      requires Valid()
      ensures state == StateName(LastState(effects))
    {
      state := applicationState;
    }

    method UpdateApplicationState(state: AppState)
      modifies this
      ensures effects == old(effects) + [SetState(state)]
      ensures applicationState == StateName(state) == StateName(LastState(effects))
      ensures Unchanged()
    {
      applicationState := StateName(state);
      effects := effects + [SetState(state)];
      LastStateSnoc(old(effects), SetState(state));
    }

    method GetApplicationExecutionTime() returns (t: int)
      requires Valid()
      ensures t == -1
    {
      t := applicationTime;
    }

    method GetApplicationStartTime() returns (t: int)
      requires Valid()
      ensures t == -1
    {
      t := startTime;
    }

    method GetApplicationTime() returns (t: int)
      requires Valid()
      ensures t == -1
    {
      t := applicationTime;
    }

    /** One outside call; it raises when the environment says it does. */
    method Perform(env: Env, e: Effect) returns (exc: Option<Exception>)
      modifies this
      ensures effects == old(effects) + [e] && exc == Raised(env, e)
      ensures applicationState == old(applicationState) && Unchanged()
    {
      effects := effects + [e];
      exc := if e in env.raising then Some(env.raising[e]) else None;
    }

    /** `_create_cluster`: a Sahara API error comes back with the message
        "Could not create clusters"; any other outcome is passed on. */
    method CreateClusterCall(req: JobRequest, env: Env) returns (r: Result<Option<string>>)
      modifies this
      ensures applicationState == old(applicationState)
      ensures Unchanged() && effects == old(effects) + [CreateCluster(ClusterRequestOf(req, env))]
      ensures r == CreationOutcome(env.create)
    {
      var _ := Perform(env, CreateCluster(ClusterRequestOf(req, env)));
      if env.create.Raise? && env.create.exception.SaharaAPIException? {
        r := Raise(SaharaAPIException("Could not create clusters"));
      } else {
        r := env.create;
      }
    }

    /** `_download_from_swift`: one download per path, in order; the first
        that raises ends the loop. */
    method DownloadFromSwift(env: Env, paths: seq<string>, localDir: string, container: string)
      returns (failure: Option<Exception>)
      modifies this
      ensures applicationState == old(applicationState)
      ensures Unchanged()
      ensures effects == old(effects) + Downloads(env, paths, localDir, container).effects
      ensures failure == Downloads(env, paths, localDir, container).failure
    {
      failure := None;
      ghost var done: seq<Effect> := [];
      var i := 0;
      while i < |paths|
        invariant 0 <= i <= |paths| && Unchanged() && applicationState == old(applicationState)
        invariant effects == old(effects) + done && failure.None?
        invariant Downloads(env, paths[..i], localDir, container) == Trace(done, None)
      {
        failure := Perform(env, Download(paths[i], localDir, container));
        done := done + [Download(paths[i], localDir, container)];
        assert paths[..i + 1][..i] == paths[..i];
        assert Downloads(env, paths[..i + 1], localDir, container) == Trace(done, failure);
        if failure.Some? {
          DownloadsStop(env, paths, i + 1, localDir, container);
          return;
        }
        i := i + 1;
      }
      assert paths[..i] == paths;
    }

    /** `_submit_job`: the spark-submit command, run on the master node. */
    method SubmitJob(req: JobRequest, env: Env, master: string, p: Staging, params: JobParams)
      returns (failure: Option<Exception>)
      requires env.binaryListing.Ok? && env.binaryListing.value != []
      modifies this
      ensures applicationState == old(applicationState)
      ensures Unchanged()
      ensures failure.Some? <==> env.inputListing.Raise?
      ensures env.inputListing.Raise? ==> failure == Some(env.inputListing.exception) && effects == old(effects)
      ensures env.inputListing.Ok? ==>
                effects == old(effects) + [RemoteCommand(env.keyPath, master, SubmitCommandOf(req, env, p, params))]
    {
      if env.inputListing.Raise? {
        return Some(env.inputListing.exception);
      }
      var cmd := BuildSubmitCommand(req.mainClass, p.localBinary + env.binaryListing.value[0], p.localInput,
                                    p.localOutput, env.inputListing.value, params.others);
      var _ := Perform(env, RemoteCommand(env.keyPath, master, cmd));
      failure := None;
    }
    method RunJobStep(req: JobRequest, env: Env, master: string, p: Staging, params: JobParams)
      returns (failure: Option<Exception>)
      modifies this
      ensures Unchanged()
      ensures effects == old(effects) + RunJob(req, env, master, p, params).effects
      ensures failure == RunJob(req, env, master, p, params).failure
      ensures failure.None? ==> applicationState == "OK"
      ensures failure.Some? ==> applicationState == old(applicationState)
    {
      var t := [RemoteCommand(env.keyPath, master, "mkdir -p " + p.local),
                RemoteCopy(env.keyPath, p.localInput, p.remote),
                RemoteCopy(env.keyPath, p.localBinary, p.remote)];
      var _ := Perform(env, t[0]);
      var _ := Perform(env, t[1]);
      var _ := Perform(env, t[2]);
      assert effects == old(effects) + t;
      ghost var run := RunJob(req, env, master, p, params);
      if env.binaryListing.Raise? {
        assert run == Trace(t, Some(env.binaryListing.exception));
        return Some(env.binaryListing.exception);
      }
      if env.binaryListing.value == [] {
        assert run == Trace(t, Some(IndexError));
        return Some(IndexError);
      }
      failure := SubmitJob(req, env, master, p, params);
      if failure.Some? {
        assert run == Trace(t, Some(env.inputListing.exception));
        return;
      }
      var cmd := RemoteCommand(env.keyPath, master, SubmitCommandOf(req, env, p, params));
      assert effects == old(effects) + t + [cmd];
      failure := CollectOutput(env, p, params);
      var t' := t + [cmd, RemoteCopy(env.keyPath, p.remoteOutput, p.local),
                     Upload(p.localOutput, params.outPath, params.container)];
      var rest := if failure.None? then [SetState(OK)] else [];
      ThenAfter(old(effects), t, Trace([cmd, t'[4], t'[5]] + rest, failure));
      assert run == Trace(t' + rest, failure);
    }

    /** The end of a job run: the output is copied back to the broker
        and uploaded to Swift, and only then is the state `"OK"`. */
    method CollectOutput(env: Env, p: Staging, params: JobParams) returns (failure: Option<Exception>)
      modifies this
      ensures Unchanged()
      ensures var up := Upload(p.localOutput, params.outPath, params.container);
        failure == Raised(env, up)
        && effects == old(effects) + [RemoteCopy(env.keyPath, p.remoteOutput, p.local), up]
                                   + (if failure.None? then [SetState(OK)] else [])
      ensures applicationState == (if failure.None? then "OK" else old(applicationState))
    {
      var _ := Perform(env, RemoteCopy(env.keyPath, p.remoteOutput, p.local));
      failure := Perform(env, Upload(p.localOutput, params.outPath, params.container));
      if failure.None? {
        UpdateApplicationState(OK);
      }
    }

    /** The staging directories, the input downloads and the binary. */
    method StageStep(req: JobRequest, env: Env, master: string, p: Staging, params: JobParams, binaryPath: string)
      returns (failure: Option<Exception>)
      modifies this
      ensures Unchanged()
      ensures effects == old(effects) + Staged(req, env, master, p, params, binaryPath).effects
      ensures failure == Staged(req, env, master, p, params, binaryPath).failure
      ensures failure.None? ==> applicationState == "OK"
      ensures failure.Some? ==> applicationState == old(applicationState)
    {
      var t := [MakeDir(p.localInput), MakeDir(p.localBinary)];
      var _ := Perform(env, t[0]);
      var _ := Perform(env, t[1]);
      ghost var d := Downloads(env, params.inPaths, p.localInput, params.container);
      failure := DownloadFromSwift(env, params.inPaths, p.localInput, params.container);
      assert effects == old(effects) + t + d.effects;
      if failure.Some? {
        assert Staged(req, env, master, p, params, binaryPath) == Then(t, d);
        return;
      }
      var bin := Download(binaryPath, p.localBinary, params.container);
      failure := Perform(env, bin);
      assert effects == old(effects) + (t + d.effects + [bin]);
      if failure.Some? {
        assert Staged(req, env, master, p, params, binaryPath) == Trace(t + d.effects + [bin], failure);
        return;
      }
      failure := RunJobStep(req, env, master, p, params);
      ThenAfter(old(effects), t + d.effects + [bin], RunJob(req, env, master, p, params));
      assert Staged(req, env, master, p, params, binaryPath) == Then(t + d.effects + [bin], RunJob(req, env, master, p, params));
    }

    /** Master and workers of a known cluster. */
    method OnClusterStep(req: JobRequest, env: Env, clusterId: string) returns (failure: Option<Exception>)
      modifies this
      ensures Unchanged()
      ensures effects == old(effects) + OnCluster(req, env, clusterId).effects
      ensures failure == OnCluster(req, env, clusterId).failure
      ensures failure.None? ==> applicationState == "OK"
      ensures failure.Some? ==> applicationState == old(applicationState)
    {
      var t := [GetMaster(clusterId), GetWorkers(clusterId)];
      var _ := Perform(env, t[0]);
      if env.master.Raise? {
        assert OnCluster(req, env, clusterId) == Trace([t[0]], Some(env.master.exception));
        return Some(env.master.exception);
      }
      var _ := Perform(env, t[1]);
      if env.workers.Raise? {
        assert OnCluster(req, env, clusterId) == Trace(t, Some(env.workers.exception));
        return Some(env.workers.exception);
      }
      failure := PrepareStep(req, env, env.master.value);
      ThenAfter(old(effects), t, Prepare(req, env, env.master.value));
      assert OnCluster(req, env, clusterId) == Then(t, Prepare(req, env, env.master.value));
    }

    /** `_get_job_params`, `_get_swift_path` on the binary URL and the
        staging paths of this execution. */
    method PrepareStep(req: JobRequest, env: Env, master: string) returns (failure: Option<Exception>)
      modifies this
      ensures Unchanged()
      ensures effects == old(effects) + Prepare(req, env, master).effects
      ensures failure == Prepare(req, env, master).failure
      ensures failure.None? ==> applicationState == "OK"
      ensures failure.Some? ==> applicationState == old(applicationState)
    {
      var p := StagingOf(ExecId(env.uuid), master);
      var parsed := GetJobParams(req.args);
      if parsed.Raise? {
        return Some(parsed.exception);
      }
      var binaryPath := GetSwiftPath(req.jobBinaryUrl);
      if binaryPath.Raise? {
        return Some(binaryPath.exception);
      }
      failure := StageStep(req, env, master, p, parsed.value, binaryPath.value);
    }

    /** Creation when the lookup found nothing. */
    method NewClusterStep(req: JobRequest, env: Env) returns (failure: Option<Exception>)
      modifies this
      ensures Unchanged()
      ensures effects == old(effects) + NewCluster(req, env).effects
      ensures failure == NewCluster(req, env).failure
      ensures failure.None? ==> applicationState == "OK"
      ensures var noId := env.create.Ok? && !Truthy(env.create.value);
        failure.Some? ==> applicationState == (if noId then "Error" else old(applicationState))
    {
      var t := [CreateCluster(ClusterRequestOf(req, env))];
      var created := CreateClusterCall(req, env);
      if created.Raise? {
        assert NewCluster(req, env) == Trace(t, Some(created.exception));
        return Some(created.exception);
      }
      if created.value.Some? && created.value.value != "" {
        failure := OnClusterStep(req, env, created.value.value);
        ThenAfter(old(effects), t, OnCluster(req, env, created.value.value));
        assert NewCluster(req, env) == Then(t, OnCluster(req, env, created.value.value));
      } else {
        UpdateApplicationState(Error);
        failure := Some(ClusterNotCreatedException);
        assert NewCluster(req, env) == Trace(t + [SetState(Error)], failure);
      }
    }

    /** The lookup by size, then the cluster found or a new one. */
    method FindClusterStep(req: JobRequest, env: Env) returns (failure: Option<Exception>)
      modifies this
      ensures Unchanged()
      ensures effects == old(effects) + FindCluster(req, env).effects
      ensures failure == FindCluster(req, env).failure
      ensures failure.None? ==> applicationState == "OK"
      ensures var noId := env.lookup.Ok? && !Truthy(env.lookup.value) && env.create.Ok? && !Truthy(env.create.value);
        failure.Some? ==> applicationState == (if noId then "Error" else old(applicationState))
    {
      var t := [LookupCluster(req.clusterSize)];
      var _ := Perform(env, t[0]);
      if env.lookup.Raise? {
        assert FindCluster(req, env) == Trace(t, Some(env.lookup.exception));
        return Some(env.lookup.exception);
      }
      var found := env.lookup.value;
      if found.Some? && found.value != "" {
        failure := OnClusterStep(req, env, found.value);
        ThenAfter(old(effects), t, OnCluster(req, env, found.value));
        assert FindCluster(req, env) == Then(t, OnCluster(req, env, found.value));
      } else {
        failure := NewClusterStep(req, env);
        ThenAfter(old(effects), t, NewCluster(req, env));
        assert FindCluster(req, env) == Then(t, NewCluster(req, env));
      }
    }

    /** The connector and the two clients, then the cluster. */
    method ConnectStep(req: JobRequest, env: Env) returns (failure: Option<Exception>)
      modifies this
      ensures Unchanged()
      ensures effects == old(effects) + Connect(req, env).effects
      ensures failure == Connect(req, env).failure
      ensures failure.None? ==> applicationState == "OK"
      ensures failure.Some? ==> applicationState == (if ClusterMissing(env) then "Error" else old(applicationState))
    {
      var open := [OpenConnector, OpenSaharaClient, OpenSwiftClient];
      failure := Perform(env, OpenConnector);
      if failure.Some? {
        assert Connect(req, env) == Trace([OpenConnector], failure);
        return;
      }
      failure := Perform(env, OpenSaharaClient);
      if failure.Some? {
        assert Connect(req, env) == Trace([OpenConnector, OpenSaharaClient], failure);
        return;
      }
      failure := Perform(env, OpenSwiftClient);
      if failure.Some? {
        assert Connect(req, env) == Trace(open, failure);
        return;
      }
      ghost var pre := effects;
      failure := FindClusterStep(req, env);
      ThenAfter(old(effects), open, FindCluster(req, env));
      assert pre == old(effects) + open;
      assert Connect(req, env) == Then(open, FindCluster(req, env));
    }

    /** `start_application`: `"Running"`, the try block, and on any
        exception `"Error"` with the exception logged; it returns `"OK"` on
        success and nothing otherwise. */
    method StartApplication(req: JobRequest, env: Env) returns (result: Option<string>, logged: Option<Exception>)
      requires Valid()
      modifies this
      ensures Valid()
      ensures effects == old(effects) + StartApplicationRun(req, env).effects
      ensures result == StartApplicationRun(req, env).result
      ensures logged == StartApplicationRun(req, env).logged
    {
      UpdateApplicationState(Running);
      ghost var running := effects;
      var failure := ConnectStep(req, env);
      ghost var c := Connect(req, env);
      assert effects == running + c.effects;
      if failure.None? {
        result, logged := Some("OK"), None;
        ConnectEndsOk(running, req, env);
      } else {
        UpdateApplicationState(Error);
        result, logged := None, failure;
      }
      ThenAfter(old(effects), [SetState(Running)], c);
      ThenAfter(old(effects), [SetState(Running)] + c.effects, Trace([SetState(Error)], None));
    }
  }
}
