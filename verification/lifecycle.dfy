/** What one run of `start_application` does, stated against the
    environment: which steps run, in what order, and the state it ends in. */
module Lifecycle {
  import opened Exceptions
  import opened SwiftArgs
  import opened StagingPaths
  import opened Pipeline

  // ---------------------------------------------------------------------------
  // Once a cluster id is known

  /** What the stretch after the cluster id needs to succeed. */
  predicate OnClusterOk(req: JobRequest, env: Env) {
    && env.master.Ok? && env.workers.Ok?
    && JobParamsOf(req.args).Ok? && SwiftPath(req.jobBinaryUrl).Ok?
    && StagedOk(env, StagingOf(ExecId(env.uuid), env.master.value),
                JobParamsOf(req.args).value, SwiftPath(req.jobBinaryUrl).value)
  }

  /** The last four effects of a successful run. */
  function SuccessTail(req: JobRequest, env: Env): seq<Effect>
    requires OnClusterOk(req, env)
  {
    JobTail(req, env, env.master.value, StagingOf(ExecId(env.uuid), env.master.value),
            JobParamsOf(req.args).value)
  }

  /** After the cluster id: no creation, and `"OK"` set only on success. */
  lemma OnClusterQuiet(req: JobRequest, env: Env, clusterId: string)
    ensures var o := OnCluster(req, env, clusterId);
      States(o.effects) == (if o.failure.None? then [OK] else []) && Creations(o.effects) == 0
  {
    var o := OnCluster(req, env, clusterId);
    var t := [GetMaster(clusterId), GetWorkers(clusterId)];
    if env.master.Raise? {
      assert o.effects == [GetMaster(clusterId)];
      QuietEffects([GetMaster(clusterId)]);
    } else {
      QuietEffects(t);
      if env.workers.Ok? && JobParamsOf(req.args).Ok? && SwiftPath(req.jobBinaryUrl).Ok? {
        var master := env.master.value;
        var p := StagingOf(ExecId(env.uuid), master);
        var s := Staged(req, env, master, p, JobParamsOf(req.args).value, SwiftPath(req.jobBinaryUrl).value);
        assert o == Then(t, s);
        StagedQuiet(req, env, master, p, JobParamsOf(req.args).value, SwiftPath(req.jobBinaryUrl).value);
        QuietThen(t, s);
      } else {
        assert o.effects == t && o.failure.Some?;
      }
    }
  }

  /** After the cluster id, the run succeeds exactly when master, workers,
      argument parsing, downloads, directory listings and upload all go
      through. */
  lemma OnClusterSucceeds(req: JobRequest, env: Env, clusterId: string)
    ensures OnCluster(req, env, clusterId).failure.None? <==> OnClusterOk(req, env)
  {
    if env.master.Ok? && env.workers.Ok? && JobParamsOf(req.args).Ok? && SwiftPath(req.jobBinaryUrl).Ok? {
      var master := env.master.value;
      StagedSucceeds(req, env, master, StagingOf(ExecId(env.uuid), master),
                     JobParamsOf(req.args).value, SwiftPath(req.jobBinaryUrl).value);
    }
  }

  /** A successful stretch after the cluster id ends with the success tail. */
  lemma OnClusterTail(req: JobRequest, env: Env, clusterId: string)
    ensures var o := OnCluster(req, env, clusterId);
      o.failure.None? ==> OnClusterOk(req, env) && |o.effects| >= 4
                          && o.effects[|o.effects| - 4..] == SuccessTail(req, env)
  {
    var o := OnCluster(req, env, clusterId);
    OnClusterSucceeds(req, env, clusterId);
    if o.failure.None? {
      var master := env.master.value;
      var p := StagingOf(ExecId(env.uuid), master);
      var s := Staged(req, env, master, p, JobParamsOf(req.args).value, SwiftPath(req.jobBinaryUrl).value);
      StagedTail(req, env, master, p, JobParamsOf(req.args).value, SwiftPath(req.jobBinaryUrl).value);
      ThenTail([GetMaster(clusterId), GetWorkers(clusterId)], s);
    }
  }

  // ---------------------------------------------------------------------------
  // Finding or creating the cluster

  /** The connector and both OpenStack clients are built. */
  predicate ClientsOpen(env: Env) {
    OpenConnector !in env.raising && OpenSaharaClient !in env.raising && OpenSwiftClient !in env.raising
  }

  /** The size lookup answers with a falsy id, so a cluster is created. */
  predicate NeedsCreation(env: Env) {
    ClientsOpen(env) && env.lookup.Ok? && !Truthy(env.lookup.value)
  }

  /** Creation answers with a falsy id as well. */
  predicate ClusterMissing(env: Env) {
    NeedsCreation(env) && env.create.Ok? && !Truthy(env.create.value)
  }

  /** The id of the cluster the job runs on: the one found by size, else
      the one created; nothing when neither is truthy or a call raised. */
  function ClusterIdOf(env: Env): (id: Option<string>)
    ensures id.Some? ==> ClientsOpen(env) && env.lookup.Ok? && id.value != ""
    ensures id.Some? && !NeedsCreation(env) ==> env.lookup.value == id
    ensures id.Some? && NeedsCreation(env) ==> env.create == Ok(id)
    ensures ClientsOpen(env) && env.lookup.Ok? && Truthy(env.lookup.value) ==> id == env.lookup.value
    ensures NeedsCreation(env) && env.create.Ok? && Truthy(env.create.value) ==> id == env.create.value
    ensures id.None? <==> (!ClientsOpen(env) || env.lookup.Raise?
                           || (NeedsCreation(env) && !(env.create.Ok? && Truthy(env.create.value))))
  {
    if !ClientsOpen(env) || env.lookup.Raise? then None
    else if Truthy(env.lookup.value) then env.lookup.value
    else if env.create.Ok? && Truthy(env.create.value) then env.create.value
    else None
  }

  /** The steps up to the cluster id: `"Running"`, the connector and the
      two clients, the
      lookup by size and, when it finds nothing, one creation. */
  function ClusterSteps(req: JobRequest, env: Env): seq<Effect> {
    [SetState(Running), OpenConnector, OpenSaharaClient, OpenSwiftClient, LookupCluster(req.clusterSize)]
      + (if NeedsCreation(env) then [CreateCluster(ClusterRequestOf(req, env))] else [])
  }

  /** A run succeeds: a cluster is found or created, and everything after
      goes through. */
  predicate Succeeds(req: JobRequest, env: Env) {
    ClusterIdOf(env).Some? && OnClusterOk(req, env)
  }

  /** Creation: one cluster created; `"Error"` set when it gives a falsy id. */
  lemma NewClusterQuiet(req: JobRequest, env: Env)
    ensures var n := NewCluster(req, env);
      && States(n.effects) == (if n.failure.None? then [OK]
                               else if env.create.Ok? && !Truthy(env.create.value) then [Error]
                               else [])
      && Creations(n.effects) == 1
  {
    var n := NewCluster(req, env);
    var t := [CreateCluster(ClusterRequestOf(req, env))];
    StatesSnoc([], t[0]);
    assert [] + [t[0]] == t;
    match CreationOutcome(env.create)
    case Raise(e) =>
      assert n.effects == t;
    case Ok(created) =>
      if Truthy(created) {
        OnClusterQuiet(req, env, created.value);
        StatesAppend(t, OnCluster(req, env, created.value).effects);
      } else {
        StatesSnoc(t, SetState(Error));
      }
  }

  /** Creation leads to success exactly when it gives a truthy id and the
      rest goes through; success then ends with the success tail. */
  lemma NewClusterSucceeds(req: JobRequest, env: Env)
    ensures var n := NewCluster(req, env);
      && (n.failure.None? <==> env.create.Ok? && Truthy(env.create.value) && OnClusterOk(req, env))
      && (n.failure.None? ==> |n.effects| >= 4 && n.effects[|n.effects| - 4..] == SuccessTail(req, env))
  {
    var n := NewCluster(req, env);
    if env.create.Ok? && Truthy(env.create.value) {
      var o := OnCluster(req, env, env.create.value.value);
      assert n == Then([CreateCluster(ClusterRequestOf(req, env))], o);
      OnClusterSucceeds(req, env, env.create.value.value);
      OnClusterTail(req, env, env.create.value.value);
      if o.failure.None? {
        ThenTail([CreateCluster(ClusterRequestOf(req, env))], o);
      }
    }
  }

  /** The lookup: a creation exactly when it gives a falsy id. */
  lemma FindClusterQuiet(req: JobRequest, env: Env)
    requires ClientsOpen(env)
    ensures var f := FindCluster(req, env);
      && States(f.effects) == (if f.failure.None? then [OK] else if ClusterMissing(env) then [Error] else [])
      && Creations(f.effects) == (if NeedsCreation(env) then 1 else 0)
  {
    var t := [LookupCluster(req.clusterSize)];
    QuietEffects(t);
    match env.lookup
    case Raise(e) =>
    case Ok(found) =>
      if Truthy(found) {
        OnClusterQuiet(req, env, found.value);
        QuietThen(t, OnCluster(req, env, found.value));
      } else {
        NewClusterQuiet(req, env);
        QuietThen(t, NewCluster(req, env));
      }
  }

  /** With both clients open, the lookup stretch succeeds exactly when the
      whole run does, and then ends with the success tail. */
  lemma FindClusterSucceeds(req: JobRequest, env: Env)
    requires ClientsOpen(env)
    ensures var f := FindCluster(req, env);
      && (f.failure.None? <==> Succeeds(req, env))
      && (f.failure.None? ==> |f.effects| >= 4 && f.effects[|f.effects| - 4..] == SuccessTail(req, env))
  {
    var t := [LookupCluster(req.clusterSize)];
    match env.lookup
    case Raise(e) =>
    case Ok(found) =>
      if Truthy(found) {
        OnClusterSucceeds(req, env, found.value);
        OnClusterTail(req, env, found.value);
        if OnCluster(req, env, found.value).failure.None? {
          ThenTail(t, OnCluster(req, env, found.value));
        }
      } else {
        NewClusterSucceeds(req, env);
        if NewCluster(req, env).failure.None? {
          ThenTail(t, NewCluster(req, env));
        }
      }
  }

  /** A try block that succeeds leaves `"OK"` as the last state, whatever
      came before it. */
  lemma ConnectEndsOk(before: seq<Effect>, req: JobRequest, env: Env)
    requires Connect(req, env).failure.None?
    ensures LastState(before + Connect(req, env).effects) == OK
  {
    ConnectQuiet(req, env);
    LastStateAppend(before, Connect(req, env).effects);
  }

  /** The clients, then the cluster: `"OK"` on success, `"Error"` from
      the else branch when creation gives a falsy id. */
  lemma ConnectQuiet(req: JobRequest, env: Env)
    ensures var c := Connect(req, env);
      && States(c.effects) == (if c.failure.None? then [OK] else if ClusterMissing(env) then [Error] else [])
      && Creations(c.effects) == (if NeedsCreation(env) then 1 else 0)
  {
    var open := [OpenConnector, OpenSaharaClient, OpenSwiftClient];
    if OpenConnector in env.raising {
      QuietEffects([OpenConnector]);
    } else if OpenSaharaClient in env.raising {
      QuietEffects([OpenConnector, OpenSaharaClient]);
    } else {
      QuietEffects(open);
      if OpenSwiftClient !in env.raising {
        FindClusterQuiet(req, env);
        QuietThen(open, FindCluster(req, env));
      }
    }
  }

  /** The try block: `"Running"` before anything else. */
  lemma TryBlockStates(req: JobRequest, env: Env)
    ensures var t := TryBlock(req, env);
      && States(t.effects) == [Running] + (if t.failure.None? then [OK]
                                           else if ClusterMissing(env) then [Error] else [])
      && Creations(t.effects) == (if NeedsCreation(env) then 1 else 0)
  {
    ConnectQuiet(req, env);
    RunningFirst(Connect(req, env));
  }

  /** `"Running"` in front of any stretch is its first state and creates
      nothing. */
  lemma RunningFirst(c: Trace)
    ensures States(Then([SetState(Running)], c).effects) == [Running] + States(c.effects)
    ensures Creations(Then([SetState(Running)], c).effects) == Creations(c.effects)
  {
    StatesSnoc([], SetState(Running));
    assert [] + [SetState(Running)] == [SetState(Running)];
    StatesAppend([SetState(Running)], c.effects);
  }

  /** The try block completes exactly when the run succeeds, and then ends
      with the success tail. */
  lemma TryBlockSucceeds(req: JobRequest, env: Env)
    ensures var t := TryBlock(req, env);
      && (t.failure.None? <==> Succeeds(req, env))
      && (t.failure.None? ==> |t.effects| >= 4 && t.effects[|t.effects| - 4..] == SuccessTail(req, env))
  {
    var c := Connect(req, env);
    if ClientsOpen(env) {
      FindClusterSucceeds(req, env);
      if FindCluster(req, env).failure.None? {
        ThenTail([OpenConnector, OpenSaharaClient, OpenSwiftClient], FindCluster(req, env));
      }
    }
    if c.failure.None? {
      ThenTail([SetState(Running)], c);
    }
  }

  // ---------------------------------------------------------------------------
  // Properties of a whole run

  /** A run sets `"Running"` before any other step, then `"OK"` when it
      succeeds, and otherwise `"Error"` — twice when no cluster could be
      created, since the else branch and the handler both set it. */
  lemma RunStates(req: JobRequest, env: Env)
    ensures var r := StartApplicationRun(req, env);
      && |r.effects| > 0 && r.effects[0] == SetState(Running)
      && States(r.effects) == (if Succeeds(req, env) then [Running, OK]
                               else if ClusterMissing(env) then [Running, Error, Error]
                               else [Running, Error])
  {
    var t := TryBlock(req, env);
    TryBlockStates(req, env);
    TryBlockSucceeds(req, env);
    if t.failure.Some? {
      StatesSnoc(t.effects, SetState(Error));
    }
  }

  /** The run returns `"OK"` exactly when it succeeds, logs an exception
      exactly when it does not, and leaves the state at `"OK"` or
      `"Error"` accordingly. */
  lemma RunOutcome(req: JobRequest, env: Env)
    ensures var r := StartApplicationRun(req, env);
      && r.result == (if Succeeds(req, env) then Some("OK") else None)
      && (r.logged.None? <==> Succeeds(req, env))
      && LastState(r.effects) == (if Succeeds(req, env) then OK else Error)
  {
    RunStates(req, env);
    TryBlockSucceeds(req, env);
  }

  /** A cluster is created exactly once when the lookup by size gives a
      falsy id, and never otherwise. */
  lemma CreateOnlyWhenNotFound(req: JobRequest, env: Env)
    ensures Creations(StartApplicationRun(req, env).effects) == (if NeedsCreation(env) then 1 else 0)
  {
    var t := TryBlock(req, env);
    TryBlockStates(req, env);
    if t.failure.Some? {
      StatesSnoc(t.effects, SetState(Error));
    }
  }

  /** A successful run ends with the submit command, the copy of the output
      back, the Swift upload and `"OK"`: the state turns `"OK"` only after
      the upload. */
  lemma SuccessEndsWithUpload(req: JobRequest, env: Env)
    requires Succeeds(req, env)
    ensures var r := StartApplicationRun(req, env);
      |r.effects| >= 4 && r.effects[|r.effects| - 4..] == SuccessTail(req, env)
  {
    TryBlockSucceeds(req, env);
  }

  /** When creation gives a falsy id, nothing is staged or submitted: the
      run stops after the cluster steps with `"Error"` set twice and logs
      `ClusterNotCreatedException`. */
  lemma NoClusterNoStaging(req: JobRequest, env: Env)
    requires ClusterMissing(env)
    ensures var r := StartApplicationRun(req, env);
      && r.effects == ClusterSteps(req, env) + [SetState(Error), SetState(Error)]
      && r.logged == Some(ClusterNotCreatedException) && r.result == None
  {
  }

  /** Any exception from creation ends the run in `"Error"` right after the
      creation attempt, with nothing staged or submitted; it is logged as
      `_create_cluster` passes it on, a Sahara API error with the fixed
      message. */
  lemma CreationRejected(req: JobRequest, env: Env)
    requires NeedsCreation(env) && env.create.Raise?
    ensures var r := StartApplicationRun(req, env);
      && r.effects == ClusterSteps(req, env) + [SetState(Error)]
      && r.logged == Some(CreationOutcome(env.create).exception) && r.result == None
      && (env.create.exception.SaharaAPIException? ==> r.logged == Some(SaharaAPIException("Could not create clusters")))
      && (!env.create.exception.SaharaAPIException? ==> r.logged == Some(env.create.exception))
  {
  }

  /** When the job arguments cannot be parsed, the run stops after asking
      for the master and the workers, before any directory or download,
      and logs the parser's exception. */
  lemma JobParamsFailureIsLogged(req: JobRequest, env: Env)
    requires ClusterIdOf(env).Some? && env.master.Ok? && env.workers.Ok?
    requires JobParamsOf(req.args).Raise?
    ensures var r := StartApplicationRun(req, env);
      var id := ClusterIdOf(env).value;
      && r.effects == ClusterSteps(req, env) + [GetMaster(id), GetWorkers(id), SetState(Error)]
      && r.logged == Some(JobParamsOf(req.args).exception) && r.result == None
  {
  }
}
