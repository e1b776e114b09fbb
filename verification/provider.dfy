/** `SaharaHDFSProvider`: the plugin's title and description, and `execute`,
    which hands back a fresh executor under an application id of the form
    `"saharahdfs" + <generated id>`. */
module Provider {
  import opened Exceptions
  import opened PyStrings
  import opened SaharaExecutor

  const Title := "OpenStack Sahara HDFS"
  const Description := "Plugin that allows utilization of created Spark Standalone clusters to run jobs"
  const AppIdPrefix := "saharahdfs"

  /** The application id `execute` builds from a generated id. */
  function AppId(generatedId: string): string {
    AppIdPrefix + generatedId
  }

  /** The generated id an application id was built from, if it has the
      plugin's prefix. */
  function GeneratedIdOf(appId: string): (g: Option<string>)
    ensures g.Some? <==> StartsWith(appId, AppIdPrefix)
  {
    if StartsWith(appId, AppIdPrefix) then Some(appId[|AppIdPrefix|..]) else None
  }

  /** The generated id can be read back from the application id. */
  lemma AppIdRoundTrip(generatedId: string)
    ensures GeneratedIdOf(AppId(generatedId)) == Some(generatedId)
  {
    assert AppId(generatedId)[..|AppIdPrefix|] == AppIdPrefix;
    assert AppId(generatedId)[|AppIdPrefix|..] == generatedId;
  }

  /** Every id with the prefix is the application id of what follows it. */
  lemma AppIdOfGenerated(appId: string)
    requires GeneratedIdOf(appId).Some?
    ensures AppId(GeneratedIdOf(appId).value) == appId
  {
    assert appId == appId[..|AppIdPrefix|] + appId[|AppIdPrefix|..];
  }

  /** Distinct generated ids give distinct application ids. */
  lemma AppIdInjective(g1: string, g2: string)
    requires AppId(g1) == AppId(g2)
    ensures g1 == g2
  {
    AppIdRoundTrip(g1);
    AppIdRoundTrip(g2);
  }

  class SaharaHdfsProvider {
    var sparkApplicationsIds: seq<string>

    constructor()
      ensures sparkApplicationsIds == []
    {
      sparkApplicationsIds := [];
    }

    method GetTitle() returns (title: string)
      ensures title == "OpenStack Sahara HDFS"
    {
      title := Title;
    }

    method GetDescription() returns (description: string)
      ensures description == "Plugin that allows utilization of created Spark Standalone clusters to run jobs"
    {
      description := Description;
    }

    /** `execute`: a new executor in state `"None"` with nothing done yet,
        and its application id. The generated id comes from outside. */
    method Execute(generatedId: string) returns (appId: string, executor: Executor)
      ensures appId == AppId(generatedId) && GeneratedIdOf(appId) == Some(generatedId)
      ensures fresh(executor) && executor.Valid() && executor.effects == []
      ensures executor.applicationState == "None"
      ensures sparkApplicationsIds == old(sparkApplicationsIds)
    {
      executor := new Executor();
      appId := AppIdPrefix + generatedId;
      AppIdRoundTrip(generatedId);
    }
  }
}
