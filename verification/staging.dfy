/** The directories an execution stages its files in: on the broker under
    `/tmp/spark-jobs/<id>`, on the master node at the same path reached over
    `scp`, and the HDFS paths the executor computes but never uses. */
module StagingPaths {
  import opened PyStrings

  const JobsDir := "/tmp/spark-jobs/"
  const HdfsDir := "/user/ubuntu/"
  const RemoteUser := "ubuntu@"
  const InputDir := "/input/"
  const OutputDir := "/output/"
  const BinaryDir := "/bin/"

  /** `str(uuid.uuid4())[0:7]`: the first seven characters, or the whole
      string when it is shorter (a Python slice never fails). */
  function ExecId(uuid: string): (id: string)
    ensures StartsWith(uuid, id)
    ensures |id| == if |uuid| < 7 then |uuid| else 7
  {
    if |uuid| < 7 then uuid else uuid[..7]
  }

  /** The paths of one execution, named as in `start_application`. */
  datatype Staging = Staging(
    local: string, hdfs: string, remote: string,
    localInput: string, localOutput: string, localBinary: string,
    hdfsInput: string, hdfsOutput: string, hdfsBinary: string,
    remoteOutput: string)

  /** The staging paths for execution id `execId` on a cluster whose master
      has address `master`. */
  function StagingOf(execId: string, master: string): Staging
  {
    var local := JobsDir + execId;
    var hdfs := HdfsDir + execId;
    var remote := RemoteUser + master + ":" + local;
    Staging(local, hdfs, remote,
            local + InputDir, local + OutputDir, local + BinaryDir,
            hdfs + InputDir, hdfs + OutputDir, hdfs + BinaryDir,
            remote + OutputDir)
  }

  /** Every local path lies under the jobs directory and the execution's own
      directory; the remote paths name the same directories on the master. */
  lemma StagingLayout(execId: string, master: string)
    ensures var p := StagingOf(execId, master);
      && StartsWith(p.local, JobsDir) && StartsWith(p.hdfs, HdfsDir)
      && StartsWith(p.localInput, p.local + "/") && StartsWith(p.localOutput, p.local + "/")
      && StartsWith(p.localBinary, p.local + "/")
      && p.remote == RemoteUser + master + ":" + p.local
      && p.remoteOutput == RemoteUser + master + ":" + p.localOutput
  {
    var p := StagingOf(execId, master);
    assert p.localInput == p.local + "/" + "input/";
    assert p.localOutput == p.local + "/" + "output/";
    assert p.localBinary == p.local + "/" + "bin/";
  }

  /** The input, output and binary directories are three different
      directories, and the same holds on HDFS. */
  lemma StagingDistinct(execId: string, master: string)
    ensures var p := StagingOf(execId, master);
      && p.localInput != p.localOutput && p.localInput != p.localBinary && p.localOutput != p.localBinary
      && p.hdfsInput != p.hdfsOutput && p.hdfsInput != p.hdfsBinary && p.hdfsOutput != p.hdfsBinary
  {
    var p := StagingOf(execId, master);
    var n, m := |JobsDir + execId|, |HdfsDir + execId|;
    assert p.localInput[n + 1] == 'i' && p.localOutput[n + 1] == 'o' && p.localBinary[n + 1] == 'b';
    assert p.hdfsInput[m + 1] == 'i' && p.hdfsOutput[m + 1] == 'o' && p.hdfsBinary[m + 1] == 'b';
  }

  /** Two executions whose ids differ but have the same length (seven
      characters, for ids cut from UUID strings) stage in different
      directories, none inside the other's. */
  lemma StagingSeparate(id1: string, id2: string, master1: string, master2: string)
    requires |id1| == |id2| && id1 != id2
    ensures var p, q := StagingOf(id1, master1), StagingOf(id2, master2);
      && !StartsWith(p.localInput, q.local) && !StartsWith(p.localOutput, q.local)
      && !StartsWith(p.localBinary, q.local)
  {
    var p, q := StagingOf(id1, master1), StagingOf(id2, master2);
    var k :| 0 <= k < |id1| && id1[k] != id2[k];
    var n := |JobsDir|;
    assert p.local[n + k] == id1[k] && q.local[n + k] == id2[k];
    assert p.localInput[n + k] == id1[k] && p.localOutput[n + k] == id1[k] && p.localBinary[n + k] == id1[k];
  }
}
