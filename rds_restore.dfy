/** `main(instanceid)` of rds_restore.py: configuration checks, then exactly
    one point-in-time restore chosen by the first topology query, returning
    the initiation status and re-raising the restore call's ClientError. */
module RdsRestore {
  import opened Values
  import opened ControlPlane
  import opened Utils

  const MissingInstanceId: string := "DBINSTANCEID (passed as instanceid) is missing."
  const MissingNewClusterId: string := "NEW_CLUSTER_ID environment variable is not set for clustered restore."
  const MissingNewInstanceId: string := "NEW_INSTANCEID environment variable not set for non-clustered restore."

  /** `os.environ.get(name)`. */
  function EnvGet(env: map<string, string>, name: string): (r: Option<string>)
    ensures r.Some? <==> name in env
    ensures r.Some? ==> r.value == env[name]
  {
    if name in env then Some(env[name]) else None
  }

  /** How a restore call's reply ends `main`: the status member of the
      restored resource (or `None`), or the ClientError re-raised as it came. */
  function Finish(reply: ApiReply, resource: string, statusField: string): (r: Outcome<Option<Value>>)
    ensures reply.Ok? ==> r == Returned(GetMember(reply.response, resource, statusField))
    ensures reply.Err? ==> r == Threw(Raised(reply.error))
  {
    match reply
    case Ok(response) => Returned(GetMember(response, resource, statusField))
    case Err(error) => Threw(Raised(error))
  }

  /** The clustered branch (lines 43-61), starting with its second query. */
  function RestoreCluster(instanceId: string, env: map<string, string>,
                          second: DescribeReply, clusterReply: ApiReply): (r: Run<Outcome<Option<Value>>>)
    ensures 1 <= |r.calls| <= 2 && r.calls[0] == DescribeDbInstances(instanceId)
    ensures |r.calls| == 2 <==> Interpret(second).Returned? && Truthy(EnvGet(env, "NEW_CLUSTER_ID"))
    ensures |r.calls| == 1 ==> r.outcome.Threw? && !r.outcome.exception.Raised?
    ensures |r.calls| == 2 ==> r.calls[1].RestoreDbClusterToPointInTime?
  {
    var q2 := QueryDbCluster(instanceId, second);
    if q2.outcome.Threw? then Run(Threw(q2.outcome.exception), q2.calls)
    else
      var newClusterId := EnvGet(env, "NEW_CLUSTER_ID");
      if !Truthy(newClusterId) then Run(Threw(ValueError(MissingNewClusterId)), q2.calls)
      else
        Run(Finish(clusterReply, "DBCluster", "Status"),
            q2.calls + [RestoreDbClusterToPointInTime(newClusterId.value, q2.outcome.value, true)])
  }

  /** The standalone branch (lines 63-80). */
  function RestoreInstance(instanceId: string, env: map<string, string>,
                           instanceReply: ApiReply): (r: Run<Outcome<Option<Value>>>)
    ensures |r.calls| <= 1
    ensures |r.calls| == 1 <==> Truthy(EnvGet(env, "NEW_INSTANCEID"))
    ensures r.calls == [] ==> r.outcome == Threw(ValueError(MissingNewInstanceId))
    ensures |r.calls| == 1 ==> r.calls[0].RestoreDbInstanceToPointInTime? && r.calls[0].sourceInstanceId == instanceId
  {
    var newInstanceId := EnvGet(env, "NEW_INSTANCEID");
    if !Truthy(newInstanceId) then Run(Threw(ValueError(MissingNewInstanceId)), [])
    else
      Run(Finish(instanceReply, "DBInstance", "DBInstanceStatus"),
          [RestoreDbInstanceToPointInTime(instanceId, newInstanceId.value, true)])
  }

  /** `main(instanceid)` with environment `env`, given the answers to its
      first and second describe calls and to the two restore calls. */
  function Main(instanceid: Option<string>, env: map<string, string>,
                first: DescribeReply, second: DescribeReply,
                clusterReply: ApiReply, instanceReply: ApiReply): (r: Run<Outcome<Option<Value>>>)
    ensures r.calls == [] <==> !Truthy(instanceid)
    ensures Truthy(instanceid) ==> r.calls[0] == DescribeDbInstances(instanceid.value)
    ensures r.outcome.Returned? ==> |r.calls| > 0 && Mutating(r.calls[|r.calls| - 1])
  {
    if !Truthy(instanceid) then Run(Threw(ValueError(MissingInstanceId)), [])
    else
      var q1 := QueryDbCluster(instanceid.value, first);
      if q1.outcome.Threw? then Run(Threw(q1.outcome.exception), q1.calls)
      else
        var branch := if q1.outcome.value.Truthy()
          then RestoreCluster(instanceid.value, env, second, clusterReply)
          else RestoreInstance(instanceid.value, env, instanceReply);
        Run(branch.outcome, q1.calls + branch.calls)
  }

  /** The cluster restore is reached exactly when the configuration and both
      queries let `main` get that far. */
  predicate ReachesClusterRestore(instanceid: Option<string>, env: map<string, string>,
                                  first: DescribeReply, second: DescribeReply)
  {
    && Truthy(instanceid) && Interpret(first).Returned? && Interpret(first).value.Truthy()
    && Interpret(second).Returned? && Truthy(EnvGet(env, "NEW_CLUSTER_ID"))
  }

  /** The instance restore is reached exactly when the configuration and the
      first query let `main` get that far. */
  predicate ReachesInstanceRestore(instanceid: Option<string>, env: map<string, string>, first: DescribeReply)
  {
    && Truthy(instanceid) && Interpret(first).Returned? && !Interpret(first).value.Truthy()
    && Truthy(EnvGet(env, "NEW_INSTANCEID"))
  }

  /** The clustered branch never snapshots or calls back, never restores an
      instance, and restores a cluster once exactly when the second query
      returns and NEW_CLUSTER_ID is set. */
  lemma RestoreClusterCounts(instanceId: string, env: map<string, string>,
                             second: DescribeReply, clusterReply: ApiReply)
    ensures var b := RestoreCluster(instanceId, env, second, clusterReply);
      && Count(b.calls, ClusterSnapshot) == 0 && Count(b.calls, InstanceSnapshot) == 0
      && Count(b.calls, Notify) == 0 && Count(b.calls, InstanceRestore) == 0
      && Count(b.calls, ClusterRestore)
         == (if Interpret(second).Returned? && Truthy(EnvGet(env, "NEW_CLUSTER_ID")) then 1 else 0)
  {
    var d := DescribeDbInstances(instanceId);
    if Interpret(second).Returned? && Truthy(EnvGet(env, "NEW_CLUSTER_ID")) {
      var r := RestoreDbClusterToPointInTime(env["NEW_CLUSTER_ID"], Interpret(second).value, true);
      forall op: Op ensures Count([d, r], op) == (if op == Describe || op == ClusterRestore then 1 else 0) {
        CountPair(d, r, op);
      }
    } else {
      forall op: Op ensures Count([d], op) == (if op == Describe then 1 else 0) {
        CountSingle(d, op);
      }
    }
  }

  /** The standalone branch makes no call but the instance restore, and that
      one exactly when NEW_INSTANCEID is set. */
  lemma RestoreInstanceCounts(instanceId: string, env: map<string, string>, instanceReply: ApiReply)
    ensures var b := RestoreInstance(instanceId, env, instanceReply);
      && Count(b.calls, ClusterSnapshot) == 0 && Count(b.calls, InstanceSnapshot) == 0
      && Count(b.calls, Notify) == 0 && Count(b.calls, ClusterRestore) == 0
      && Count(b.calls, InstanceRestore) == (if Truthy(EnvGet(env, "NEW_INSTANCEID")) then 1 else 0)
  {
    if Truthy(EnvGet(env, "NEW_INSTANCEID")) {
      var r := RestoreDbInstanceToPointInTime(instanceId, env["NEW_INSTANCEID"], true);
      forall op: Op ensures Count([r], op) == (if op == InstanceRestore then 1 else 0) {
        CountSingle(r, op);
      }
    }
  }

  /** How many calls of each kind a run of `main` makes: never a snapshot or
      a callback, and one restore exactly when its branch is reached. */
  lemma {:induction false} MainTraceShape(
    instanceid: Option<string>, env: map<string, string>, first: DescribeReply, second: DescribeReply,
    clusterReply: ApiReply, instanceReply: ApiReply)
    ensures var run := Main(instanceid, env, first, second, clusterReply, instanceReply);
      && Count(run.calls, ClusterSnapshot) == 0 && Count(run.calls, InstanceSnapshot) == 0
      && Count(run.calls, Notify) == 0
      && Count(run.calls, ClusterRestore) == (if ReachesClusterRestore(instanceid, env, first, second) then 1 else 0)
      && Count(run.calls, InstanceRestore) == (if ReachesInstanceRestore(instanceid, env, first) then 1 else 0)
  {
    if Truthy(instanceid) {
      var d := DescribeDbInstances(instanceid.value);
      if Interpret(first).Returned? {
        var b := if Interpret(first).value.Truthy()
          then RestoreCluster(instanceid.value, env, second, clusterReply)
          else RestoreInstance(instanceid.value, env, instanceReply);
        assert Main(instanceid, env, first, second, clusterReply, instanceReply).calls == [d] + b.calls;
        if Interpret(first).value.Truthy() {
          RestoreClusterCounts(instanceid.value, env, second, clusterReply);
        } else {
          RestoreInstanceCounts(instanceid.value, env, instanceReply);
        }
        forall op: Op ensures Count([d] + b.calls, op) == (if op == Describe then 1 else 0) + Count(b.calls, op) {
          CountCons(d, b.calls, op);
        }
      } else {
        assert Main(instanceid, env, first, second, clusterReply, instanceReply).calls == [d];
        forall op: Op ensures Count([d], op) == (if op == Describe then 1 else 0) {
          CountSingle(d, op);
        }
      }
    }
  }

  /** A falsy `instanceid` raises the ValueError before any call is made. */
  lemma MissingInstanceIdRaisesFirst(
    instanceid: Option<string>, env: map<string, string>, first: DescribeReply, second: DescribeReply,
    clusterReply: ApiReply, instanceReply: ApiReply)
    requires !Truthy(instanceid)
    ensures Main(instanceid, env, first, second, clusterReply, instanceReply)
         == Run(Threw(ValueError(MissingInstanceId)), [])
  {
  }

  /** On the clustered branch, a missing or empty NEW_CLUSTER_ID raises its
      ValueError after the two queries and before any restore call. */
  lemma MissingNewClusterIdRaises(
    instanceid: Option<string>, env: map<string, string>, first: DescribeReply, second: DescribeReply,
    clusterReply: ApiReply, instanceReply: ApiReply)
    requires Truthy(instanceid)
    requires Interpret(first).Returned? && Interpret(first).value.Truthy() && Interpret(second).Returned?
    requires !Truthy(EnvGet(env, "NEW_CLUSTER_ID"))
    ensures var run := Main(instanceid, env, first, second, clusterReply, instanceReply);
      && run.outcome == Threw(ValueError(MissingNewClusterId))
      && run.calls == [DescribeDbInstances(instanceid.value), DescribeDbInstances(instanceid.value)]
      && forall i :: 0 <= i < |run.calls| ==> !Mutating(run.calls[i])
  {
  }

  /** On the standalone branch, a missing or empty NEW_INSTANCEID raises its
      ValueError after the single query and before any restore call. */
  lemma MissingNewInstanceIdRaises(
    instanceid: Option<string>, env: map<string, string>, first: DescribeReply, second: DescribeReply,
    clusterReply: ApiReply, instanceReply: ApiReply)
    requires Truthy(instanceid)
    requires Interpret(first).Returned? && !Interpret(first).value.Truthy()
    requires !Truthy(EnvGet(env, "NEW_INSTANCEID"))
    ensures var run := Main(instanceid, env, first, second, clusterReply, instanceReply);
      && run.outcome == Threw(ValueError(MissingNewInstanceId))
      && run.calls == [DescribeDbInstances(instanceid.value)]
      && forall i :: 0 <= i < |run.calls| ==> !Mutating(run.calls[i])
  {
  }

  /** The clustered branch restores once, from the second query's cluster
      into NEW_CLUSTER_ID at the latest restorable time, and returns
      DBCluster.Status (or None) or re-raises the ClientError unchanged. */
  lemma ClusterRestoreOnce(
    instanceid: Option<string>, env: map<string, string>, first: DescribeReply, second: DescribeReply,
    clusterReply: ApiReply, instanceReply: ApiReply)
    requires Truthy(instanceid)
    requires Interpret(first).Returned? && Interpret(first).value.Truthy() && Interpret(second).Returned?
    requires Truthy(EnvGet(env, "NEW_CLUSTER_ID"))
    ensures var run := Main(instanceid, env, first, second, clusterReply, instanceReply);
      && |run.calls| == 3
      && run.calls[2] == RestoreDbClusterToPointInTime(env["NEW_CLUSTER_ID"], Interpret(second).value, true)
      && Count(run.calls, ClusterRestore) == 1 && Count(run.calls, InstanceRestore) == 0
      && (clusterReply.Ok? ==> run.outcome == Returned(GetMember(clusterReply.response, "DBCluster", "Status")))
      && (clusterReply.Err? ==> run.outcome == Threw(Raised(clusterReply.error)))
  {
    MainTraceShape(instanceid, env, first, second, clusterReply, instanceReply);
  }

  /** The standalone branch restores once, from `instanceid` into
      NEW_INSTANCEID at the latest restorable time, and returns
      DBInstance.DBInstanceStatus (or None) or re-raises the ClientError. */
  lemma InstanceRestoreOnce(
    instanceid: Option<string>, env: map<string, string>, first: DescribeReply, second: DescribeReply,
    clusterReply: ApiReply, instanceReply: ApiReply)
    requires Truthy(instanceid)
    requires Interpret(first).Returned? && !Interpret(first).value.Truthy()
    requires Truthy(EnvGet(env, "NEW_INSTANCEID"))
    ensures var run := Main(instanceid, env, first, second, clusterReply, instanceReply);
      && |run.calls| == 2
      && run.calls[1] == RestoreDbInstanceToPointInTime(instanceid.value, env["NEW_INSTANCEID"], true)
      && Count(run.calls, InstanceRestore) == 1 && Count(run.calls, ClusterRestore) == 0
      && (instanceReply.Ok? ==>
            run.outcome == Returned(GetMember(instanceReply.response, "DBInstance", "DBInstanceStatus")))
      && (instanceReply.Err? ==> run.outcome == Threw(Raised(instanceReply.error)))
  {
    MainTraceShape(instanceid, env, first, second, clusterReply, instanceReply);
  }

  /** No run issues both restores, and the branch is fixed by the first
      query: a cluster restore only after a truthy first answer, an instance
      restore only after a falsy one. */
  lemma NeverBothRestores(
    instanceid: Option<string>, env: map<string, string>, first: DescribeReply, second: DescribeReply,
    clusterReply: ApiReply, instanceReply: ApiReply)
    ensures var run := Main(instanceid, env, first, second, clusterReply, instanceReply);
      && Count(run.calls, ClusterRestore) + Count(run.calls, InstanceRestore) <= 1
      && (Count(run.calls, ClusterRestore) == 1 ==>
            Truthy(instanceid) && Interpret(first).Returned? && Interpret(first).value.Truthy())
      && (Count(run.calls, InstanceRestore) == 1 ==>
            Truthy(instanceid) && Interpret(first).Returned? && !Interpret(first).value.Truthy())
  {
    MainTraceShape(instanceid, env, first, second, clusterReply, instanceReply);
  }

  /** A ClientError leaves `main` exactly when the restore call that was made
      answered with it, and it is that same error: it is never turned into a
      returned status, and describe errors never surface. */
  lemma ClientErrorReraisedUnchanged(
    instanceid: Option<string>, env: map<string, string>, first: DescribeReply, second: DescribeReply,
    clusterReply: ApiReply, instanceReply: ApiReply, e: ClientError)
    ensures var run := Main(instanceid, env, first, second, clusterReply, instanceReply);
      run.outcome == Threw(Raised(e)) <==>
        (Count(run.calls, ClusterRestore) == 1 && clusterReply == Err(e))
        || (Count(run.calls, InstanceRestore) == 1 && instanceReply == Err(e))
  {
    MainTraceShape(instanceid, env, first, second, clusterReply, instanceReply);
    var run := Main(instanceid, env, first, second, clusterReply, instanceReply);
    if Truthy(instanceid) && Interpret(first).Returned? {
      if Interpret(first).value.Truthy() {
        assert run.outcome.Threw? && run.outcome.exception.Raised? ==> |run.calls| == 3;
      } else {
        assert run.outcome.Threw? && run.outcome.exception.Raised? ==> |run.calls| == 2;
      }
    }
  }

  // Concrete runs

  /** Instance "test-db-instance" in cluster "old-cluster-id", restored into
      "new-test-cluster": the cluster status "restoring" is returned. */
  lemma ClusterRestoreExample()
    ensures var entry := Described(Some([InstanceEntry(Some("old-cluster-id"))]));
      Main(Some("test-db-instance"), map["NEW_CLUSTER_ID" := "new-test-cluster"], entry, entry,
           Ok(map["DBCluster" := map["Status" := Text("restoring")]]), Err(ClientError("unused")))
      == Run(Returned(Some(Text("restoring"))),
             [DescribeDbInstances("test-db-instance"), DescribeDbInstances("test-db-instance"),
              RestoreDbClusterToPointInTime("new-test-cluster", Cluster("old-cluster-id"), true)])
  {
    assert EnvGet(map["NEW_CLUSTER_ID" := "new-test-cluster"], "NEW_CLUSTER_ID") == Some("new-test-cluster");
  }

  /** A standalone "test-db-instance" restored into "new-test-instance": the
      instance status "restoring" is returned. */
  lemma InstanceRestoreExample()
    ensures var standalone := Described(Some([InstanceEntry(None)]));
      Main(Some("test-db-instance"), map["NEW_INSTANCEID" := "new-test-instance"], standalone, standalone,
           Err(ClientError("unused")), Ok(map["DBInstance" := map["DBInstanceStatus" := Text("restoring")]]))
      == Run(Returned(Some(Text("restoring"))),
             [DescribeDbInstances("test-db-instance"),
              RestoreDbInstanceToPointInTime("test-db-instance", "new-test-instance", true)])
  {
    assert EnvGet(map["NEW_INSTANCEID" := "new-test-instance"], "NEW_INSTANCEID") == Some("new-test-instance");
  }
}
