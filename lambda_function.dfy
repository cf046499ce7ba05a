/** The snapshot Lambda of lambda_function.py: `handler` as an imperative
    method that issues its calls against a Cloud and is proved equal to the
    single-pass specification HandlerRun; the properties the handler
    promises are lemmas about HandlerRun. */
module LambdaFunction {
  import opened Values
  import opened Callback
  import opened ControlPlane
  import opened DateFormat
  import opened Utils

  /** The module globals the handler reads: DBINSTANCEID and DBSNAPSHOTID
      (`None` when the environment variable is unset) and NOW. */
  datatype Config = Config(dbInstanceId: Option<string>, dbSnapshotId: Option<string>, now: CalendarDate)

  const MissingEnvironment: string :=
    "Missing required environment variable(s): DBInstanceIdentifier and/or DBSnapshotIdentifier must be set."
  const ClusterSnapshotCreated: string := "Cluster snapshot created successfully."
  const InstanceSnapshotCreated: string := "Instance snapshot created successfully."

  /** The members `handler` pops from `response['DBSnapshot']`. */
  const VolatileFields: set<string> := {"SnapshotCreateTime", "InstanceCreateTime"}

  /** The instance-snapshot response with its creation timestamps removed:
      the DBSnapshot structure loses exactly the two volatile members, and
      everything else is unchanged; a response without DBSnapshot passes
      through as it is. */
  function StripSnapshotTimes(response: Response): (r: Response)
    ensures r.Keys == response.Keys
    ensures forall k :: k in r && k != "DBSnapshot" ==> r[k] == response[k]
    ensures "DBSnapshot" in r ==> r["DBSnapshot"].Keys == response["DBSnapshot"].Keys - VolatileFields
    ensures "DBSnapshot" in r ==>
      forall f :: f in r["DBSnapshot"] ==> r["DBSnapshot"][f] == response["DBSnapshot"][f]
    ensures "DBSnapshot" !in response ==> r == response
  {
    if "DBSnapshot" in response then response["DBSnapshot" := response["DBSnapshot"] - VolatileFields]
    else response
  }

  /** Stripping twice is stripping once, and a response that holds no
      volatile member is left exactly as it was. */
  lemma StripSnapshotTimesStable(response: Response)
    ensures StripSnapshotTimes(StripSnapshotTimes(response)) == StripSnapshotTimes(response)
    ensures ("DBSnapshot" !in response || response["DBSnapshot"].Keys !! VolatileFields) ==>
      StripSnapshotTimes(response) == response
  {
    if "DBSnapshot" in response {
      var s := response["DBSnapshot"];
      assert (s - VolatileFields) - VolatileFields == s - VolatileFields;
      if s.Keys !! VolatileFields {
        assert s - VolatileFields == s;
        assert response["DBSnapshot" := s] == response;
      }
    }
  }

  /** The PUT `send` issues for these arguments: one request to the event's
      pre-signed ResponseURL, carrying the requested status and the event's
      three identifiers. */
  function Report(event: Event, context: Context, status: Status,
                  reason: Option<string>, responseData: Option<Response>,
                  physicalResourceId: Option<string>): (c: Call)
    ensures c.PutResponse? && !Mutating(c)
    ensures c.url == event.responseUrl && c.payload.status == status
    ensures c.payload.stackId == event.stackId && c.payload.requestId == event.requestId
    ensures c.payload.logicalResourceId == event.logicalResourceId
  {
    PutResponse(event.responseUrl,
                BuildPayload(event, context, status, reason, responseData, physicalResourceId))
  }

  /** The Status member of a report's JSON object is the wire spelling of
      the status `send` was given. */
  lemma ReportSpellsStatus(event: Event, context: Context, status: Status,
                           reason: Option<string>, responseData: Option<Response>,
                           physicalResourceId: Option<string>)
    ensures var c := Report(event, context, status, reason, responseData, physicalResourceId);
      c.payload.StringMembers()["Status"] == status.Text()
  {
  }

  /** The report that follows a create call's reply: SUCCESS exactly when the
      create succeeded, carrying its response (stripped when `strip`), and
      otherwise FAILED with the error text and empty Data. */
  function ReportReply(event: Event, context: Context, reply: ApiReply, successReason: string,
                       strip: bool): (c: Call)
    ensures c.PutResponse? && c.url == event.responseUrl
    ensures c.payload.status == Success <==> reply.Ok?
    ensures c.payload.physicalResourceId == context.logStreamName
    ensures reply.Ok? ==> c.payload.data == (if strip then StripSnapshotTimes(reply.response) else reply.response)
    ensures reply.Ok? && successReason != "" ==> c.payload.reason == successReason
    ensures reply.Err? ==>
      c.payload.data == map[] && c.payload.reason == OrElse(Some(reply.error.text), DefaultReason(context.logStreamName))
  {
    match reply
    case Ok(response) =>
      Report(event, context, Success, Some(successReason),
             Some(if strip then StripSnapshotTimes(response) else response), None)
    case Err(error) => Report(event, context, Failed, Some(error.text), Some(map[]), None)
  }

  /** A report that follows a create call spells its Status "SUCCESS"
      exactly when the create succeeded, and "FAILED" exactly when it did not. */
  lemma ReportReplySpellsStatus(event: Event, context: Context, reply: ApiReply, successReason: string,
                                strip: bool)
    ensures var c := ReportReply(event, context, reply, successReason, strip);
      && (c.payload.StringMembers()["Status"] == "SUCCESS" <==> reply.Ok?)
      && (c.payload.StringMembers()["Status"] == "FAILED" <==> reply.Err?)
  {
  }

  /** How `handler` ends once its one `send` has run: `send`'s boolean is
      discarded, and an exception escaping `send` escapes the handler, since
      the only `except` around it catches ClientError. */
  function AfterSend(sent: Outcome<bool>): (r: Outcome<()>)
    ensures r.Returned? <==> sent.Returned?
    ensures r.Threw? ==> r.exception == sent.exception
  {
    if sent.Threw? then Threw(sent.exception) else Returned(())
  }

  /** The cluster branch after a truthy first query: query again, create
      the cluster snapshot keyed by the second answer, report. */
  function ClusterPath(event: Event, context: Context, snapshotIdentifier: string, instanceId: string,
                       second: DescribeReply, clusterReply: ApiReply, sent: Outcome<bool>): (p: Run<Outcome<()>>)
    ensures |p.calls| > 0 && p.calls[0] == DescribeDbInstances(instanceId)
    ensures Interpret(second).Threw? ==>
      p.outcome == Threw(Interpret(second).exception) && |p.calls| == 1
    ensures Interpret(second).Returned? ==>
      && p.outcome == AfterSend(sent) && |p.calls| == 3
      && p.calls[1] == CreateDbClusterSnapshot(snapshotIdentifier, Interpret(second).value)
      && p.calls[2].PutResponse?
  {
    var q2 := QueryDbCluster(instanceId, second);
    if q2.outcome.Threw? then Run(Threw(q2.outcome.exception), q2.calls)
    else
      Run(AfterSend(sent),
          q2.calls +
          [CreateDbClusterSnapshot(snapshotIdentifier, q2.outcome.value),
           ReportReply(event, context, clusterReply, ClusterSnapshotCreated, false)])
  }

  /** The instance branch after a falsy first query: create the instance
      snapshot keyed by DBINSTANCEID, strip its timestamps, report. */
  function InstancePath(event: Event, context: Context, snapshotIdentifier: string, instanceId: string,
                        instanceReply: ApiReply, sent: Outcome<bool>): (p: Run<Outcome<()>>)
    ensures p.outcome == AfterSend(sent) && |p.calls| == 2
    ensures p.calls[0] == CreateDbSnapshot(snapshotIdentifier, instanceId) && p.calls[1].PutResponse?
  {
    Run(AfterSend(sent),
        [CreateDbSnapshot(snapshotIdentifier, instanceId),
         ReportReply(event, context, instanceReply, InstanceSnapshotCreated, true)])
  }

  /** One run of `handler`, given the answers to its first and second describe
      calls and to the two create calls, and how its `send` ends. */
  function HandlerRun(cfg: Config, event: Event, context: Context,
                      first: DescribeReply, second: DescribeReply,
                      clusterReply: ApiReply, instanceReply: ApiReply,
                      sent: Outcome<bool>): (run: Run<Outcome<()>>)
    ensures |run.calls| > 0
    ensures Truthy(cfg.dbInstanceId) && Truthy(cfg.dbSnapshotId) ==>
      run.calls[0] == DescribeDbInstances(cfg.dbInstanceId.value)
    ensures !(Truthy(cfg.dbInstanceId) && Truthy(cfg.dbSnapshotId)) ==>
      |run.calls| == 1 && run.calls[0].PutResponse? && run.outcome == AfterSend(sent)
  {
    if !Truthy(cfg.dbInstanceId) || !Truthy(cfg.dbSnapshotId) then
      Run(AfterSend(sent),
          [Report(event, context, Failed, Some(MissingEnvironment), None,
                  Some(event.physicalResourceId.GetOr(context.logStreamName)))])
    else
      var instanceId := cfg.dbInstanceId.value;
      var snapshotIdentifier := SnapshotIdentifier(cfg.dbSnapshotId.value, cfg.now);
      var q1 := QueryDbCluster(instanceId, first);
      if q1.outcome.Threw? then Run(Threw(q1.outcome.exception), q1.calls)
      else
        var path := if q1.outcome.value.Truthy()
          then ClusterPath(event, context, snapshotIdentifier, instanceId, second, clusterReply, sent)
          else InstancePath(event, context, snapshotIdentifier, instanceId, instanceReply, sent);
        Run(path.outcome, q1.calls + path.calls)
  }

  /** `send`: builds the payload and PUTs it; its outcome is the transport's,
      and the payload does not depend on it. */
  method Send(cloud: Cloud, event: Event, context: Context, status: Status,
              reason: Option<string>, responseData: Option<Response>,
              physicalResourceId: Option<string>) returns (sent: Outcome<bool>)
    modifies cloud
    ensures sent == Transport(cloud.runtime, cloud.endpoint)
    ensures cloud.calls == old(cloud.calls) + [Report(event, context, status, reason, responseData, physicalResourceId)]
  {
    var responseBody := BuildPayload(event, context, status, reason, responseData, physicalResourceId);
    sent := cloud.Put(event.responseUrl, responseBody);
  }

  /** `query_db_cluster(instanceid)` against the cloud. */
  method QueryTopology(cloud: Cloud, instanceId: string) returns (q: Outcome<QueryValue>)
    modifies cloud
    ensures q == QueryDbCluster(instanceId, old(cloud.NextDescribe())).outcome
    ensures cloud.calls == old(cloud.calls) + QueryDbCluster(instanceId, old(cloud.NextDescribe())).calls
    ensures Count(cloud.calls, Describe) == old(Count(cloud.calls, Describe)) + 1
  {
    var reply := cloud.DescribeDbInstances(instanceId);
    q := Interpret(reply);
  }

  /** The cluster branch of `handler` (lines 101-114). */
  method SnapshotCluster(cloud: Cloud, event: Event, context: Context, snapshotIdentifier: string,
                         instanceId: string) returns (outcome: Outcome<()>)
    modifies cloud
    ensures var run := ClusterPath(event, context, snapshotIdentifier, instanceId,
                                   old(cloud.NextDescribe()), cloud.clusterSnapshotReply,
                                   Transport(cloud.runtime, cloud.endpoint));
            outcome == run.outcome && cloud.calls == old(cloud.calls) + run.calls
  {
    var clusterId := QueryTopology(cloud, instanceId);
    if clusterId.Threw? {
      return Threw(clusterId.exception);
    }
    var reply := cloud.CreateDbClusterSnapshot(snapshotIdentifier, clusterId.value);
    var sent;
    match reply {
      case Ok(response) =>
        sent := Send(cloud, event, context, Success, Some(ClusterSnapshotCreated), Some(response), None);
      case Err(error) =>
        sent := Send(cloud, event, context, Failed, Some(error.text), Some(map[]), None);
    }
    if sent.Threw? {
      return Threw(sent.exception);
    }
    outcome := Returned(());
  }

  /** The instance branch of `handler` (lines 116-134); the two `pop`s
      remove the timestamps from the DBSnapshot structure one at a time. */
  method SnapshotInstance(cloud: Cloud, event: Event, context: Context, snapshotIdentifier: string,
                          instanceId: string) returns (outcome: Outcome<()>)
    modifies cloud
    ensures var run := InstancePath(event, context, snapshotIdentifier, instanceId, cloud.instanceSnapshotReply,
                                    Transport(cloud.runtime, cloud.endpoint));
            outcome == run.outcome && cloud.calls == old(cloud.calls) + run.calls
  {
    var reply := cloud.CreateDbSnapshot(snapshotIdentifier, instanceId);
    var sent;
    match reply {
      case Ok(r) =>
        var response := r;
        if "DBSnapshot" in response {
          var snapshot := response["DBSnapshot"];
          snapshot := snapshot - {"SnapshotCreateTime"};
          snapshot := snapshot - {"InstanceCreateTime"};
          assert snapshot == r["DBSnapshot"] - VolatileFields;
          response := response["DBSnapshot" := snapshot];
        }
        assert response == StripSnapshotTimes(r);
        sent := Send(cloud, event, context, Success, Some(InstanceSnapshotCreated), Some(response), None);
      case Err(error) =>
        sent := Send(cloud, event, context, Failed, Some(error.text), Some(map[]), None);
    }
    if sent.Threw? {
      return Threw(sent.exception);
    }
    outcome := Returned(());
  }

  /** The early exit of `handler` (lines 91-97): one FAILED report naming
      the missing settings, with the event's PhysicalResourceId when it has
      one. */
  method ReportMissingConfiguration(cloud: Cloud, event: Event, context: Context) returns (outcome: Outcome<()>)
    modifies cloud
    ensures outcome == AfterSend(Transport(cloud.runtime, cloud.endpoint))
    ensures cloud.calls == old(cloud.calls) +
      [Report(event, context, Failed, Some(MissingEnvironment), None,
              Some(event.physicalResourceId.GetOr(context.logStreamName)))]
  {
    var physicalResourceId := event.physicalResourceId.GetOr(context.logStreamName);
    var sent := Send(cloud, event, context, Failed, Some(MissingEnvironment), None, Some(physicalResourceId));
    if sent.Threw? {
      return Threw(sent.exception);
    }
    outcome := Returned(());
  }

  /** `handler(event, context)`; the outcome is `Returned(())` when it returns
      normally and `Threw(e)` when the exception `e` escapes it. */
  method Handler(cloud: Cloud, cfg: Config, event: Event, context: Context) returns (outcome: Outcome<()>)
    modifies cloud
    ensures var k := old(Count(cloud.calls, Describe));
            var run := HandlerRun(cfg, event, context, cloud.describeReply(k), cloud.describeReply(k + 1),
                                  cloud.clusterSnapshotReply, cloud.instanceSnapshotReply,
                                  Transport(cloud.runtime, cloud.endpoint));
            outcome == run.outcome && cloud.calls == old(cloud.calls) + run.calls
  {
    if !Truthy(cfg.dbInstanceId) || !Truthy(cfg.dbSnapshotId) {
      outcome := ReportMissingConfiguration(cloud, event, context);
      return;
    }
    ghost var before := cloud.calls;
    var instanceId := cfg.dbInstanceId.value;
    var topology := QueryTopology(cloud, instanceId);
    if topology.Threw? {
      return Threw(topology.exception);
    }
    var snapshotIdentifier := SnapshotIdentifier(cfg.dbSnapshotId.value, cfg.now);
    if topology.value.Truthy() {
      outcome := SnapshotCluster(cloud, event, context, snapshotIdentifier, instanceId);
    } else {
      outcome := SnapshotInstance(cloud, event, context, snapshotIdentifier, instanceId);
    }
    assert cloud.calls == before + (cloud.calls[|before|..]);
  }

  // Properties of one handler run

  /** With DBINSTANCEID or DBSNAPSHOTID unset or empty, the handler makes no
      RDS call at all and attempts one FAILED report, with the fixed reason,
      empty Data and the event's PhysicalResourceId (or the log stream name);
      it ends as that report's `send` ends. */
  lemma MissingConfigurationReportsFailure(
    cfg: Config, event: Event, context: Context, first: DescribeReply, second: DescribeReply,
    clusterReply: ApiReply, instanceReply: ApiReply, sent: Outcome<bool>)
    requires !Truthy(cfg.dbInstanceId) || !Truthy(cfg.dbSnapshotId)
    ensures var run := HandlerRun(cfg, event, context, first, second, clusterReply, instanceReply, sent);
      && run.outcome == AfterSend(sent)
      && run.calls == [PutResponse(event.responseUrl,
           Payload(Failed, MissingEnvironment, OrElse(event.physicalResourceId, context.logStreamName),
                   event.stackId, event.requestId, event.logicalResourceId, map[]))]
      && Count(run.calls, Describe) == 0 && Count(run.calls, Notify) == 1
      && forall i :: 0 <= i < |run.calls| ==> !Mutating(run.calls[i])
  {
    var run := HandlerRun(cfg, event, context, first, second, clusterReply, instanceReply, sent);
    CountCons(run.calls[0], [], Describe);
    CountCons(run.calls[0], [], Notify);
  }

  /** The cluster branch queries once more; when that query returns it
      creates one cluster snapshot and reports once, and otherwise it stops
      with the query's exception. It never creates an instance snapshot. */
  lemma ClusterPathCounts(event: Event, context: Context, snapshotIdentifier: string, instanceId: string,
                          second: DescribeReply, clusterReply: ApiReply, sent: Outcome<bool>)
    ensures var p := ClusterPath(event, context, snapshotIdentifier, instanceId, second, clusterReply, sent);
      var made := if Interpret(second).Returned? then 1 else 0;
      && (Interpret(second).Threw? ==> p.calls == [DescribeDbInstances(instanceId)])
      && Count(p.calls, Describe) == 1 && Count(p.calls, InstanceSnapshot) == 0
      && Count(p.calls, ClusterSnapshot) == made && Count(p.calls, Notify) == made
      && Count(p.calls, ClusterRestore) == 0 && Count(p.calls, InstanceRestore) == 0
  {
    var d := DescribeDbInstances(instanceId);
    if Interpret(second).Returned? {
      var c := CreateDbClusterSnapshot(snapshotIdentifier, Interpret(second).value);
      var r := ReportReply(event, context, clusterReply, ClusterSnapshotCreated, false);
      assert [d] + [c, r] == [d, c, r];
      forall op: Op ensures Count([d, c, r], op) == (if op in {Describe, ClusterSnapshot, Notify} then 1 else 0) {
        CountTriple(d, c, r, op);
      }
    } else {
      forall op: Op ensures Count([d], op) == (if op == Describe then 1 else 0) {
        CountSingle(d, op);
      }
    }
  }

  /** The instance branch creates one instance snapshot and reports once. */
  lemma InstancePathCounts(event: Event, context: Context, snapshotIdentifier: string, instanceId: string,
                           instanceReply: ApiReply, sent: Outcome<bool>)
    ensures var p := InstancePath(event, context, snapshotIdentifier, instanceId, instanceReply, sent);
      && Count(p.calls, Describe) == 0 && Count(p.calls, ClusterSnapshot) == 0
      && Count(p.calls, InstanceSnapshot) == 1 && Count(p.calls, Notify) == 1
      && Count(p.calls, ClusterRestore) == 0 && Count(p.calls, InstanceRestore) == 0
  {
    var p := InstancePath(event, context, snapshotIdentifier, instanceId, instanceReply, sent);
    forall op: Op ensures Count(p.calls, op) == (if op in {InstanceSnapshot, Notify} then 1 else 0) {
      CountPair(p.calls[0], p.calls[1], op);
    }
  }

  /** A run with complete configuration and a first answer is the first
      query followed by the branch that answer selects. */
  lemma HandlerRunUnfolds(
    cfg: Config, event: Event, context: Context, first: DescribeReply, second: DescribeReply,
    clusterReply: ApiReply, instanceReply: ApiReply, sent: Outcome<bool>)
    requires Truthy(cfg.dbInstanceId) && Truthy(cfg.dbSnapshotId)
    requires Interpret(first).Returned?
    ensures var run := HandlerRun(cfg, event, context, first, second, clusterReply, instanceReply, sent);
      var instanceId := cfg.dbInstanceId.value;
      var sid := SnapshotIdentifier(cfg.dbSnapshotId.value, cfg.now);
      var path := if Interpret(first).value.Truthy()
        then ClusterPath(event, context, sid, instanceId, second, clusterReply, sent)
        else InstancePath(event, context, sid, instanceId, instanceReply, sent);
      run.outcome == path.outcome && run.calls == [DescribeDbInstances(instanceId)] + path.calls
  {
  }

  /** So its counts are the branch's plus one describe. */
  lemma {:induction false} HandlerRunCounts(
    cfg: Config, event: Event, context: Context, first: DescribeReply, second: DescribeReply,
    clusterReply: ApiReply, instanceReply: ApiReply, sent: Outcome<bool>)
    requires Truthy(cfg.dbInstanceId) && Truthy(cfg.dbSnapshotId)
    requires Interpret(first).Returned?
    ensures var run := HandlerRun(cfg, event, context, first, second, clusterReply, instanceReply, sent);
      var instanceId := cfg.dbInstanceId.value;
      var sid := SnapshotIdentifier(cfg.dbSnapshotId.value, cfg.now);
      var path := if Interpret(first).value.Truthy()
        then ClusterPath(event, context, sid, instanceId, second, clusterReply, sent)
        else InstancePath(event, context, sid, instanceId, instanceReply, sent);
      && run.outcome == path.outcome
      && run.calls == [DescribeDbInstances(instanceId)] + path.calls
      && Count(run.calls, Describe) == 1 + Count(path.calls, Describe)
      && Count(run.calls, ClusterSnapshot) == Count(path.calls, ClusterSnapshot)
      && Count(run.calls, InstanceSnapshot) == Count(path.calls, InstanceSnapshot)
      && Count(run.calls, Notify) == Count(path.calls, Notify)
  {
    HandlerRunUnfolds(cfg, event, context, first, second, clusterReply, instanceReply, sent);
    var instanceId := cfg.dbInstanceId.value;
    var sid := SnapshotIdentifier(cfg.dbSnapshotId.value, cfg.now);
    var path := if Interpret(first).value.Truthy()
      then ClusterPath(event, context, sid, instanceId, second, clusterReply, sent)
      else InstancePath(event, context, sid, instanceId, instanceReply, sent);
    forall op: Op ensures Count([DescribeDbInstances(instanceId)] + path.calls, op)
                          == (if op == Describe then 1 else 0) + Count(path.calls, op) {
      CountCons(DescribeDbInstances(instanceId), path.calls, op);
    }
  }

  /** On a truthy first answer the handler queries a second time and creates
      exactly one cluster snapshot, keyed by the second answer, and no
      instance snapshot. */
  lemma ClusterBranchCreatesOneClusterSnapshot(
    cfg: Config, event: Event, context: Context, first: DescribeReply, second: DescribeReply,
    clusterReply: ApiReply, instanceReply: ApiReply, sent: Outcome<bool>)
    requires Truthy(cfg.dbInstanceId) && Truthy(cfg.dbSnapshotId)
    requires Interpret(first).Returned? && Interpret(first).value.Truthy()
    requires Interpret(second).Returned?
    ensures var run := HandlerRun(cfg, event, context, first, second, clusterReply, instanceReply, sent);
      && run.outcome == AfterSend(sent)
      && |run.calls| == 4
      && run.calls[0] == run.calls[1] == DescribeDbInstances(cfg.dbInstanceId.value)
      && run.calls[2] == CreateDbClusterSnapshot(SnapshotIdentifier(cfg.dbSnapshotId.value, cfg.now),
                                                 Interpret(second).value)
      && Count(run.calls, ClusterSnapshot) == 1 && Count(run.calls, InstanceSnapshot) == 0
      && Count(run.calls, Describe) == 2 && Count(run.calls, Notify) == 1
  {
    HandlerRunCounts(cfg, event, context, first, second, clusterReply, instanceReply, sent);
    ClusterPathCounts(event, context, SnapshotIdentifier(cfg.dbSnapshotId.value, cfg.now), cfg.dbInstanceId.value,
                      second, clusterReply, sent);
  }

  /** On a falsy first answer (False or an empty identifier) the handler
      creates exactly one instance snapshot, keyed by DBINSTANCEID, and no
      cluster snapshot, after a single query. */
  lemma InstanceBranchCreatesOneInstanceSnapshot(
    cfg: Config, event: Event, context: Context, first: DescribeReply, second: DescribeReply,
    clusterReply: ApiReply, instanceReply: ApiReply, sent: Outcome<bool>)
    requires Truthy(cfg.dbInstanceId) && Truthy(cfg.dbSnapshotId)
    requires Interpret(first).Returned? && !Interpret(first).value.Truthy()
    ensures var run := HandlerRun(cfg, event, context, first, second, clusterReply, instanceReply, sent);
      && run.outcome == AfterSend(sent)
      && |run.calls| == 3
      && run.calls[0] == DescribeDbInstances(cfg.dbInstanceId.value)
      && run.calls[1] == CreateDbSnapshot(SnapshotIdentifier(cfg.dbSnapshotId.value, cfg.now),
                                          cfg.dbInstanceId.value)
      && Count(run.calls, ClusterSnapshot) == 0 && Count(run.calls, InstanceSnapshot) == 1
      && Count(run.calls, Describe) == 1 && Count(run.calls, Notify) == 1
  {
    HandlerRunCounts(cfg, event, context, first, second, clusterReply, instanceReply, sent);
    InstancePathCounts(event, context, SnapshotIdentifier(cfg.dbSnapshotId.value, cfg.now), cfg.dbInstanceId.value,
                       instanceReply, sent);
  }

  /** Whichever branch is taken, every snapshot the handler creates is named
      DBSNAPSHOTID followed by NOW as YYYY-MM-DD. */
  lemma SnapshotNameIndependentOfTopology(
    cfg: Config, event: Event, context: Context, first: DescribeReply, second: DescribeReply,
    clusterReply: ApiReply, instanceReply: ApiReply, sent: Outcome<bool>)
    requires Truthy(cfg.dbInstanceId) && Truthy(cfg.dbSnapshotId)
    ensures var run := HandlerRun(cfg, event, context, first, second, clusterReply, instanceReply, sent);
      forall i :: 0 <= i < |run.calls| ==>
        (run.calls[i].CreateDbClusterSnapshot? ==>
           run.calls[i].clusterSnapshotId == cfg.dbSnapshotId.value + Strftime(cfg.now))
        && (run.calls[i].CreateDbSnapshot? ==>
           run.calls[i].snapshotId == cfg.dbSnapshotId.value + Strftime(cfg.now))
  {
    var run := HandlerRun(cfg, event, context, first, second, clusterReply, instanceReply, sent);
    if Interpret(first).Returned? {
      HandlerRunUnfolds(cfg, event, context, first, second, clusterReply, instanceReply, sent);
      var sid := SnapshotIdentifier(cfg.dbSnapshotId.value, cfg.now);
      assert sid == cfg.dbSnapshotId.value + Strftime(cfg.now);
      var path := if Interpret(first).value.Truthy()
        then ClusterPath(event, context, sid, cfg.dbInstanceId.value, second, clusterReply, sent)
        else InstancePath(event, context, sid, cfg.dbInstanceId.value, instanceReply, sent);
      assert forall i :: 1 <= i < |run.calls| ==> run.calls[i] == path.calls[i - 1];
    }
  }

  /** The report after a successful create is the run's last call: SUCCESS
      with the branch's reason and the log stream name as
      PhysicalResourceId; the cluster response goes out unmodified, the
      instance response with its two timestamps stripped. */
  lemma SuccessReportCarriesResponse(
    cfg: Config, event: Event, context: Context, first: DescribeReply, second: DescribeReply,
    clusterReply: ApiReply, instanceReply: ApiReply, sent: Outcome<bool>)
    requires Truthy(cfg.dbInstanceId) && Truthy(cfg.dbSnapshotId)
    requires Interpret(first).Returned?
    requires Interpret(first).value.Truthy() ==> Interpret(second).Returned? && clusterReply.Ok?
    requires !Interpret(first).value.Truthy() ==> instanceReply.Ok?
    ensures var run := HandlerRun(cfg, event, context, first, second, clusterReply, instanceReply, sent);
      var clustered := Interpret(first).value.Truthy();
      && run.outcome == AfterSend(sent)
      && run.calls[|run.calls| - 1] == PutResponse(event.responseUrl,
           Payload(Success,
                   if clustered then ClusterSnapshotCreated else InstanceSnapshotCreated,
                   context.logStreamName, event.stackId, event.requestId, event.logicalResourceId,
                   if clustered then clusterReply.response else StripSnapshotTimes(instanceReply.response)))
  {
  }

  /** A ClientError from the create call that is made is reported as exactly
      one FAILED callback whose Reason is the error's text and whose Data is
      empty; no SUCCESS callback is sent. */
  lemma CreateFailureReportsFailure(
    cfg: Config, event: Event, context: Context, first: DescribeReply, second: DescribeReply,
    clusterReply: ApiReply, instanceReply: ApiReply, sent: Outcome<bool>, e: ClientError)
    requires Truthy(cfg.dbInstanceId) && Truthy(cfg.dbSnapshotId)
    requires Interpret(first).Returned?
    requires Interpret(first).value.Truthy() ==> Interpret(second).Returned? && clusterReply == Err(e)
    requires !Interpret(first).value.Truthy() ==> instanceReply == Err(e)
    ensures var run := HandlerRun(cfg, event, context, first, second, clusterReply, instanceReply, sent);
      && run.outcome == AfterSend(sent)
      && run.calls[|run.calls| - 1] == PutResponse(event.responseUrl,
           Payload(Failed, OrElse(Some(e.text), DefaultReason(context.logStreamName)), context.logStreamName,
                   event.stackId, event.requestId, event.logicalResourceId, map[]))
      && forall i :: 0 <= i < |run.calls| && run.calls[i].PutResponse? ==> run.calls[i].payload.status == Failed
  {
  }

  /** The handler's configuration is complete and one of the describe
      answers it interprets is an empty DBInstances list. */
  predicate HitsEmptyInstanceList(cfg: Config, first: DescribeReply, second: DescribeReply)
  {
    && Truthy(cfg.dbInstanceId) && Truthy(cfg.dbSnapshotId)
    && (first == Described(Some([]))
        || (Interpret(first).Returned? && Interpret(first).value.Truthy() && second == Described(Some([]))))
  }

  /** Every run attempts exactly one report, as its last call, unless an
      empty DBInstances list stops it first, and then nothing was reported or
      created. The run ends as that report's `send` ends. At most one
      snapshot is ever created, and one is created exactly when the
      configuration is complete and no empty list stops the run. */
  lemma {:induction false} ExactlyOneReport(
    cfg: Config, event: Event, context: Context, first: DescribeReply, second: DescribeReply,
    clusterReply: ApiReply, instanceReply: ApiReply, sent: Outcome<bool>)
    ensures var run := HandlerRun(cfg, event, context, first, second, clusterReply, instanceReply, sent);
      && (!HitsEmptyInstanceList(cfg, first, second) ==>
            Count(run.calls, Notify) == 1 && run.calls[|run.calls| - 1].PutResponse?
            && run.outcome == AfterSend(sent))
      && (HitsEmptyInstanceList(cfg, first, second) ==>
            run.outcome == Threw(IndexError) && Count(run.calls, Notify) == 0
            && forall i :: 0 <= i < |run.calls| ==> !Mutating(run.calls[i]))
      && Count(run.calls, ClusterSnapshot) + Count(run.calls, InstanceSnapshot)
         == (if Truthy(cfg.dbInstanceId) && Truthy(cfg.dbSnapshotId) && !HitsEmptyInstanceList(cfg, first, second)
             then 1 else 0)
  {
    var run := HandlerRun(cfg, event, context, first, second, clusterReply, instanceReply, sent);
    if !Truthy(cfg.dbInstanceId) || !Truthy(cfg.dbSnapshotId) {
      MissingConfigurationReportsFailure(cfg, event, context, first, second, clusterReply, instanceReply, sent);
      CountSingle(run.calls[0], ClusterSnapshot);
      CountSingle(run.calls[0], InstanceSnapshot);
    } else if Interpret(first).Threw? {
      CountSingle(run.calls[0], Notify);
      CountSingle(run.calls[0], ClusterSnapshot);
      CountSingle(run.calls[0], InstanceSnapshot);
    } else {
      AnsweredRunReportsOnce(cfg, event, context, first, second, clusterReply, instanceReply, sent);
    }
  }

  /** The case of ExactlyOneReport where the configuration is complete and
      the first query returned: the selected branch decides the counts. */
  lemma AnsweredRunReportsOnce(
    cfg: Config, event: Event, context: Context, first: DescribeReply, second: DescribeReply,
    clusterReply: ApiReply, instanceReply: ApiReply, sent: Outcome<bool>)
    requires Truthy(cfg.dbInstanceId) && Truthy(cfg.dbSnapshotId) && Interpret(first).Returned?
    ensures var run := HandlerRun(cfg, event, context, first, second, clusterReply, instanceReply, sent);
      && (!HitsEmptyInstanceList(cfg, first, second) ==>
            Count(run.calls, Notify) == 1 && run.calls[|run.calls| - 1].PutResponse?
            && run.outcome == AfterSend(sent)
            && Count(run.calls, ClusterSnapshot) + Count(run.calls, InstanceSnapshot) == 1)
      && (HitsEmptyInstanceList(cfg, first, second) ==>
            run.outcome == Threw(IndexError) && Count(run.calls, Notify) == 0
            && Count(run.calls, ClusterSnapshot) + Count(run.calls, InstanceSnapshot) == 0
            && forall i :: 0 <= i < |run.calls| ==> !Mutating(run.calls[i]))
  {
    HandlerRunCounts(cfg, event, context, first, second, clusterReply, instanceReply, sent);
    var sid := SnapshotIdentifier(cfg.dbSnapshotId.value, cfg.now);
    if Interpret(first).value.Truthy() {
      ClusterPathCounts(event, context, sid, cfg.dbInstanceId.value, second, clusterReply, sent);
    } else {
      InstancePathCounts(event, context, sid, cfg.dbInstanceId.value, instanceReply, sent);
    }
  }

  /** The handler raises exactly when an empty DBInstances list stops it or
      its `send` raises; the first is an IndexError, the second whatever
      escaped `send`. */
  lemma RaisesOnlyOnEmptyInstanceListOrSend(
    cfg: Config, event: Event, context: Context, first: DescribeReply, second: DescribeReply,
    clusterReply: ApiReply, instanceReply: ApiReply, sent: Outcome<bool>)
    ensures var run := HandlerRun(cfg, event, context, first, second, clusterReply, instanceReply, sent);
      && (run.outcome.Threw? <==> HitsEmptyInstanceList(cfg, first, second) || sent.Threw?)
      && (HitsEmptyInstanceList(cfg, first, second) ==> run.outcome == Threw(IndexError))
      && (!HitsEmptyInstanceList(cfg, first, second) && sent.Threw? ==> run.outcome == Threw(sent.exception))
  {
  }

  /** On Python 3 the handler never returns normally: every run that gets as
      far as its report raises TypeError from `send`, so no callback reaches
      CloudFormation, and the only other way out is the IndexError. */
  lemma Python3HandlerAlwaysRaises(
    cfg: Config, event: Event, context: Context, first: DescribeReply, second: DescribeReply,
    clusterReply: ApiReply, instanceReply: ApiReply, endpoint: Endpoint)
    ensures var run := HandlerRun(cfg, event, context, first, second, clusterReply, instanceReply,
                                  Transport(Python3, endpoint));
      && run.outcome.Threw?
      && (run.outcome.exception == TypeError <==> Count(run.calls, Notify) == 1)
      && (run.outcome.exception == TypeError || run.outcome.exception == IndexError)
  {
    ExactlyOneReport(cfg, event, context, first, second, clusterReply, instanceReply, Transport(Python3, endpoint));
  }

  /** On Python 2, a report the endpoint rejects makes the handler raise
      AttributeError from `send`'s own HTTPError handler, so no run that
      reaches its report returns normally unless the endpoint accepts it. */
  lemma Python2RejectedReportRaises(
    cfg: Config, event: Event, context: Context, first: DescribeReply, second: DescribeReply,
    clusterReply: ApiReply, instanceReply: ApiReply, code: int)
    ensures var run := HandlerRun(cfg, event, context, first, second, clusterReply, instanceReply,
                                  Transport(Python2, Rejects(code)));
      && run.outcome.Threw?
      && (run.outcome == Threw(AttributeError) <==> !HitsEmptyInstanceList(cfg, first, second))
      && (run.outcome == Threw(AttributeError) ==> Count(run.calls, Notify) == 1)
  {
    ExactlyOneReport(cfg, event, context, first, second, clusterReply, instanceReply,
                     Transport(Python2, Rejects(code)));
  }

  /** With the intended `send`, a reachable endpoint lets every run that no
      empty DBInstances list stops return normally after its one report,
      whether the endpoint accepts the report or rejects it. */
  lemma IntendedSendLetsHandlerReturn(
    cfg: Config, event: Event, context: Context, first: DescribeReply, second: DescribeReply,
    clusterReply: ApiReply, instanceReply: ApiReply, endpoint: Endpoint)
    requires endpoint != Unreachable
    ensures var run := HandlerRun(cfg, event, context, first, second, clusterReply, instanceReply,
                                  IntendedTransport(endpoint));
      && (run.outcome == Returned(()) <==> !HitsEmptyInstanceList(cfg, first, second))
      && (run.outcome == Returned(()) ==> Count(run.calls, Notify) == 1)
  {
    ExactlyOneReport(cfg, event, context, first, second, clusterReply, instanceReply, IntendedTransport(endpoint));
  }

  // Concrete runs

  /** The snapshot name for prefix "test-snapshot-prefix" on 1 January 2023. */
  lemma SnapshotNameExample()
    ensures SnapshotIdentifier("test-snapshot-prefix", Date(2023, 1, 1)) == "test-snapshot-prefix2023-01-01"
  {
    assert DigitChar(0) == '0' && DigitChar(1) == '1' && DigitChar(2) == '2' && DigitChar(3) == '3';
    assert TwoDigits(20) == "20" && TwoDigits(23) == "23" && TwoDigits(1) == "01";
    assert FourDigits(2023) == "2023";
    assert Strftime(Date(2023, 1, 1)) == "2023-01-01";
  }

  /** An instance-snapshot response loses its two creation times and keeps
      its identifier and status. */
  lemma StripSnapshotTimesExample()
    ensures StripSnapshotTimes(map["DBSnapshot" := map[
              "DBSnapshotIdentifier" := Text("test-snapshot-prefix2023-01-01"),
              "Status" := Text("available"),
              "SnapshotCreateTime" := Timestamp("some-time"),
              "InstanceCreateTime" := Timestamp("some-other-time")]])
         == map["DBSnapshot" := map[
              "DBSnapshotIdentifier" := Text("test-snapshot-prefix2023-01-01"),
              "Status" := Text("available")]]
  {
    var kept: Record := map["DBSnapshotIdentifier" := Text("test-snapshot-prefix2023-01-01"),
                            "Status" := Text("available")];
    var full := kept["SnapshotCreateTime" := Timestamp("some-time")]["InstanceCreateTime" := Timestamp("some-other-time")];
    assert full - VolatileFields == kept;
  }
}
