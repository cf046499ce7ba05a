# RDS backup and restore: a Dafny model

This project models the decision logic of an RDS backup Lambda and its
companion restore script:

- `query_db_cluster` (common/utils.py). It asks the RDS control plane
  whether an instance belongs to a cluster. It returns the
  `DBClusterIdentifier` of the first `DBInstances` entry. A missing key and
  a ClientError both become `False`. An empty `DBInstances` list raises
  IndexError, which the function does not catch.
- `handler` and `send` (lambda_function.py). The handler is a CloudFormation
  custom-resource handler. It first checks `DBInstanceIdentifier` and
  `DBSnapshotIdentifier`. It then creates one cluster snapshot or one
  instance snapshot, named by the prefix followed by today's date as
  `YYYY-MM-DD`. Finally it attempts one SUCCESS or FAILED report, a PUT to
  the event's pre-signed URL. Whether that PUT goes out depends on the
  interpreter (see Findings).
- `main` (rds_restore.py). It restores a cluster, or a standalone instance,
  to its latest restorable time. Missing configuration raises ValueError.
  A ClientError from the restore call is re-raised as it came.

Every call into the control plane or to the callback endpoint is recorded in
order as a `Call`. A run is therefore an outcome together with the calls
made to reach it (`ControlPlane.Run`); `ControlPlane.Count` counts calls of
one kind.

- `handler` is imperative Python: a sequence of calls on an RDS client
  object. It is modelled as the method `LambdaFunction.Handler`, which issues
  its calls on a `ControlPlane.Cloud` object. That object answers from a
  fixed script and appends each call to its `calls` field. `Handler` is
  proved equal to the single-pass function `LambdaFunction.HandlerRun`, and
  the handler's properties are lemmas about `HandlerRun`.
- `query_db_cluster` and `main` are modelled as functions from the
  configuration and the control plane's answers to a `Run`
  (`Utils.QueryDbCluster`, `RdsRestore.Main`).

The answers to the two describe calls that `handler` and `main` make are
independent inputs. The code queries twice on the cluster path, and the
second answer is the one that names the cluster. The model keeps that: the
cluster-snapshot and cluster-restore calls carry the second query's value,
even when that value is `False`.

Python details that decide behaviour are written out:

- truthiness: `None` and `""` are falsy;
- `x or default`;
- `dict.get(key, default)`;
- which exceptions each `try` catches.

In the default Reason of `send`, the backslash-newline inside the string
literal keeps the next line's indentation. The text therefore has thirteen
spaces between "in" and "CloudWatch", and `Callback.DefaultReason` has them
too.

Three behaviours of the code differ from what one might expect of such an
orchestrator. The model follows the code in each case:

- One might expect a failed topology query to be an error, and topology to
  be resolved once per invocation. The code instead turns a ClientError into
  `False`, which selects the standalone path, and it queries twice on the
  cluster path.
- One might expect a topology failure to end in a FAILED callback. In the
  code, an IndexError from `query_db_cluster` escapes `handler` without any
  callback.
- One might expect a restore from the latest snapshot, or a check of the
  remaining time before a multi-step path. The code has neither.

How `send` ends is an input to the handler specification:
`LambdaFunction.HandlerRun` takes the outcome of `send`. The `Cloud` object
derives that outcome from the interpreter and the endpoint's behaviour
(`ControlPlane.Transport`).

Layout, one module per file: `values.dfy` (`Values`), `callback.dfy`
(`Callback`), `control_plane.dfy` (`ControlPlane`), `utils.dfy` (`Utils`),
`date_format.dfy` (`DateFormat`), `lambda_function.dfy` (`LambdaFunction`),
`rds_restore.dfy` (`RdsRestore`).

## Model

| member | source | states |
|---|---|---|
| Values.Option.GetOr | lambda_function.py:95 | `event.get('PhysicalResourceId', default)`: the stored value when the key is present, otherwise the default |
| Values.OrElse | lambda_function.py:52-55 | `s or default`: a non-empty string is kept; `None` and `""` both give the default |
| Values.Truthy | lambda_function.py:91 | `bool()` of an optional string: exactly `None` and `""` are false |
| Values.GetMember | rds_restore.py:58 | `response.get(outer, {}).get(inner)`: present exactly when both members exist, and then their value |
| Callback.Status.Text | lambda_function.py:35-36 | the wire spellings are "SUCCESS" and "FAILED", and "SUCCESS" means Success |
| Callback.Payload.StringMembers | lambda_function.py:50-58 | the JSON object has exactly the members Status, Reason, PhysicalResourceId, StackId, RequestId and LogicalResourceId besides Data; Status is "SUCCESS" exactly for Success and "FAILED" exactly for Failed; the identifiers are the payload's |
| Callback.DefaultReason | lambda_function.py:52-53 | the fallback Reason is longer than the log stream name and ends with it |
| Callback.BuildPayload | lambda_function.py:43-61 | Status is copied; Reason falls back to the CloudWatch pointer; PhysicalResourceId falls back to the log stream name; StackId, RequestId and LogicalResourceId come from the event; Data falls back to `{}` |
| Callback.PayloadNeverBlank | lambda_function.py:52-55 | Reason is never empty; PhysicalResourceId is empty only when the log stream name is |
| Callback.FalsyArgumentsAreDefaults | lambda_function.py:48-55 | an empty Reason, Data or PhysicalResourceId argument yields the same payload as an absent one |
| ControlPlane.QueryValue.Truthy | lambda_function.py:100 | `bool()` of what `query_db_cluster` returns: false exactly for `False` and for an empty identifier |
| ControlPlane.Transport | lambda_function.py:63-75 | `send` as written never returns False. On Python 3 the `str` body makes `opener.open` raise TypeError whatever the endpoint does. On Python 2 it returns True exactly when the endpoint accepts. An HTTP error status raises AttributeError, because urllib2's Request has no `full_url` (line 74). A URLError escapes exactly when the endpoint is unreachable |
| ControlPlane.IntendedTransport | lambda_function.py:68-75 | the `send` the try/except is written for, on either interpreter: True exactly on acceptance, False exactly on an HTTP error status, and a URLError escapes exactly when the endpoint is unreachable; it agrees with Python 2's as-written PUT except on an HTTP error status |
| ControlPlane.Count | tests/unit/test_rds_restore.py:53 | the number of calls of one kind, "called once" in the tests; never more than the trace's length |
| ControlPlane.CountZero | tests/unit/test_rds_restore.py:53 | a kind counts zero exactly when no call of the trace has that kind |
| ControlPlane.CountAppend | tests/unit/test_rds_restore.py:53 | counts add up over concatenated traces |
| ControlPlane.Cloud.constructor | lambda_function.py:37 | a fresh client has recorded no calls, and holds the given scripted answers, interpreter and endpoint behaviour |
| ControlPlane.Cloud.DescribeDbInstances | common/utils.py:36-38 | the scripted answer is returned, the call is appended to the trace, and the describe count goes up by one |
| ControlPlane.Cloud.CreateDbClusterSnapshot | lambda_function.py:106-109 | the scripted answer is returned and the call, with its arguments, is appended to the trace |
| ControlPlane.Cloud.CreateDbSnapshot | lambda_function.py:120-123 | the scripted answer is returned and the call, with its arguments, is appended to the trace |
| ControlPlane.Cloud.Put | lambda_function.py:63-75 | the attempt is appended to the trace, and it ends as Transport says for the client's interpreter and endpoint: TypeError on Python 3, and AttributeError on Python 2 for an HTTP error status |
| Utils.Interpret | common/utils.py:35-42 | raises IndexError exactly on an empty DBInstances list; returns a cluster exactly when the first entry has DBClusterIdentifier, and then that identifier; `False` otherwise, including on a ClientError |
| Utils.QueryDbCluster | common/utils.py:29-42 | exactly one describe call, for the given instance |
| Utils.ClusterIdReturned | common/utils.py:39 | a present DBClusterIdentifier on the first entry is returned verbatim |
| Utils.ApiErrorLooksStandalone | common/utils.py:40-42 | a ClientError and an entry without DBClusterIdentifier both give `False` |
| Utils.OnlyFirstEntryMatters | common/utils.py:39 | entries after the first never change the answer |
| Utils.TruthyExactlyWhenClustered | common/utils.py:35-42 | the query never raises a ClientError, and it is truthy exactly when the first entry names a non-empty cluster |
| DateFormat.Strftime | lambda_function.py:105 | `%Y-%m-%d` is ten characters, with dashes at positions 4 and 7 and digits elsewhere |
| DateFormat.ParseDate | lambda_function.py:105 | a string that parses gives a valid calendar date |
| DateFormat.ParseStrftime | lambda_function.py:105 | a rendered date reads back as that date |
| DateFormat.StrftimeInjective | lambda_function.py:105 | two dates render alike exactly when they are equal |
| DateFormat.SnapshotIdentifier | lambda_function.py:105 | the identifier is the prefix followed by ten characters |
| DateFormat.SnapshotIdentifierDate | lambda_function.py:119 | the date reads back from the identifier's tail |
| DateFormat.SnapshotIdentifierInjective | lambda_function.py:105 | identifiers are equal exactly when prefix and day are; a second run on the same day reuses the name |
| LambdaFunction.StripSnapshotTimes | lambda_function.py:126-130 | DBSnapshot loses exactly SnapshotCreateTime and InstanceCreateTime; every other member and every other value is unchanged; a response without DBSnapshot passes through |
| LambdaFunction.StripSnapshotTimesStable | lambda_function.py:126-130 | stripping is idempotent, and leaves a response without those fields unchanged |
| LambdaFunction.Report | lambda_function.py:43-64 | the PUT `send` issues goes to the event's ResponseURL, with the requested status and the event's three identifiers, and changes nothing in RDS |
| LambdaFunction.ReportSpellsStatus | lambda_function.py:49-58 | the Status member of the JSON body is the wire spelling of the status `send` was given |
| LambdaFunction.ReportReply | lambda_function.py:111-114 | after a create, the report is SUCCESS exactly when the create succeeded, carrying its response (stripped on the instance branch, lines 126-131) and the branch's reason; otherwise it is FAILED with `str(error) or` the default reason and Data `{}`; PhysicalResourceId is the log stream name |
| LambdaFunction.ReportReplySpellsStatus | lambda_function.py:111-114 | the report after a create spells its Status "SUCCESS" exactly when the create succeeded and "FAILED" exactly when it failed |
| LambdaFunction.AfterSend | lambda_function.py:111-114 | the handler discards `send`'s boolean; whatever escapes `send` escapes the handler, because the surrounding `except` catches only ClientError |
| LambdaFunction.ClusterPath | lambda_function.py:100-114 | the cluster branch begins with a second describe; if that query raises, the branch ends with the same exception after that one call; otherwise a cluster snapshot keyed by the second answer follows, then a report, and the branch ends as `send` ends |
| LambdaFunction.InstancePath | lambda_function.py:115-134 | the instance branch is one instance snapshot keyed by DBINSTANCEID and one report, and ends as `send` ends |
| LambdaFunction.HandlerRun | lambda_function.py:78-134 | every run makes at least one call; a configured run starts with a describe of DBINSTANCEID; an unconfigured run is a single report and ends as `send` ends |
| LambdaFunction.Send | lambda_function.py:43-75 | exactly one PUT to ResponseURL carrying the built payload; it ends as Transport says for the interpreter and endpoint, so it never returns False |
| LambdaFunction.QueryTopology | lambda_function.py:100-101 | one describe call, interpreted as `query_db_cluster` interprets its reply |
| LambdaFunction.SnapshotCluster | lambda_function.py:101-114 | the cluster branch issues exactly the calls of its specification and reaches its outcome |
| LambdaFunction.SnapshotInstance | lambda_function.py:116-134 | the instance branch issues exactly the calls of its specification; the two `pop`s equal stripping the volatile fields |
| LambdaFunction.ReportMissingConfiguration | lambda_function.py:91-97 | the early exit issues one FAILED report with the fixed reason and `event.get('PhysicalResourceId', log stream)`, and ends as `send` ends |
| LambdaFunction.Handler | lambda_function.py:78-134 | the outcome and every call made equal HandlerRun, given the next two describe answers, the create answers and the transport outcome |
| LambdaFunction.MissingConfigurationReportsFailure | lambda_function.py:91-97 | a missing or empty setting means no RDS call, and one FAILED report with the fixed reason, Data `{}` and the event's PhysicalResourceId or the log stream name; the run ends as that `send` ends |
| LambdaFunction.ClusterPathCounts | lambda_function.py:101-114 | the cluster branch describes once; it creates one cluster snapshot and reports once exactly when that query returns, and otherwise ends with the query's exception |
| LambdaFunction.InstancePathCounts | lambda_function.py:116-134 | the instance branch creates one instance snapshot and reports once |
| LambdaFunction.HandlerRunUnfolds | lambda_function.py:100-134 | with complete configuration and a first answer, a run is one describe followed by the branch that answer selects |
| LambdaFunction.HandlerRunCounts | lambda_function.py:100-134 | such a run's counts are the branch's, plus one describe |
| LambdaFunction.ClusterBranchCreatesOneClusterSnapshot | lambda_function.py:100-111 | a truthy first answer leads to two describes and one cluster snapshot, keyed by the second answer, with no instance snapshot and one report; the run ends as `send` ends |
| LambdaFunction.InstanceBranchCreatesOneInstanceSnapshot | lambda_function.py:115-123 | a falsy first answer leads to one describe and one instance snapshot, keyed by DBINSTANCEID, with no cluster snapshot and one report; the run ends as `send` ends |
| LambdaFunction.SnapshotNameIndependentOfTopology | lambda_function.py:105 | on both branches, every snapshot is named prefix + `%Y-%m-%d` of NOW |
| LambdaFunction.SuccessReportCarriesResponse | lambda_function.py:111 | after a successful create, the last call is the SUCCESS report with the branch's reason and the response, stripped on the instance branch |
| LambdaFunction.CreateFailureReportsFailure | lambda_function.py:112-114 | a ClientError from the create ends in a FAILED report whose Reason is its text and whose Data is `{}`; no report is SUCCESS |
| LambdaFunction.ExactlyOneReport | lambda_function.py:78-134 | unless an empty DBInstances list stops it, a run attempts exactly one report, as its last call, and ends as that `send` ends; a run that list stops raises IndexError, and nothing was reported or created; one snapshot exactly when configured and not stopped |
| LambdaFunction.RaisesOnlyOnEmptyInstanceListOrSend | lambda_function.py:78-134 | the handler raises exactly when an interpreted describe has an empty DBInstances list (IndexError) or its `send` raises (that exception) |
| LambdaFunction.Python3HandlerAlwaysRaises | lambda_function.py:26-27 | on Python 3 no run returns: a run that attempts its report raises TypeError, and the only other outcome is the IndexError |
| LambdaFunction.Python2RejectedReportRaises | lambda_function.py:73-75 | on Python 2, a rejected report makes every run raise: AttributeError exactly when the run reached its one report, and IndexError otherwise |
| LambdaFunction.IntendedSendLetsHandlerReturn | lambda_function.py:63-75 | with the intended `send` and a reachable endpoint, a run returns normally exactly when no empty DBInstances list stops it, whether the endpoint accepts or rejects the report, and then it has sent one report |
| LambdaFunction.SnapshotNameExample | tests/unit/test_lambda_function.py:89 | prefix "test-snapshot-prefix" on 2023-01-01 gives "test-snapshot-prefix2023-01-01" |
| LambdaFunction.StripSnapshotTimesExample | tests/unit/test_lambda_function.py:106-124 | the test's snapshot response keeps only its identifier and status |
| RdsRestore.EnvGet | rds_restore.py:44 | `os.environ.get(name)` is present exactly when the variable is set |
| RdsRestore.RestoreCluster | rds_restore.py:43-61 | the clustered branch starts with its second describe; a restore call follows exactly when that query returns and NEW_CLUSTER_ID is set; without one it raises, and not a ClientError |
| RdsRestore.RestoreInstance | rds_restore.py:63-80 | the standalone branch makes at most one call, a restore from instanceid, and makes it exactly when NEW_INSTANCEID is set; otherwise it raises its ValueError |
| RdsRestore.Main | rds_restore.py:33-80 | no call at all exactly when instanceid is falsy; otherwise the first call describes instanceid; a status is returned only after a restore, made as the last call |
| RdsRestore.Finish | rds_restore.py:58-61 | a successful restore returns the status member or `None`; a ClientError is re-raised unchanged |
| RdsRestore.RestoreClusterCounts | rds_restore.py:43-61 | the clustered branch restores a cluster once exactly when its query returns and NEW_CLUSTER_ID is set, and makes no other mutating call |
| RdsRestore.RestoreInstanceCounts | rds_restore.py:63-80 | the standalone branch restores an instance once exactly when NEW_INSTANCEID is set, and makes no other call |
| RdsRestore.MainTraceShape | rds_restore.py:33-80 | `main` never snapshots or calls back; each restore happens once exactly when its branch is reached, and otherwise never |
| RdsRestore.MissingInstanceIdRaisesFirst | rds_restore.py:38-40 | a falsy instanceid raises its ValueError before any call |
| RdsRestore.MissingNewClusterIdRaises | rds_restore.py:42-48 | a missing NEW_CLUSTER_ID raises its ValueError after the two describes and before any restore |
| RdsRestore.MissingNewInstanceIdRaises | rds_restore.py:62-67 | a missing NEW_INSTANCEID raises its ValueError after the single describe and before any restore |
| RdsRestore.ClusterRestoreOnce | rds_restore.py:49-61 | one restore from the second query's cluster into NEW_CLUSTER_ID at the latest restorable time; returns DBCluster.Status or re-raises |
| RdsRestore.InstanceRestoreOnce | rds_restore.py:68-80 | one restore from instanceid into NEW_INSTANCEID at the latest restorable time; returns DBInstance.DBInstanceStatus or re-raises |
| RdsRestore.NeverBothRestores | rds_restore.py:42-80 | at most one restore per run, and the first answer alone selects which |
| RdsRestore.ClientErrorReraisedUnchanged | rds_restore.py:59-61 | a ClientError escapes exactly when the restore call made answered with it, and it is that error |
| RdsRestore.ClusterRestoreExample | tests/unit/test_rds_restore.py:46-57 | cluster "old-cluster-id" restored into "new-test-cluster" returns "restoring" |
| RdsRestore.InstanceRestoreExample | tests/unit/test_rds_restore.py:61-72 | standalone "test-db-instance" restored into "new-test-instance" returns "restoring" |

## Left out

- common/utils.py as written does not compile. Line 9 assigns `__version__` before the `from __future__` import of line 11, and a future statement may follow only the docstring, comments and other future statements. So the imports at lambda_function.py:29 and rds_restore.py:20 raise SyntaxError, on Python 2 and 3 alike, before `handler` or `main` can run. The model treats the module as if the future import came first.
- Constructing the boto3 clients, and reading the environment at import time. The configuration is a parameter (`LambdaFunction.Config`, the `env` map of `RdsRestore.Main`).
- Logging, including the `logger.info` calls whose `.get(..., {})` chains only feed log messages.
- JSON serialisation of the payload and of the event. `json.dumps` would fail on datetime values the payload's Data still holds: those of a forwarded cluster-snapshot response, and every timestamp of an instance-snapshot response other than the two stripped ones. The model has no such failure.
- HTTP transport details: the opener, the headers, and the status code and message. How the PUT ends is modelled (`ControlPlane.Transport`); what is on the wire is not.
- Exceptions from boto3 other than ClientError. For example, ParamValidationError would be raised when the second query returns `False` and `False` is passed as DBClusterIdentifier. The model records that call with `NotClustered` and uses the scripted answer.
- A KeyError from an event that lacks StackId, RequestId, LogicalResourceId or ResponseURL. The `Callback.Event` record always has these fields.
- The `__main__` blocks of every file, and the exit codes of rds_restore.py. query_db.py is not part of this model.
- The clock: NOW is a parameter. Its time of day does not affect `%Y-%m-%d`.
- DateFormat.Strftime: pads the year to four digits for years below 1000. Some C libraries print such years unpadded.
- LambdaFunction.SnapshotInstance: models the in-place `pop`s on a new map value. Aliasing of `response['DBSnapshot']` with other references is not captured.
- Response values are plain strings, timestamps and nested maps. Lists and numbers inside RDS responses are not modelled, because no core decision reads them.

## Findings

| source | as written | input that shows it | evidently intended | confidence | as-written member | corrected member |
|---|---|---|---|---|---|---|
| lambda_function.py:49-69 | `send` passes the `str` from `json.dumps` as `data`, and on Python 3 `Request` comes from urllib.request, whose `opener.open` accepts only bytes and raises TypeError. That is not the HTTPError `send` catches, nor the ClientError the handler catches | any run on Python 3 that reaches `send`, including the missing-configuration path | the PUT is sent, and `send` returns True or False (`response_body.encode('utf-8')`) | high, not executed | LambdaFunction.Python3HandlerAlwaysRaises | LambdaFunction.IntendedSendLetsHandlerReturn |
| lambda_function.py:73-75 | on Python 2, where `Request` comes from urllib2 (line 24), the HTTPError branch passes `request.full_url` to `logger.error`. That Request class has no `full_url` attribute, so AttributeError escapes `send` and the handler before `return False` | any run on Python 2 whose report the endpoint answers with an HTTP error status, e.g. 403 | the error is logged (`request.get_full_url()`) and `send` returns False | high, not executed | LambdaFunction.Python2RejectedReportRaises | ControlPlane.IntendedTransport |

`HandlerRun` takes the outcome of `send` as an input. So the handler
specification and all its lemmas apply equally to the code as written
(`ControlPlane.Transport`, which `Cloud` uses) and to the intended `send`,
with a bytes body and `get_full_url()` (`ControlPlane.IntendedTransport`).
