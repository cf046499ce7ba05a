/** The external collaborators of one invocation, as an abstract control
    plane: the RDS operations the core calls, the replies they may give, the
    callback PUT, and the ordered trace of every call made. */
module ControlPlane {
  import opened Values
  import opened Callback

  /** botocore's ClientError, carried as its `str()` rendering. */
  datatype ClientError = ClientError(text: string)

  /** One entry of `DBInstances`; `clusterId` is `None` when the entry has no
      `DBClusterIdentifier` key. */
  datatype InstanceEntry = InstanceEntry(clusterId: Option<string>)

  /** What `describe_db_instances` gives back: a response whose `DBInstances`
      list may be missing (`None`), or a ClientError. */
  datatype DescribeReply =
    | Described(instances: Option<seq<InstanceEntry>>)
    | DescribeRefused(error: ClientError)

  /** What a create-snapshot or restore call gives back. */
  datatype ApiReply = Ok(response: Response) | Err(error: ClientError)

  /** The interpreter the Lambda runs on. `send` imports urllib2 on Python 2
      and urllib.request on Python 3. */
  datatype Runtime = Python2 | Python3

  /** What the callback endpoint does with a PUT that reaches the network:
      accept it, answer with an HTTP error status, or not be reachable. */
  datatype Endpoint = Accepts | Rejects(code: int) | Unreachable

  /** What `query_db_cluster` returns when it returns: a cluster identifier
      (possibly empty), or Python's `False`. */
  datatype QueryValue = Cluster(id: string) | NotClustered {
    /** `bool()` of the returned value. */
    predicate Truthy()
      ensures Truthy() <==> this != NotClustered && this != Cluster("")
    {
      Cluster? && id != ""
    }
  }

  /** The exceptions that leave the core's entry points. */
  datatype Exception =
    | IndexError
    | ValueError(message: string)
    | Raised(error: ClientError)
    | TypeError
    | AttributeError
    | URLError

  /** How a Python call ends: it returns a value or raises. */
  datatype Outcome<T> = Returned(value: T) | Threw(exception: Exception)

  /** How the PUT in `send` ends, as `send` sees it: `Returned(b)` when
      `send` returns `b`, `Threw(e)` when `e` escapes `send`. The body is the
      `str` that `json.dumps` gives. Python 3's urllib.request accepts only
      bytes as data, so `opener.open` raises TypeError before anything is
      sent, whatever the endpoint would do. Python 2's urllib2 sends it, and
      the endpoint's answer decides. An acceptance gives `True`. An HTTPError
      reaches the handler, whose log call reads `request.full_url`; urllib2's
      Request has no such attribute, so AttributeError escapes instead of
      `False`. An unreachable endpoint lets the URLError escape. */
  function Transport(runtime: Runtime, endpoint: Endpoint): (r: Outcome<bool>)
    ensures r != Returned(false)
    ensures runtime == Python3 ==> r == Threw(TypeError)
    ensures runtime == Python2 ==> (r == Returned(true) <==> endpoint == Accepts)
    ensures runtime == Python2 ==> (r == Threw(AttributeError) <==> endpoint.Rejects?)
    ensures runtime == Python2 ==> (r == Threw(URLError) <==> endpoint == Unreachable)
    ensures r.Threw? ==> r.exception in {TypeError, AttributeError, URLError}
  {
    if runtime == Python3 then Threw(TypeError)
    else match endpoint
      case Accepts => Returned(true)
      case Rejects(_) => Threw(AttributeError)
      case Unreachable => Threw(URLError)
  }

  /** The PUT as `send` is evidently meant to end, on either interpreter:
      the body passed as bytes and the URL read in a way both Request classes
      support. It differs from Python 2's as-written PUT only in that an
      HTTPError is caught and gives `False`. */
  function IntendedTransport(endpoint: Endpoint): (r: Outcome<bool>)
    ensures r == Returned(true) <==> endpoint == Accepts
    ensures r == Returned(false) <==> endpoint.Rejects?
    ensures r.Threw? <==> endpoint == Unreachable
    ensures r.Threw? ==> r.exception == URLError
    ensures !endpoint.Rejects? ==> r == Transport(Python2, endpoint)
  {
    if endpoint.Rejects? then Returned(false) else Transport(Python2, endpoint)
  }

  /** One externally visible call, with the arguments it was made with. */
  datatype Call =
    | DescribeDbInstances(instanceId: string)
    | CreateDbClusterSnapshot(clusterSnapshotId: string, clusterId: QueryValue)
    | CreateDbSnapshot(snapshotId: string, instanceId: string)
    | RestoreDbClusterToPointInTime(newClusterId: string, sourceClusterId: QueryValue, useLatestRestorableTime: bool)
    | RestoreDbInstanceToPointInTime(sourceInstanceId: string, targetInstanceId: string, useLatestRestorableTime: bool)
    | PutResponse(url: string, payload: Payload)

  /** The kind of a call, for counting. */
  datatype Op = Describe | ClusterSnapshot | InstanceSnapshot | ClusterRestore | InstanceRestore | Notify

  function OpOf(c: Call): Op
  {
    match c
    case DescribeDbInstances(_) => Describe
    case CreateDbClusterSnapshot(_, _) => ClusterSnapshot
    case CreateDbSnapshot(_, _) => InstanceSnapshot
    case RestoreDbClusterToPointInTime(_, _, _) => ClusterRestore
    case RestoreDbInstanceToPointInTime(_, _, _) => InstanceRestore
    case PutResponse(_, _) => Notify
  }

  /** Calls that change state in the control plane. */
  predicate Mutating(c: Call)
  {
    OpOf(c) in {ClusterSnapshot, InstanceSnapshot, ClusterRestore, InstanceRestore}
  }

  /** The number of calls of kind `op` in a trace. */
  function Count(calls: seq<Call>, op: Op): (n: nat)
    ensures n <= |calls|
  {
    if calls == [] then 0
    else (if OpOf(calls[0]) == op then 1 else 0) + Count(calls[1..], op)
  }

  /** A kind counts zero exactly when no call in the trace is of that kind. */
  lemma {:induction false} CountZero(calls: seq<Call>, op: Op)
    ensures Count(calls, op) == 0 <==> forall i :: 0 <= i < |calls| ==> OpOf(calls[i]) != op
  {
    if calls != [] {
      CountZero(calls[1..], op);
      assert forall i :: 1 <= i < |calls| ==> calls[i] == calls[1..][i - 1];
    }
  }

  lemma {:induction false} CountAppend(a: seq<Call>, b: seq<Call>, op: Op)
    ensures Count(a + b, op) == Count(a, op) + Count(b, op)
  {
    if a == [] {
      assert a + b == b;
    } else {
      assert (a + b)[1..] == a[1..] + b;
      CountAppend(a[1..], b, op);
    }
  }

  lemma CountSingle(c: Call, op: Op)
    ensures Count([c], op) == if OpOf(c) == op then 1 else 0
  {
    assert [c][1..] == [];
  }

  lemma CountCons(c: Call, rest: seq<Call>, op: Op)
    ensures Count([c] + rest, op) == (if OpOf(c) == op then 1 else 0) + Count(rest, op)
  {
    assert ([c] + rest)[1..] == rest;
  }

  /** Counting in traces of two and three calls. */
  lemma CountPair(a: Call, b: Call, op: Op)
    ensures Count([a, b], op) == (if OpOf(a) == op then 1 else 0) + (if OpOf(b) == op then 1 else 0)
  {
    assert [a, b] == [a] + [b];
    CountCons(a, [b], op);
    CountSingle(b, op);
  }

  lemma CountTriple(a: Call, b: Call, c: Call, op: Op)
    ensures Count([a, b, c], op)
         == (if OpOf(a) == op then 1 else 0) + (if OpOf(b) == op then 1 else 0) + (if OpOf(c) == op then 1 else 0)
  {
    assert [a, b, c] == [a] + [b, c];
    CountCons(a, [b, c], op);
    CountPair(b, c, op);
  }

  /** An outcome together with the calls made to reach it, in order. */
  datatype Run<T> = Run(outcome: T, calls: seq<Call>)

  /** The world one invocation talks to: the RDS client and the callback
      endpoint, reached on a given interpreter. It answers each call from a
      fixed script and records every request issued in `calls`, whether or
      not it reached the network. Describe answers are scripted per call, so
      two queries in one invocation may be answered differently. */
  class Cloud {
    var calls: seq<Call>
    const describeReply: nat -> DescribeReply
    const clusterSnapshotReply: ApiReply
    const instanceSnapshotReply: ApiReply
    const runtime: Runtime
    const endpoint: Endpoint

    /** The answer the next describe call receives. */
    function NextDescribe(): DescribeReply
      reads this
    {
      describeReply(Count(calls, Describe))
    }

    constructor (describeReply: nat -> DescribeReply, clusterSnapshotReply: ApiReply,
                 instanceSnapshotReply: ApiReply, runtime: Runtime, endpoint: Endpoint)
      ensures calls == []
      ensures this.describeReply == describeReply
      ensures this.clusterSnapshotReply == clusterSnapshotReply
      ensures this.instanceSnapshotReply == instanceSnapshotReply
      ensures this.runtime == runtime && this.endpoint == endpoint
    {
      calls := [];
      this.describeReply := describeReply;
      this.clusterSnapshotReply := clusterSnapshotReply;
      this.instanceSnapshotReply := instanceSnapshotReply;
      this.runtime := runtime;
      this.endpoint := endpoint;
    }

    method DescribeDbInstances(instanceId: string) returns (reply: DescribeReply)
      modifies this
      ensures reply == old(NextDescribe())
      ensures calls == old(calls) + [Call.DescribeDbInstances(instanceId)]
      ensures Count(calls, Describe) == old(Count(calls, Describe)) + 1
    {
      reply := NextDescribe();
      CountAppend(calls, [Call.DescribeDbInstances(instanceId)], Describe);
      CountSingle(Call.DescribeDbInstances(instanceId), Describe);
      calls := calls + [Call.DescribeDbInstances(instanceId)];
    }

    method CreateDbClusterSnapshot(clusterSnapshotId: string, clusterId: QueryValue) returns (reply: ApiReply)
      modifies this
      ensures reply == clusterSnapshotReply
      ensures calls == old(calls) + [Call.CreateDbClusterSnapshot(clusterSnapshotId, clusterId)]
    {
      reply := clusterSnapshotReply;
      calls := calls + [Call.CreateDbClusterSnapshot(clusterSnapshotId, clusterId)];
    }

    method CreateDbSnapshot(snapshotId: string, instanceId: string) returns (reply: ApiReply)
      modifies this
      ensures reply == instanceSnapshotReply
      ensures calls == old(calls) + [Call.CreateDbSnapshot(snapshotId, instanceId)]
    {
      reply := instanceSnapshotReply;
      calls := calls + [Call.CreateDbSnapshot(snapshotId, instanceId)];
    }

    /** Opens the PUT request carrying `payload`, as `send` does with its
        `str` body: the attempt is recorded, and it ends as Transport says. */
    method Put(url: string, payload: Payload) returns (r: Outcome<bool>)
      modifies this
      ensures r == Transport(runtime, endpoint)
      ensures runtime == Python3 ==> r == Threw(TypeError)
      ensures calls == old(calls) + [PutResponse(url, payload)]
    {
      r := Transport(runtime, endpoint);
      calls := calls + [PutResponse(url, payload)];
    }
  }
}
