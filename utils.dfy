/** `query_db_cluster` of common/utils.py: one describe call, interpreted as
    a cluster identifier, as `False`, or as an escaping IndexError. */
module Utils {
  import opened Values
  import opened ControlPlane

  /** The value of `db_instance['DBInstances'][0]['DBClusterIdentifier']`
      under the function's `except (KeyError, ClientError)`: both a missing
      key and an API error become `False`; an empty list is not caught. */
  function Interpret(reply: DescribeReply): (r: Outcome<QueryValue>)
    ensures r.Threw? <==> reply == Described(Some([]))
    ensures r.Threw? ==> r.exception == IndexError
    ensures r.Returned? && r.value.Cluster? <==>
      reply.Described? && reply.instances.Some? && |reply.instances.value| > 0
      && reply.instances.value[0].clusterId.Some?
    ensures r.Returned? && r.value.Cluster? ==>
      r.value.id == reply.instances.value[0].clusterId.value
  {
    match reply
    case DescribeRefused(_) => Returned(NotClustered)
    case Described(None) => Returned(NotClustered)
    case Described(Some(entries)) =>
      if entries == [] then Threw(IndexError)
      else match entries[0].clusterId
        case Some(id) => Returned(Cluster(id))
        case None => Returned(NotClustered)
  }

  /** `query_db_cluster(instanceid)`, answered by `reply`. */
  function QueryDbCluster(instanceId: string, reply: DescribeReply): (r: Run<Outcome<QueryValue>>)
    ensures r.calls == [DescribeDbInstances(instanceId)]
  {
    Run(Interpret(reply), [DescribeDbInstances(instanceId)])
  }

  /** A present DBClusterIdentifier on the first entry is returned verbatim. */
  lemma ClusterIdReturned(instanceId: string, id: string, rest: seq<InstanceEntry>)
    ensures QueryDbCluster(instanceId, Described(Some([InstanceEntry(Some(id))] + rest))).outcome
         == Returned(Cluster(id))
  {
  }

  /** A ClientError from the describe call yields exactly what an instance
      without a cluster yields: the caller cannot tell the two apart. */
  lemma ApiErrorLooksStandalone(instanceId: string, e: ClientError, rest: seq<InstanceEntry>)
    ensures QueryDbCluster(instanceId, DescribeRefused(e)).outcome
         == QueryDbCluster(instanceId, Described(Some([InstanceEntry(None)] + rest))).outcome
         == Returned(NotClustered)
  {
  }

  /** Only the first entry of DBInstances is consulted. */
  lemma OnlyFirstEntryMatters(e: InstanceEntry, rest: seq<InstanceEntry>)
    ensures Interpret(Described(Some([e] + rest))) == Interpret(Described(Some([e])))
  {
  }

  /** The query never raises a ClientError, and returns a truthy value
      exactly when the first entry names a non-empty cluster. */
  lemma TruthyExactlyWhenClustered(reply: DescribeReply)
    ensures !(Interpret(reply).Threw? && Interpret(reply).exception.Raised?)
    ensures (Interpret(reply).Returned? && Interpret(reply).value.Truthy()) <==>
      (reply.Described? && reply.instances.Some? && |reply.instances.value| > 0
       && reply.instances.value[0].clusterId.Some?
       && reply.instances.value[0].clusterId.value != "")
  {
  }
}
