/** The CloudFormation custom-resource callback built by `send` in
    lambda_function.py: the payload record and its defaulting rules. The HTTP
    PUT that delivers it lives in the ControlPlane module. */
module Callback {
  import opened Values

  /** The two outcomes a custom resource can report. */
  datatype Status = Success | Failed {
    /** The wire spelling, the module constants SUCCESS and FAILED. */
    function Text(): (t: string)
      ensures t == "SUCCESS" || t == "FAILED"
      ensures Success? <==> t == "SUCCESS"
    {
      if Success? then "SUCCESS" else "FAILED"
    }
  }

  /** The fields of the CloudFormation request event that the handler reads.
      `physicalResourceId` is `None` when the event has no such key. */
  datatype Event = Event(
    stackId: string,
    requestId: string,
    logicalResourceId: string,
    responseUrl: string,
    physicalResourceId: Option<string>)

  /** The one field of the Lambda context that influences the payload. */
  datatype Context = Context(logStreamName: string)

  /** The JSON object sent to the pre-signed response URL. */
  datatype Payload = Payload(
    status: Status,
    reason: string,
    physicalResourceId: string,
    stackId: string,
    requestId: string,
    logicalResourceId: string,
    data: Response)
  {
    /** The string members of the JSON object `send` serialises, under their
        wire names; Data is the one structured member. The Status member is
        always one of the module constants SUCCESS and FAILED. */
    function StringMembers(): (m: map<string, string>)
      ensures m.Keys == {"Status", "Reason", "PhysicalResourceId", "StackId", "RequestId", "LogicalResourceId"}
      ensures m["Status"] == "SUCCESS" <==> status == Success
      ensures m["Status"] == "FAILED" <==> status == Failed
      ensures m["StackId"] == stackId && m["RequestId"] == requestId && m["LogicalResourceId"] == logicalResourceId
    {
      map["Status" := status.Text(), "Reason" := reason, "PhysicalResourceId" := physicalResourceId,
          "StackId" := stackId, "RequestId" := requestId, "LogicalResourceId" := logicalResourceId]
    }
  }

  /** The fallback Reason. The backslash-newline inside the source's string
      literal keeps the indentation of the continuation line, so the text has
      thirteen spaces between "in" and "CloudWatch". */
  function DefaultReason(logStreamName: string): (r: string)
    ensures |r| > |logStreamName|
    ensures r[|r| - |logStreamName|..] == logStreamName
  {
    "See the details in             CloudWatch Log Stream: " + logStreamName
  }

  /** The payload `send` serialises: Data defaults to an empty object, Reason
      to the CloudWatch pointer, PhysicalResourceId to the log stream name;
      the three identifiers are copied verbatim from the event. */
  function BuildPayload(
    event: Event, context: Context, status: Status,
    reason: Option<string>, responseData: Option<Response>, physicalResourceId: Option<string>): (p: Payload)
    ensures p.status == status
    ensures Truthy(reason) ==> p.reason == reason.value
    ensures !Truthy(reason) ==> p.reason == DefaultReason(context.logStreamName)
    ensures Truthy(physicalResourceId) ==> p.physicalResourceId == physicalResourceId.value
    ensures !Truthy(physicalResourceId) ==> p.physicalResourceId == context.logStreamName
    ensures p.stackId == event.stackId && p.requestId == event.requestId
    ensures p.logicalResourceId == event.logicalResourceId
    ensures responseData.Some? ==> p.data == responseData.value
    ensures responseData.None? ==> p.data == map[]
  {
    Payload(
      status,
      OrElse(reason, DefaultReason(context.logStreamName)),
      OrElse(physicalResourceId, context.logStreamName),
      event.stackId,
      event.requestId,
      event.logicalResourceId,
      // `response_data or {}`: an empty dict is replaced by an equal empty dict
      match responseData case Some(d) => d case None => map[])
  }

  /** The payload always explains itself: its Reason is never empty, and its
      PhysicalResourceId is empty only if the log stream name is. */
  lemma PayloadNeverBlank(
    event: Event, context: Context, status: Status,
    reason: Option<string>, responseData: Option<Response>, physicalResourceId: Option<string>)
    ensures BuildPayload(event, context, status, reason, responseData, physicalResourceId).reason != ""
    ensures context.logStreamName != "" ==>
      BuildPayload(event, context, status, reason, responseData, physicalResourceId).physicalResourceId != ""
  {
    var p := BuildPayload(event, context, status, reason, responseData, physicalResourceId);
    if !Truthy(reason) {
      assert |p.reason| > |context.logStreamName|;
    }
  }

  /** An empty Reason or PhysicalResourceId argument is indistinguishable from
      an absent one, and an empty Data argument from an absent one. */
  lemma FalsyArgumentsAreDefaults(
    event: Event, context: Context, status: Status)
    ensures BuildPayload(event, context, status, Some(""), Some(map[]), Some(""))
         == BuildPayload(event, context, status, None, None, None)
  {
  }
}
