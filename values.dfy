/** Values exchanged with the control plane and the callback endpoint, and
    the parts of Python's truthiness that the decision logic relies on. */
module Values {

  datatype Option<+T> = None | Some(value: T) {
    /** Python's `d.get(key, default)` once the lookup has produced this option. */
    function GetOr(default: T): (r: T)
      ensures Some? ==> r == value
      ensures None? ==> r == default
    {
      match this
      case Some(v) => v
      case None => default
    }
  }

  /** A leaf or nested member of a control-plane response. Timestamps are kept
      apart from text so that stripping them is visible in the model. */
  datatype Value =
    | Text(text: string)
    | Timestamp(iso: string)
    | Nested(fields: map<string, Value>)

  /** A structure inside a response, such as the `DBSnapshot` or `DBCluster` member. */
  type Record = map<string, Value>

  /** A whole response: every top-level member of an RDS answer is a structure. */
  type Response = map<string, Record>

  /** `bool(s)` for a value that is either `None` or a string. */
  predicate Truthy(s: Option<string>)
    ensures Truthy(s) <==> s != None && s != Some("")
  {
    s.Some? && s.value != ""
  }

  /** Python's `s or default` for an optional string. */
  function OrElse(s: Option<string>, default: string): (r: string)
    ensures Truthy(s) ==> r == s.value
    ensures !Truthy(s) ==> r == default
  {
    if Truthy(s) then s.value else default
  }

  /** `response.get(outer, {}).get(inner)`: a member of a member, or `None`. */
  function GetMember(response: Response, outer: string, inner: string): (r: Option<Value>)
    ensures r.Some? <==> outer in response && inner in response[outer]
    ensures r.Some? ==> r.value == response[outer][inner]
  {
    if outer in response && inner in response[outer] then Some(response[outer][inner]) else None
  }
}
