/** Shared value wrappers: optional values, JSON object fields, and the
    outcome of a request handler before it reaches the HTTP boundary. */
module Wrappers {

  datatype Option<+T> = None | Some(value: T)

  /** A key of a decoded JSON object: missing from the object, present with
      `null`, or present with a value. `.get(key, default)` tells the first
      two apart, which is why a plain Option is not enough. */
  datatype Field<+T> = Absent | Null | Present(value: T)

  /** `obj.get(key)`: a missing key and an explicit null both read as None. */
  function Get<T>(f: Field<T>): (r: Option<T>)
    ensures r.Some? <==> f.Present?
    ensures r.Some? ==> r.value == f.value
  {
    match f
    case Present(v) => Some(v)
    case _ => None
  }

  /** `obj.get(key, default)`: the default only replaces a MISSING key; an
      explicit null still comes back as None. */
  function GetOr<T>(f: Field<T>, default: T): (r: Option<T>)
    ensures f.Absent? ==> r == Some(default)
    ensures f.Null? <==> r.None?
    ensures f.Present? ==> r == Some(f.value)
  {
    match f
    case Absent => Some(default)
    case Null => None
    case Present(v) => Some(v)
  }

  /** Python truthiness of a string-valued field: present and non-empty. */
  predicate Truthy(f: Field<string>)
  {
    f.Present? && f.value != ""
  }

  /** Why a handler gave up. All of them reach the client as an empty list,
      but they are kept apart so that each path can be told from the others. */
  datatype Fault =
    | Transport          // network error, timeout or non-success status
    | Decode             // payload that the protobuf / JSON decoder rejects
    | NullValue          // JSON null where an object or a list is used
    | EmptyActivePeriod  // `[0]` on an empty active_period list
    | Unorderable        // a None sort key compared during the sort

  /** What an opaque fetch (HTTP GET plus decoding) hands back. */
  datatype Fetch<+T> = Payload(payload: T) | FetchFailed(fault: Fault)

  /** A step that may raise inside a handler's try block. */
  datatype Result<+T> = Ok(value: T) | Raised(fault: Fault)

  /** A handler's outcome: records, an unknown feed id (no fetch at all),
      or a caught exception. */
  datatype Outcome<+T> = Records(items: seq<T>) | NotFound | Failed(fault: Fault)

  /** The boundary: everything but a record list is answered with `[]`. */
  function Respond<T>(o: Outcome<T>): (r: seq<T>)
    ensures o.Records? ==> r == o.items
    ensures !o.Records? ==> r == []
  {
    if o.Records? then o.items else []
  }
}
