/** The request plumbing the three serverless proxies share: the verb and configuration
    guards, the mapping of upstream failures to responses, and the decoding of an Airtable list
    payload into records. The HTTP exchange with Airtable itself is an input: a handler receives
    what each upstream call produced and reports which calls it made. */
module Proxy {
  import opened Wrappers
  import opened Js

  /** An Airtable record `{id, fields}` as it arrives in a JSON payload. */
  datatype Record = Record(id: Value, fields: Value)

  /** `r.fields || {}`: the field map every normaliser reads from. */
  function Fields(r: Record): (f: Value)
    ensures Truthy(r.fields) ==> f == r.fields
    ensures !Truthy(r.fields) ==> f == Obj([])
  {
    Or(r.fields, Obj([]))
  }

  /** Where an Airtable attachment keeps the URLs of its large and full-size thumbnails. */
  const LargeThumbUrl: seq<string> := ["thumbnails", "large", "url"]
  const FullThumbUrl: seq<string> := ["thumbnails", "full", "url"]

  /** The deployment's environment: `AIRTABLE_API_KEY`, `AIRTABLE_BASE_ID` and the handler's
      `AIRTABLE_..._TABLE` variable, `None` when unset. */
  datatype Env = Env(apiKey: Option<string>, baseId: Option<string>, table: Option<string>)

  /** `process.env.AIRTABLE_..._TABLE || default`. */
  function TableName(env: Env, default: string): (t: string)
    ensures Configured(env.table) ==> t == env.table.value
    ensures !Configured(env.table) ==> t == default
  {
    if Configured(env.table) then env.table.value else default
  }

  /** Outcome of one upstream `fetch`: a parsed JSON body for a 2xx status, the status and body
      text otherwise, or an exception (network failure, unparsable JSON) with the text the
      handler reports as `err?.message || String(err)`. */
  datatype Fetch = Ok(payload: Value) | NotOk(status: int, text: string) | Threw(details: string)

  /** `Response.ok` is false exactly for statuses outside 200-299. */
  predicate WellFormed(f: Fetch) {
    f.NotOk? ==> !(200 <= f.status < 300)
  }

  /** The upstream requests a handler can issue. */
  datatype Call = ListRecords(baseId: string, table: string) | GetRecord(baseId: string, table: string, recordId: string)

  /** The JSON body of a response. `details` is `None` where the source sends no `details`
      field, or where it is the message of a runtime `TypeError`, which is host text. */
  datatype Body<T> =
    | Failure(error: string, details: Option<string>)
    | Single(item: Option<T>)
    | Many(items: seq<T>)

  datatype Response<T> = Response(status: int, allow: Option<string>, body: Body<T>)

  const MethodNotAllowed := "Method Not Allowed"
  const NotConfigured := "Airtable environment variables not configured on this deployment."
  const AirtableError := "Airtable error"
  const InternalError := "Internal server error"

  /** `!process.env.X` is false: the variable is set and not empty. */
  predicate Configured(v: Option<string>) {
    v.Some? && v.value != ""
  }

  /** The checks every handler makes before it contacts Airtable: only the `GET` verb is served
      (405 with `Allow: GET` otherwise), then every required variable must be set (500 otherwise).
      `None` lets the request through. */
  function Guard<T>(verb: string, required: seq<Option<string>>): (r: Option<Response<T>>)
    ensures r.None? <==> verb == "GET" && forall i :: 0 <= i < |required| ==> Configured(required[i])
    ensures verb != "GET" ==> r == Some(Response(405, Some("GET"), Failure(MethodNotAllowed, None)))
    ensures verb == "GET" && r.Some? ==>
      r.value == Response(500, None, Failure(NotConfigured, None))
      && exists i :: 0 <= i < |required| && !Configured(required[i])
  {
    if verb != "GET" then Some(Response(405, Some("GET"), Failure(MethodNotAllowed, None)))
    else if exists i :: 0 <= i < |required| && !Configured(required[i]) then
      Some(Response(500, None, Failure(NotConfigured, None)))
    else None
  }

  /** The response for an upstream call that did not succeed: a non-2xx status is passed through
      with the body text, an exception becomes a 500. */
  function UpstreamFailure<T>(f: Fetch): (r: Response<T>)
    requires !f.Ok?
    ensures f.NotOk? ==> r.status == f.status && r.body == Failure(AirtableError, Some(f.text))
    ensures f.Threw? ==> r.status == 500 && r.body == Failure(InternalError, Some(f.details))
    ensures r.allow.None?
  {
    match f
    case NotOk(status, text) => Response(status, None, Failure(AirtableError, Some(text)))
    case Threw(details) => Response(500, None, Failure(InternalError, Some(details)))
  }

  /** A `TypeError` raised inside the handler's `try` block. */
  function Crash<T>(): Response<T> {
    Response(500, None, Failure(InternalError, None))
  }

  /** `(payload.records || []).map(r => ({id: r.id, fields: r.fields}))` as far as it succeeds:
      `None` when it throws, which it does for a `null` payload, for a truthy `records` that is
      not an array, and for a `null` or `undefined` element. */
  function DecodeRecords(payload: Value): (r: Option<seq<Record>>)
    ensures r.Some? ==> !IsNullish(payload)
    ensures r.Some? && !Truthy(Prop(payload, "records")) ==> r.value == []
    ensures r.Some? && Truthy(Prop(payload, "records")) ==>
      var items := Prop(payload, "records");
      items.Arr? && |r.value| == |items.items|
      && forall i :: 0 <= i < |r.value| ==>
        r.value[i] == Record(Prop(items.items[i], "id"), Prop(items.items[i], "fields"))
    ensures r.None? <==> (IsNullish(payload) ||
      var items := Or(Prop(payload, "records"), Arr([]));
      !items.Arr? || exists i :: 0 <= i < |items.items| && IsNullish(items.items[i]))
  {
    if IsNullish(payload) then None
    else
      var items := Or(Prop(payload, "records"), Arr([]));
      if !items.Arr? then None
      else if exists i :: 0 <= i < |items.items| && IsNullish(items.items[i]) then None
      else Some(seq(|items.items|, i requires 0 <= i < |items.items| =>
        Record(Prop(items.items[i], "id"), Prop(items.items[i], "fields"))))
  }

  /** The whole of a list handler once the guard has let the request through: one `ListRecords`
      call, then either the failure response or 200 with the normalised records. */
  function ListResponse<T>(call: Call, fetched: Fetch, normalize: seq<Record> -> seq<T>): (r: (Response<T>, seq<Call>))
    requires WellFormed(fetched)
    ensures r.1 == [call]
    ensures r.0.status == 200 <==> fetched.Ok? && DecodeRecords(fetched.payload).Some?
    ensures r.0.status == 200 ==> r.0.body == Many(normalize(DecodeRecords(fetched.payload).value))
    ensures fetched.NotOk? ==> r.0 == UpstreamFailure(fetched)
  {
    if !fetched.Ok? then (UpstreamFailure(fetched), [call])
    else
      match DecodeRecords(fetched.payload)
      case Some(records) => (Response(200, None, Many(normalize(records))), [call])
      case None => (Crash(), [call])
  }
}
