/** `sendToWebhook`: the result logic of one POST of a scan record. The HTTP
    exchange itself is an input: a `Reply` says what `fetch` and
    `response.json()` produced. */
module Webhook {
  import opened Payload

  /** What `response.json()` yields. A JSON object is seen through its string
      members; any other JSON value behaves like an object without them. */
  datatype Body =
    | Unparsable(reason: string)            // `response.json()` rejects; `reason` is the SyntaxError text
    | JsonNull                              // the body is the JSON literal `null`
    | JsonObject(members: map<string, string>)

  /** The outcome of `fetch`. */
  datatype Reply =
    | NoResponse(reason: string)            // `fetch` rejects; `reason` is the TypeError text
    | Response(ok: bool, body: Body)        // `ok` is `response.ok` (status 200-299)

  /** What `sendToWebhook` makes of a reply: it returns normally (`Accepted`)
      or throws an error whose `message` is `error` (`Refused`). */
  datatype Submission =
    | Accepted(message: string, data: map<string, string>)
    | Refused(error: string)

  const DefaultSuccess: string := "Asistencia registrada correctamente"
  const DefaultError: string := "Error al registrar asistencia"

  /** The engine's TypeError texts for reading a member of `null` (V8 wording). */
  const NullMessageRead: string := "Cannot read properties of null (reading 'message')"
  const NullErrorRead: string := "Cannot read properties of null (reading 'error')"

  /** `result.name || fallback`: the member when it is a non-empty string. */
  function MemberOr(members: map<string, string>, name: string, fallback: string): (s: string)
    // the result is one of the two candidates, and a member it returns is non-empty
    ensures s == fallback || (name in members && s == members[name] && s != "")
    // a non-empty fallback makes the result non-empty
    ensures fallback != "" ==> s != ""
    // a non-empty member takes precedence over the fallback
    ensures name in members && members[name] != "" ==> s == members[name]
  {
    if name in members && members[name] != "" then members[name] else fallback
  }

  /** The result logic of `sendToWebhook`. */
  function Submit(reply: Reply): (s: Submission)
    // success needs a completed transport, an ok status and a JSON object body
    ensures s.Accepted? <==> reply.Response? && reply.ok && reply.body.JsonObject?
    // the displayed message is the server's, or the default, and is never empty
    ensures s.Accepted? ==> s.data == reply.body.members && s.message != ""
    ensures s.Accepted? ==> s.message == MemberOr(reply.body.members, "message", DefaultSuccess)
    // a rejected status carries the server's `error`, or the default text
    ensures reply.Response? && !reply.ok && reply.body.JsonObject? ==>
      s == Refused(MemberOr(reply.body.members, "error", DefaultError))
    // transport and JSON failures surface the platform's own error text
    ensures reply.NoResponse? ==> s == Refused(reply.reason)
    ensures reply.Response? && reply.body.Unparsable? ==> s == Refused(reply.body.reason)
    ensures reply.Response? && reply.body.JsonNull? ==>
      s == Refused(if reply.ok then NullMessageRead else NullErrorRead)
  {
    match reply
    case NoResponse(reason) => Refused(reason)
    case Response(ok, body) =>
      match body
      case Unparsable(reason) => Refused(reason)
      case JsonNull => Refused(if ok then NullMessageRead else NullErrorRead)
      case JsonObject(members) =>
        if ok then Accepted(MemberOr(members, "message", DefaultSuccess), members)
        else Refused(MemberOr(members, "error", DefaultError))
  }

  /** A reply that `sendToWebhook` accepts. */
  predicate Delivers(reply: Reply)
  {
    Submit(reply).Accepted?
  }

  /** What `lastScan` may hold (`data` differs by path). */
  datatype OutcomeData =
    | NoData                                // the failure outcome
    | Queued(record: ScanRecord)            // offline: the queued record itself
    | Server(members: map<string, string>)  // online: the server's JSON result

  /** The `lastScan` value rendered in the result view; `timestamp` is a
      `Date.now()` reading supplied by the caller. */
  datatype ScanOutcome = ScanOutcome(
    success: bool,
    message: string,
    qrData: string,
    timestamp: int,
    data: OutcomeData)

  /** The outcome `sendToWebhook` shows for an accepted record. */
  function DeliveredOutcome(record: ScanRecord, reply: Reply, now: int): ScanOutcome
    requires Delivers(reply)
  {
    var s := Submit(reply);
    ScanOutcome(true, s.message, record.qrData, now, Server(s.data))
  }
}
