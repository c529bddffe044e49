/** What one webhook delivery does to the PR-to-message table and which
    chat calls it makes (cogs/webhook_handler.py, lines 12 and 48-123),
    stated as a function of the table before the delivery, the payload
    and the answers of the chat gateway. */
module Lifecycle {
  import opened Wrappers
  import opened JsonValue
  import opened Payload
  import Text

  const CreatedEvent: string := "git.pullrequest.created"
  const UpdatedEvent: string := "git.pullrequest.updated"

  type MessageId = nat

  /** A PR id as a dict key. Python compares keys by value and `True == 1`,
      so a boolean id names the same entry as 0 or 1; strings and numbers
      are distinct keys ("5" is not 5). */
  datatype PrKey = NoneKey | NumKey(n: int) | StrKey(s: string)

  /** The key `pr_message_mapping[pr_id]` uses, or None when the id is a
      list or a dict, which cannot be hashed (a TypeError). */
  function KeyOf(prId: Json): (k: Option<PrKey>)
    ensures k.None? <==> prId.JArr? || prId.JObj?
    ensures prId.JNum? ==> k == Some(NumKey(prId.n))
    ensures prId.JStr? ==> k == Some(StrKey(prId.s))
    ensures prId == JBool(true) ==> k == Some(NumKey(1))
    ensures prId == JBool(false) ==> k == Some(NumKey(0))
  {
    match prId
    case JNull => Some(NoneKey)
    case JBool(b) => Some(NumKey(if b then 1 else 0))
    case JNum(n) => Some(NumKey(n))
    case JStr(s) => Some(StrKey(s))
    case JArr(_) => None
    case JObj(_) => None
  }

  /** One entry of `pr_message_mapping`: the notification message and the
      PR link captured when it was created. */
  datatype Record = Record(messageId: MessageId, url: Json)

  type Table = map<PrKey, Record>

  /** The chat calls the handler makes, in order. A call that fails is
      still listed: it was made. */
  datatype Action =
    | PostCreated(prId: Json, url: Json)      // thread.send of the "created" embed
    | Fetch(message: MessageId)               // thread.fetch_message
    | Edit(message: MessageId, url: Json)     // original_message.edit, linking to `url`
    | PostMergeNotice(prId: Json, url: Json)  // thread.send of the "merged" embed

  /** What the chat platform answers: whether the server, channel and
      thread resolve, the id of a sent "created" message (None: the send
      raised), and whether fetch, edit and the merge notice succeed. */
  datatype Gateway = Gateway(
    guildFound: bool,
    channelFound: bool,
    threadFound: bool,
    sent: Option<MessageId>,
    fetchOk: bool,
    editOk: bool,
    noticeOk: bool)

  datatype Response = Response(status: int, text: string)

  const Accepted := Response(200, "OK")
  const InternalError := Response(500, "Internal Server Error")

  /** The HTTP answer for a refused delivery (lines 27, 34, 38, 123). */
  function RejectionResponse(why: Rejection): (r: Response)
    ensures why == TypeFault <==> r.status == 500
    ensures why != TypeFault <==> r.status == 400
  {
    match why
    case MissingEventType => Response(400, "Missing event type")
    case MissingResource => Response(400, "Missing resource")
    case MissingPrId => Response(400, "Missing PR ID")
    case TypeFault => InternalError
  }

  /** The outcome of one delivery: the answer, the chat calls made, and the
      table afterwards. */
  datatype Delivery = Delivery(response: Response, actions: seq<Action>, table: Table)

  /** Lines 63-80: send the "created" message, then record its id and the
      payload's link under the PR id, replacing any earlier entry. */
  function OnCreated(table: Table, e: Event, gw: Gateway): (d: Delivery)
    ensures d.table.Keys >= table.Keys
    ensures d.response.status in {200, 500}
    ensures d.table != table ==> d.response == Accepted
  {
    var calls := [PostCreated(e.prId, e.url)];
    match gw.sent
    case None => Delivery(InternalError, calls, table)
    case Some(m) =>
      match KeyOf(e.prId)
      case None => Delivery(InternalError, calls, table)
      case Some(k) => Delivery(Accepted, calls, table[k := Record(m, e.url)])
  }

  /** Lines 84-117: on a "completed" or "active" status, edit the stored
      message, linking to the stored URL; on "completed", also post the merge
      notice, whose link is the stored URL as well (unbound, hence a 500,
      when the PR is unknown). The table is never written. */
  function OnUpdated(table: Table, e: Event, gw: Gateway): (d: Delivery)
    ensures d.table == table
    ensures d.response.status in {200, 500}
  {
    if !e.status.JStr? then Delivery(InternalError, [], table)
    else
      var status := Text.Lower(e.status.s);
      if status != "completed" && status != "active" then Delivery(Accepted, [], table)
      else
        match KeyOf(e.prId)
        case None => Delivery(InternalError, [], table)
        case Some(k) =>
          if k !in table then
            Delivery(if status == "completed" then InternalError else Accepted, [], table)
          else
            var rec := table[k];
            if !gw.fetchOk then Delivery(InternalError, [Fetch(rec.messageId)], table)
            else
              var edited := [Fetch(rec.messageId), Edit(rec.messageId, rec.url)];
              if !gw.editOk then Delivery(InternalError, edited, table)
              else if status == "active" then Delivery(Accepted, edited, table)
              else
                Delivery(if gw.noticeOk then Accepted else InternalError,
                         edited + [PostMergeNotice(e.prId, rec.url)], table)
  }

  /** Lines 62-119, once the thread is found: a "created" event, an
      "updated" event, or any other event type, which is answered 200. */
  function Dispatch(table: Table, e: Event, gw: Gateway): (d: Delivery)
    ensures d.table.Keys >= table.Keys
    ensures d.response.status in {200, 500}
    ensures d.table != table ==> e.eventType == JStr(CreatedEvent) && d.response == Accepted
  {
    if e.eventType == JStr(CreatedEvent) then OnCreated(table, e, gw)
    else if e.eventType == JStr(UpdatedEvent) then OnUpdated(table, e, gw)
    else Delivery(Accepted, [], table)
  }

  /** The whole handler for one delivery (lines 25-123). */
  function Deliver(table: Table, payload: Json, gw: Gateway): (d: Delivery)
    ensures d.table.Keys >= table.Keys
    ensures d.response.status in {200, 400, 404, 500}
    ensures d.table != table ==>
              && Normalize(payload).Ok?
              && Normalize(payload).value.eventType == JStr(CreatedEvent)
              && d.response == Accepted
  {
    match Normalize(payload)
    case Err(why) => Delivery(RejectionResponse(why), [], table)
    case Ok(e) =>
      if !gw.guildFound then Delivery(Response(404, "Server not found"), [], table)
      else if !gw.channelFound then Delivery(Response(404, "Channel not found"), [], table)
      else if !gw.threadFound then Delivery(Response(404, "Thread not found"), [], table)
      else Dispatch(table, e, gw)
  }
}
