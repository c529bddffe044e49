/** What the webhook handler promises, stated over `Lifecycle.Deliver`:
    refusals and lookup failures change nothing, a "created" delivery writes
    exactly one entry, "updated" deliveries only read the table and edit the
    message that was stored, and over any run of deliveries the table only
    grows, and only through "created" deliveries. */
module Properties {
  import opened Wrappers
  import opened JsonValue
  import opened Payload
  import opened Lifecycle
  import Text

  /** The server, channel and thread all resolve. */
  predicate Located(gw: Gateway)
  {
    gw.guildFound && gw.channelFound && gw.threadFound
  }

  /** Every chat call succeeds. */
  predicate AllCallsSucceed(gw: Gateway)
  {
    Located(gw) && gw.fetchOk && gw.editOk && gw.noticeOk
  }

  // ---------------------------------------------------------------------
  // Refused deliveries (lines 25-38)

  /** A missing or falsy `eventType` is answered 400 with no call and no write. */
  lemma MissingEventTypeIs400(table: Table, payload: Json, gw: Gateway)
    requires payload.JObj? && !Truthy(Get(payload.fields, "eventType"))
    ensures Deliver(table, payload, gw) == Delivery(Response(400, "Missing event type"), [], table)
  {
  }

  /** A missing or falsy `resource` (after a good `eventType`) is answered 400. */
  lemma MissingResourceIs400(table: Table, payload: Json, gw: Gateway)
    requires payload.JObj? && Truthy(Get(payload.fields, "eventType"))
    requires !Truthy(Get(payload.fields, "resource"))
    ensures Deliver(table, payload, gw) == Delivery(Response(400, "Missing resource"), [], table)
  {
  }

  /** A missing or falsy `pullRequestId`, 0 included, is answered 400. */
  lemma MissingPrIdIs400(table: Table, payload: Json, gw: Gateway)
    requires payload.JObj? && Truthy(Get(payload.fields, "eventType"))
    requires var resource := Get(payload.fields, "resource");
             && resource.JObj? && Truthy(resource)
             && !Truthy(Get(resource.fields, "pullRequestId"))
    ensures Deliver(table, payload, gw) == Delivery(Response(400, "Missing PR ID"), [], table)
  {
  }

  /** Any refused delivery makes no call and leaves the table alone; its
      answer is 400, or 500 for a value of the wrong type. */
  lemma RefusedIsInert(table: Table, payload: Json, gw: Gateway)
    requires Normalize(payload).Err?
    ensures var d := Deliver(table, payload, gw);
            && d.actions == [] && d.table == table
            && d.response.status == (if Normalize(payload).error == TypeFault then 500 else 400)
  {
  }

  // ---------------------------------------------------------------------
  // Lookups (lines 48-60)

  /** When the server, channel or thread does not resolve, an accepted
      payload of any event type is answered 404 with no call and no write. */
  lemma UnresolvedLocationIs404(table: Table, payload: Json, gw: Gateway)
    requires Normalize(payload).Ok? && !Located(gw)
    ensures var d := Deliver(table, payload, gw);
            && d.response.status == 404 && d.actions == [] && d.table == table
  {
  }

  /** An accepted payload whose server, channel and thread resolve is
      handled by `Dispatch` on its extracted event; the lemmas below are
      stated over `Dispatch` and carry over to whole deliveries by this. */
  lemma AcceptedDeliveryDispatches(table: Table, payload: Json, gw: Gateway, e: Event)
    requires Normalize(payload) == Ok(e) && Located(gw)
    ensures Deliver(table, payload, gw) == Dispatch(table, e, gw)
  {
  }

  // ---------------------------------------------------------------------
  // "created" (lines 63-80)

  /** The link a payload carries at `resource._links.web.href`, or "#". */
  function HrefOf(resource: map<string, Json>): Json
  {
    if && "_links" in resource && resource["_links"].JObj?
       && "web" in resource["_links"].fields && resource["_links"].fields["web"].JObj?
       && "href" in resource["_links"].fields["web"].fields
    then resource["_links"].fields["web"].fields["href"]
    else JStr("#")
  }

  /** End to end: a "created" delivery whose thread is found and whose send
      returns message `m` stores `m` with the payload's
      `resource._links.web.href` (or "#") under the key of its
      `resource.pullRequestId`. */
  lemma CreatedDeliveryStoresPayloadLink(table: Table, payload: Json, gw: Gateway, m: MessageId)
    requires Normalize(payload).Ok? && Located(gw) && gw.sent == Some(m)
    requires Get(payload.fields, "eventType") == JStr(CreatedEvent)
    requires KeyOf(Get(Get(payload.fields, "resource").fields, "pullRequestId")).Some?
    ensures var resource := Get(payload.fields, "resource").fields;
            var k := KeyOf(Get(resource, "pullRequestId")).value;
            var d := Deliver(table, payload, gw);
            && d.response == Accepted
            && d.table == table[k := Record(m, HrefOf(resource))]
  {
    NormalizeExtracts(payload);
  }

  /** A "created" event sends one message and records its id with the
      event's link under the PR id, replacing any earlier entry for that id
      and keeping every other entry. */
  lemma CreatedRecordsSentMessage(table: Table, e: Event, gw: Gateway, m: MessageId, k: PrKey)
    requires e.eventType == JStr(CreatedEvent)
    requires gw.sent == Some(m) && KeyOf(e.prId) == Some(k)
    ensures var d := Dispatch(table, e, gw);
            && d.response == Accepted
            && d.actions == [PostCreated(e.prId, e.url)]
            && k in d.table && d.table[k] == Record(m, e.url)
            && d.table.Keys == table.Keys + {k}
            && forall j :: j in table && j != k ==> d.table[j] == table[j]
  {
  }

  /** A "created" event whose send raises, or whose PR id cannot be a dict
      key, is answered 500 after the one send and writes nothing. */
  lemma CreatedFailureWritesNothing(table: Table, e: Event, gw: Gateway)
    requires e.eventType == JStr(CreatedEvent)
    requires gw.sent.None? || KeyOf(e.prId).None?
    ensures Dispatch(table, e, gw) == Delivery(InternalError, [PostCreated(e.prId, e.url)], table)
  {
  }

  // ---------------------------------------------------------------------
  // "updated" (lines 84-117)

  /** An "updated" event never inserts, changes or removes an entry. */
  lemma UpdatedNeverWrites(table: Table, e: Event, gw: Gateway)
    requires e.eventType == JStr(UpdatedEvent)
    ensures Dispatch(table, e, gw).table == table
  {
  }

  /** An "updated" event with status "completed" or "active" (in any letter
      case) for a known PR fetches and edits the stored message, linking to
      the URL stored at creation, whatever URL the update carries; a
      "completed" one then posts the merge notice with that same stored URL. */
  lemma UpdateEditsStoredMessage(table: Table, e: Event, gw: Gateway, k: PrKey)
    requires gw.fetchOk && gw.editOk
    requires e.eventType == JStr(UpdatedEvent)
    requires e.status.JStr? && Text.Lower(e.status.s) in {"completed", "active"}
    requires Text.Lower(e.status.s) == "completed" ==> gw.noticeOk
    requires KeyOf(e.prId) == Some(k) && k in table
    ensures var rec := table[k];
            var d := Dispatch(table, e, gw);
            && d.response == Accepted
            && d.actions ==
                 [Fetch(rec.messageId), Edit(rec.messageId, rec.url)]
                 + (if Text.Lower(e.status.s) == "completed"
                    then [PostMergeNotice(e.prId, rec.url)] else [])
  {
  }

  /** The ways an "updated" event ends in the catch-all 500: a status that
      is not a string (`.lower()` raises, no call made); a PR id that cannot
      be a dict key on a "completed" or "active" update (the lookup raises,
      no call made); and, for a known PR, a fetch, edit or merge notice that
      raises, after the calls made so far. The table is never written. */
  lemma UpdateFailureIs500(table: Table, e: Event, gw: Gateway)
    requires e.eventType == JStr(UpdatedEvent)
    ensures !e.status.JStr? ==> Dispatch(table, e, gw) == Delivery(InternalError, [], table)
    ensures e.status.JStr? && Text.Lower(e.status.s) in {"completed", "active"}
            && KeyOf(e.prId).None? ==>
              Dispatch(table, e, gw) == Delivery(InternalError, [], table)
    ensures e.status.JStr? && Text.Lower(e.status.s) in {"completed", "active"}
            && KeyOf(e.prId).Some? && KeyOf(e.prId).value in table ==>
              var m := table[KeyOf(e.prId).value].messageId;
              var url := table[KeyOf(e.prId).value].url;
              && (!gw.fetchOk ==>
                    Dispatch(table, e, gw) == Delivery(InternalError, [Fetch(m)], table))
              && (gw.fetchOk && !gw.editOk ==>
                    Dispatch(table, e, gw) == Delivery(InternalError, [Fetch(m), Edit(m, url)], table))
              && (gw.fetchOk && gw.editOk && !gw.noticeOk && Text.Lower(e.status.s) == "completed" ==>
                    Dispatch(table, e, gw) ==
                      Delivery(InternalError, [Fetch(m), Edit(m, url), PostMergeNotice(e.prId, url)], table))
  {
  }

  /** A "completed" update for a PR that was never recorded reaches the
      merge notice without a stored URL: the lookup of the unbound name
      raises, and the answer is 500 with no call made. */
  lemma CompletedUnknownIs500(table: Table, e: Event, gw: Gateway)
    requires e.eventType == JStr(UpdatedEvent)
    requires e.status.JStr? && Text.Lower(e.status.s) == "completed"
    requires KeyOf(e.prId).Some? && KeyOf(e.prId).value !in table
    ensures Dispatch(table, e, gw) == Delivery(InternalError, [], table)
  {
  }

  /** Events the handler lets through untouched: an event type other than
      "created" and "updated", an update whose status is neither "completed"
      nor "active", and an "active" update for an unknown PR. All are
      answered 200 with no call and no write. */
  lemma OtherEventsIgnored(table: Table, e: Event, gw: Gateway)
    requires || (e.eventType != JStr(CreatedEvent) && e.eventType != JStr(UpdatedEvent))
             || (e.eventType == JStr(UpdatedEvent) && e.status.JStr?
                 && Text.Lower(e.status.s) !in {"completed", "active"})
             || (e.eventType == JStr(UpdatedEvent) && e.status.JStr?
                 && Text.Lower(e.status.s) == "active"
                 && KeyOf(e.prId).Some? && KeyOf(e.prId).value !in table)
    ensures Dispatch(table, e, gw) == Delivery(Accepted, [], table)
  {
  }

  // ---------------------------------------------------------------------
  // Several deliveries

  /** A "created" event for a PR followed by a "completed" update for the
      same PR: the update edits the message the first event sent and links
      both the edit and the merge notice to the first event's URL. */
  lemma CreatedThenCompletedUsesOriginalUrl(
    table: Table, c: Event, u: Event, gw1: Gateway, gw2: Gateway, m: MessageId)
    requires gw1.sent == Some(m) && gw2.fetchOk && gw2.editOk && gw2.noticeOk
    requires c.eventType == JStr(CreatedEvent) && u.eventType == JStr(UpdatedEvent)
    requires KeyOf(c.prId).Some? && KeyOf(u.prId) == KeyOf(c.prId)
    requires u.status.JStr? && Text.Lower(u.status.s) == "completed"
    ensures var second := Dispatch(Dispatch(table, c, gw1).table, u, gw2);
            && second.response == Accepted
            && second.actions == [Fetch(m), Edit(m, c.url), PostMergeNotice(u.prId, c.url)]
  {
  }

  /** Two "created" events for the same PR: the second one's message and
      URL replace the first's. */
  lemma RepeatedCreateLastWriteWins(
    table: Table, a: Event, b: Event, gw1: Gateway, gw2: Gateway, m1: MessageId, m2: MessageId)
    requires gw1.sent == Some(m1) && gw2.sent == Some(m2)
    requires a.eventType == JStr(CreatedEvent) && b.eventType == JStr(CreatedEvent)
    requires KeyOf(a.prId).Some? && KeyOf(b.prId) == KeyOf(a.prId)
    ensures var k := KeyOf(a.prId).value;
            var after := Dispatch(Dispatch(table, a, gw1).table, b, gw2).table;
            && after.Keys == table.Keys + {k}
            && after[k] == Record(m2, b.url)
  {
  }

  /** No two PRs share a notification message. */
  ghost predicate MessagesDistinct(table: Table)
  {
    forall j, k :: j in table && k in table && j != k ==> table[j].messageId != table[k].messageId
  }

  /** The chat platform hands out a message id not already in the table. */
  ghost predicate FreshSend(table: Table, gw: Gateway)
  {
    gw.sent.Some? ==> forall k :: k in table ==> table[k].messageId != gw.sent.value
  }

  /** Each message is owned by one PR, as long as sent messages get new ids. */
  lemma DeliverKeepsMessagesDistinct(table: Table, payload: Json, gw: Gateway)
    requires MessagesDistinct(table) && FreshSend(table, gw)
    ensures MessagesDistinct(Deliver(table, payload, gw).table)
  {
  }

  /** One delivery, with the gateway's answers for it. */
  datatype Inbound = Inbound(payload: Json, gateway: Gateway)

  /** The table after handling `ds` one after another, first to last. */
  function Replay(table: Table, ds: seq<Inbound>): Table
    decreases |ds|
  {
    if ds == [] then table
    else Replay(Deliver(table, ds[0].payload, ds[0].gateway).table, ds[1..])
  }

  /** `i` is a "created" delivery for PR key `k`. */
  ghost predicate Creates(i: Inbound, k: PrKey)
  {
    var n := Normalize(i.payload);
    n.Ok? && n.value.eventType == JStr(CreatedEvent) && KeyOf(n.value.prId) == Some(k)
  }

  /** Entries are never removed. */
  lemma {:induction false} ReplayKeepsKeys(table: Table, ds: seq<Inbound>)
    ensures table.Keys <= Replay(table, ds).Keys
    decreases |ds|
  {
    if ds != [] {
      ReplayKeepsKeys(Deliver(table, ds[0].payload, ds[0].gateway).table, ds[1..]);
    }
  }

  /** No backfill: an entry that was not there before a run of deliveries
      was written by a "created" delivery for that PR within the run. */
  lemma {:induction false} ReplayNoBackfill(table: Table, ds: seq<Inbound>, k: PrKey)
    requires k in Replay(table, ds) && k !in table
    ensures exists i :: 0 <= i < |ds| && Creates(ds[i], k)
    decreases |ds|
  {
    var next := Deliver(table, ds[0].payload, ds[0].gateway).table;
    if k in next {
      assert Creates(ds[0], k);
    } else {
      ReplayNoBackfill(next, ds[1..], k);
      var i :| 0 <= i < |ds[1..]| && Creates(ds[1..][i], k);
      assert Creates(ds[i + 1], k);
    }
  }

  /** A run of deliveries that does not contain a "created" one for any PR
      leaves the table as it was. */
  lemma {:induction false} ReplayWithoutCreatesIsInert(table: Table, ds: seq<Inbound>)
    requires forall i, k :: 0 <= i < |ds| ==> !Creates(ds[i], k)
    ensures Replay(table, ds) == table
    decreases |ds|
  {
    if ds != [] {
      var d := Deliver(table, ds[0].payload, ds[0].gateway);
      if d.table != table {
        assert Creates(ds[0], KeyOf(Normalize(ds[0].payload).value.prId).value);
      }
      ReplayWithoutCreatesIsInert(d.table, ds[1..]);
    }
  }
}
