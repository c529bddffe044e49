/** The handler as the source runs it: the module-level table
    `pr_message_mapping` (cogs/webhook_handler.py, line 12) updated in place
    by `handle_webhook` (lines 20-123), one delivery at a time. */
module Webhook {
  import opened Wrappers
  import opened JsonValue
  import opened Payload
  import opened Lifecycle
  import Text

  class NotificationStore {
    /** PR id -> the notification message and the link stored with it. */
    var entries: Table

    constructor ()
      ensures entries == map[]
    {
      entries := map[];
    }

    /** Handle one delivery: answer it, make the chat calls in order, and
        write the table as `Lifecycle.Deliver` describes. */
    method HandleWebhook(payload: Json, gw: Gateway) returns (response: Response, actions: seq<Action>)
      modifies this
      ensures Delivery(response, actions, entries) == Deliver(old(entries), payload, gw)
      ensures old(entries).Keys <= entries.Keys
      ensures entries != old(entries) ==>
                Normalize(payload).Ok? && Normalize(payload).value.eventType == JStr(CreatedEvent)
    {
      actions := [];
      var normalized := Normalize(payload);
      if normalized.Err? {
        response := RejectionResponse(normalized.error);
        return;
      }
      var e := normalized.value;

      if !gw.guildFound {
        response := Response(404, "Server not found");
        return;
      }
      if !gw.channelFound {
        response := Response(404, "Channel not found");
        return;
      }
      if !gw.threadFound {
        response := Response(404, "Thread not found");
        return;
      }

      if e.eventType == JStr(CreatedEvent) {
        response, actions := HandleCreated(e, gw);
      } else if e.eventType == JStr(UpdatedEvent) {
        response, actions := HandleUpdated(e, gw);
      } else {
        response := Accepted;
      }
    }

    /** Lines 63-80: send the "created" message, then store its id and the
        payload's link under the PR id. */
    method HandleCreated(e: Event, gw: Gateway) returns (response: Response, actions: seq<Action>)
      modifies this
      ensures Delivery(response, actions, entries) == OnCreated(old(entries), e, gw)
    {
      actions := [PostCreated(e.prId, e.url)];
      if gw.sent.None? {
        response := InternalError;
        return;
      }
      var key := KeyOf(e.prId);
      if key.None? {
        response := InternalError;
        return;
      }
      entries := entries[key.value := Record(gw.sent.value, e.url)];
      response := Accepted;
    }

    /** Lines 84-117: edit the stored message on "completed" or "active" and
        post the merge notice on "completed"; the table is only read. */
    method HandleUpdated(e: Event, gw: Gateway) returns (response: Response, actions: seq<Action>)
      ensures Delivery(response, actions, entries) == OnUpdated(entries, e, gw)
    {
      actions := [];
      if !e.status.JStr? {
        response := InternalError;
        return;
      }
      var status := Text.Lower(e.status.s);
      if status == "completed" || status == "active" {
        var key := KeyOf(e.prId);
        if key.None? {
          response := InternalError;
          return;
        }
        var storedUrl: Option<Json> := None;
        if key.value in entries {
          var rec := entries[key.value];
          storedUrl := Some(rec.url);
          actions := actions + [Fetch(rec.messageId)];
          if !gw.fetchOk {
            response := InternalError;
            return;
          }
          actions := actions + [Edit(rec.messageId, rec.url)];
          if !gw.editOk {
            response := InternalError;
            return;
          }
        }
        if status == "completed" {
          if storedUrl.None? {
            // `stored_pr_url` was never bound: the name lookup raises
            response := InternalError;
            return;
          }
          actions := actions + [PostMergeNotice(e.prId, storedUrl.value)];
          if !gw.noticeOk {
            response := InternalError;
            return;
          }
        }
      }
      response := Accepted;
    }
  }
}
