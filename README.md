# Pull-request webhook handler

A Dafny model of the pull-request webhook handler of a small Discord operations
bot. Each webhook delivery from the source-control system is validated. Then the
bot's server, channel and thread are looked up. A `git.pullrequest.created`
event posts a notification message in the thread and records the message id
with the PR link in an in-memory table keyed by PR id. A
`git.pullrequest.updated` event whose status is `completed` or `active` edits
that stored message. A `completed` update also posts a separate merge notice.
The handler answers every delivery with an HTTP status.

The model has three layers:

- `JsonValue`, `Text` and `Payload` are pure. They cover the decoded JSON
  payload, Python truthiness, chained `dict.get` lookups, `str.split('/')[-1]`,
  `str.lower()`, and the validation and field extraction of lines 25-46.
  Calling `.get` or `.split` on a value of the wrong type raises in Python.
  `Payload.Normalize` marks that as `TypeFault`, and the handler's catch-all
  turns it into a 500. The status is only lower-cased in the `updated`
  branch, so a status that is not a string is a 500 there
  (`Lifecycle.OnUpdated`), while a `created` event with such a status is
  accepted.
- `Lifecycle.Deliver` is the specification of one delivery. It maps the table
  before the delivery, the payload and the chat gateway's answers to three
  things: the HTTP response, the ordered list of chat calls made, and the
  table afterwards. `Properties` proves what the handler promises about it,
  one delivery at a time and over any run of deliveries.
- `Webhook.NotificationStore` is the module-level dict `pr_message_mapping`
  as a class field. Its `HandleWebhook` method updates the dict in place, as
  the source does, and is proved to do exactly what `Deliver` describes.

The chat platform is a `Gateway` value. It says whether the server, channel
and thread resolve, which id a sent message gets (or that the send raised),
and whether the fetch, the edit and the merge notice succeed. A call that
raises is still listed among the calls made, and the delivery is answered 500.

Some behaviour of the code is easy to miss, and the model keeps it:

- A `completed` update for a PR that was never recorded does not get a 200. It
  reaches the merge notice with `stored_pr_url` unbound. The name lookup
  raises, so the answer is 500, and no call is made.
- A later `active` or `completed` update edits the message again. No state is
  terminal.
- Entries are never removed. A second `created` event for the same PR
  overwrites the first entry.
- Python dict keys compare by value, and `True == 1`. So a boolean PR id names
  the same entry as 1. A list or dict PR id cannot be hashed. In the `created`
  branch that raises after the message was sent.

The handler does not resolve reviewer names to mentions, does not read the
PR description, has no final "completed" state, never deletes the merge
notice later, and does not quietly ignore an orphan `completed` update (that
is a 500, as above). The model has none of these either.

## Model

| member | source | states |
|---|---|---|
| `JsonValue.GetOr` | cogs/webhook_handler.py:40 | `d.get(key, default)` gives the stored value when the key is present and the default otherwise |
| `JsonValue.Get` | cogs/webhook_handler.py:25 | `d.get(key)` gives the stored value of a present key, and None (falsy, so it reads as missing) for an absent one |
| `JsonValue.Chain` | cogs/webhook_handler.py:41-46 | a chained `.get(k, {})...get(kn, default)` raises exactly when some step reaches a value that is not a dict; otherwise it gives the last key's value in the dict reached, or the default |
| `Text.Split` | cogs/webhook_handler.py:43-44 | `split('/')` yields at least one piece, and no piece contains the separator |
| `Text.JoinSplit` | cogs/webhook_handler.py:43-44 | joining the pieces of a split with the separator gives back the original ref |
| `Text.SplitPrefix` | cogs/webhook_handler.py:43-44 | a separator-free prefix joins the first piece of the split |
| `Text.SplitJoin` | cogs/webhook_handler.py:43-44 | splitting the join of separator-free pieces gives back the pieces (the inverse round trip) |
| `Text.LastPieceOfSplit` | cogs/webhook_handler.py:43-44 | the last piece of the split is the suffix after the last separator, or the whole string when there is none |
| `Text.LastSegmentUnique` | cogs/webhook_handler.py:43-44 | at most one string is the text after the last separator |
| `Text.LastSegment` | cogs/webhook_handler.py:43-44 | `ref.split('/')[-1]` is the suffix of the ref after its last `/`; a ref without `/` is returned unchanged |
| `Text.LastSegmentExamples` | cogs/webhook_handler.py:43-44 | `refs/heads/feature/x` gives `x` and `main` gives `main` |
| `Text.LowerChar` | cogs/webhook_handler.py:85 | lower-casing leaves no ASCII capital, shifts capitals by 32 and keeps every other character |
| `Text.Lower` | cogs/webhook_handler.py:85 | `status.lower()` keeps the length and lower-cases each character |
| `Payload.BranchOf` | cogs/webhook_handler.py:43-44 | an absent ref gives `Unknown`; a string ref gives its last segment; any other value raises |
| `Payload.Normalize` | cogs/webhook_handler.py:25-46 | 400 "Missing event type" exactly when `eventType` is missing or falsy; "Missing resource" exactly when `resource` then is; "Missing PR ID" exactly when `pullRequestId` (0 included) then is; an accepted event has a truthy type and PR id and `/`-free branches (its field values are stated by `Payload.NormalizeExtracts`) |
| `Payload.NormalizeAccepts` | cogs/webhook_handler.py:25-46 | a delivery is accepted exactly when the payload and `resource` are dicts, the type and PR id are truthy, and every optional container is a dict and every ref a string |
| `Payload.ChainTwo` | cogs/webhook_handler.py:41-42 | `resource.get(k1, {}).get(k2, d)` succeeds exactly when `k1` is absent or holds a dict, and then gives the inner value or `d` |
| `Payload.ChainThree` | cogs/webhook_handler.py:46 | the link lookup succeeds exactly when `_links` and `_links.web` are absent or dicts, and then gives `href` or `#` |
| `Payload.NormalizeExtracts` | cogs/webhook_handler.py:25-46 | an accepted event's type and PR id are the payload's `eventType` and `resource.pullRequestId`; title, status, `createdBy.displayName`, `repository.name` and `_links.web.href` are copied when present, and otherwise (an empty inner dict included) are `No Title`, `Unknown` and `#`; an absent ref gives `Unknown` and a present one its last segment |
| `Lifecycle.KeyOf` | cogs/webhook_handler.py:77 | a PR id can be a dict key unless it is a list or a dict; numbers and strings are distinct keys; `true` and `false` are the keys of 1 and 0 |
| `Lifecycle.RejectionResponse` | cogs/webhook_handler.py:26-38 | the three missing-field refusals are 400s; a wrong-typed value is the catch-all 500 |
| `Lifecycle.OnCreated` | cogs/webhook_handler.py:63-80 | the created branch only adds or replaces entries, and it changes the table only when it answers 200 |
| `Lifecycle.OnUpdated` | cogs/webhook_handler.py:84-117 | the updated branch never writes the table and answers 200 or 500 |
| `Lifecycle.Dispatch` | cogs/webhook_handler.py:62-119 | once the thread is found, only a `created` event answered 200 changes the table, never by removing an entry; the answer is 200 or 500 |
| `Lifecycle.Deliver` | cogs/webhook_handler.py:25-123 | one delivery never removes an entry and answers 200, 400, 404 or 500; it changes the table only for an accepted `created` event answered 200 |
| `Properties.MissingEventTypeIs400` | cogs/webhook_handler.py:25-27 | a missing or falsy `eventType` gives 400 "Missing event type", no call and an unchanged table |
| `Properties.MissingResourceIs400` | cogs/webhook_handler.py:32-34 | a missing or falsy `resource` gives 400 "Missing resource", no call and an unchanged table |
| `Properties.MissingPrIdIs400` | cogs/webhook_handler.py:36-38 | a missing or falsy `pullRequestId`, 0 included, gives 400 "Missing PR ID", no call and an unchanged table |
| `Properties.RefusedIsInert` | cogs/webhook_handler.py:25-46 | any refused payload makes no call and leaves the table alone; the answer is 400, or 500 for a wrong-typed value |
| `Properties.UnresolvedLocationIs404` | cogs/webhook_handler.py:48-60 | an unresolved server, channel or thread gives 404 for every event type, with no call and an unchanged table |
| `Properties.AcceptedDeliveryDispatches` | cogs/webhook_handler.py:25-63 | an accepted payload whose server, channel and thread resolve is handled as its extracted event, so the event-level properties below hold for whole deliveries |
| `Properties.CreatedDeliveryStoresPayloadLink` | cogs/webhook_handler.py:36-80 | end to end, a `created` delivery whose send returns `m` answers 200 and sets the entry of its `resource.pullRequestId` to `m` with the payload's `resource._links.web.href` (or `#`), and changes nothing else |
| `Properties.CreatedRecordsSentMessage` | cogs/webhook_handler.py:63-80 | a `created` event sends one message and sets the PR's entry to the sent id and the payload link, replacing any earlier entry and keeping all others |
| `Properties.CreatedFailureWritesNothing` | cogs/webhook_handler.py:74-80 | when the send raises, or the PR id cannot be hashed, the answer is 500 after the one send, and the table is unchanged |
| `Properties.UpdatedNeverWrites` | cogs/webhook_handler.py:84-117 | an `updated` event never inserts, changes or removes an entry |
| `Properties.UpdateEditsStoredMessage` | cogs/webhook_handler.py:84-117 | a `completed` or `active` update (any letter case) of a known PR fetches and edits the stored message with the stored link, and a `completed` one then posts the merge notice with that link; an `active` one needs no notice to succeed |
| `Properties.UpdateFailureIs500` | cogs/webhook_handler.py:84-123 | an update gives 500 with no call when its status is not a string, or when its PR id cannot be a key on a `completed`/`active` update; for a known PR a failed fetch, edit or notice gives 500 after exactly the calls made so far |
| `Properties.CompletedUnknownIs500` | cogs/webhook_handler.py:109-123 | a `completed` update of an unknown PR gives 500 with no call and an unchanged table |
| `Properties.OtherEventsIgnored` | cogs/webhook_handler.py:84-119 | other event types, other statuses, and an `active` update of an unknown PR give 200 with no call and an unchanged table |
| `Properties.CreatedThenCompletedUsesOriginalUrl` | cogs/webhook_handler.py:77-116 | after a `created` event, a `completed` update edits the message that was sent and links the edit and the notice to the created event's URL, not the update's |
| `Properties.RepeatedCreateLastWriteWins` | cogs/webhook_handler.py:77-80 | a second `created` event for a PR replaces the first one's message id and link |
| `Properties.DeliverKeepsMessagesDistinct` | cogs/webhook_handler.py:74-80 | no two PRs share a message, as long as sent messages get ids not already stored |
| `Properties.ReplayKeepsKeys` | cogs/webhook_handler.py:12 | over any run of deliveries, no entry is ever removed |
| `Properties.ReplayNoBackfill` | cogs/webhook_handler.py:63-88 | an entry that appears during a run of deliveries was written by a `created` event for that PR within the run |
| `Properties.ReplayWithoutCreatesIsInert` | cogs/webhook_handler.py:84-119 | a run of deliveries without a `created` event leaves the table as it was |
| `Webhook.NotificationStore.constructor` | cogs/webhook_handler.py:12 | the table starts empty |
| `Webhook.NotificationStore.HandleWebhook` | cogs/webhook_handler.py:20-123 | the answer, the calls made and the new table are those of `Deliver` on the old table; entries are never removed; only a `created` event writes |
| `Webhook.NotificationStore.HandleCreated` | cogs/webhook_handler.py:63-80 | sends, then writes the entry in place, as `OnCreated` describes |
| `Webhook.NotificationStore.HandleUpdated` | cogs/webhook_handler.py:84-117 | reads the table only, and makes the fetch, edit and notice calls `OnUpdated` describes |

## Left out

- The aiohttp listener, routing, `request.json()` and its parse errors (lines 17-18, 23, 125-139). These are I/O. The model starts from the decoded JSON value.
- JSON numbers with a fraction. `JNum` holds integers only, so the Python key equality `1.0 == 1` is not modelled.
- Text.LowerChar: lower-cases ASCII letters only. Python's `str.lower` also lower-cases other Unicode letters. The only statuses compared are the ASCII words `completed` and `active`.
- Text.Lower: lower-cases ASCII letters only, character by character through `Text.LowerChar`, for the same reason.
- Embed titles, descriptions, colours and `status.capitalize()` (lines 64-73, 95-104, 110-115). These are presentation. Each call records only its kind, the message id, the PR id and the link it uses.
- The Discord library calls themselves (`get_guild`, `get_channel`, `get_thread`, `send`, `fetch_message`, `edit`). They are inputs of the `Gateway` value.
- Environment loading of the server, channel and thread ids (lines 7-9). Only whether each lookup resolves matters.
- Logging with `print`.
- Overlapping asynchronous deliveries. Each delivery is handled to completion before the next one.
- `cogs/password_manager.py` and `app.py`. They are the password command and the bot's startup, not the webhook handler.
