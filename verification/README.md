# Meta webhook relay — a Dafny model of `server.js`

`server.js` is a small Express server. It relays messages that arrive from Facebook Messenger and the WhatsApp Cloud API through the Meta webhook to a chat-completion service. It sends the completion's reply back through the same platform. It logs to SQLite every inbound text message it handles and every reply it manages to send. Echoes, messages without a text, and replies whose send failed leave no record. This project models the core of that server:

- **The `/webhook` handshake.** A GET request echoes `hub.challenge` when `hub.mode` is truthy and `hub.verify_token` equals the configured `VERIFY_TOKEN`. Otherwise it answers 403.
- **The `/webhook` POST handler.** It walks `entry[]` in order. Within each entry it handles:
  - the Messenger `messaging[]` items that carry a non-echo text, normalised to `(messenger, entry.id || sender.id, sender.id, text)`;
  - then the WhatsApp `changes[].value.messages[]` items with a `text.body`, normalised to `(whatsapp, metadata.phone_number_id || "", from, body)`.

  For a Messenger message the handler logs it as incoming and awaits a completion. Only then does it look up a page with `LIMIT 1`. If a page is found, it sends the reply with that page's token and, when the send succeeds, logs the reply as outgoing.

  For a WhatsApp message the handler logs it as incoming and then looks up a number with `LIMIT 1`. Only when that row has a token and a phone number id does it ask for a completion. It then sends the reply and logs it as outgoing when the send succeeds.

  When the walk finishes, the handler answers `EVENT_RECEIVED`.
- **The store.**
  - An append-only `messages` log.
  - The `pages` table, upserted by `page_id` through the OAuth callback.
  - The `whatsapp` table, upserted by `phone_number_id` through `/save_whatsapp`.
  - The two `LIMIT 1` lookups, which may return any stored row.

The model has six modules:

| module | contents |
|---|---|
| `Common` | JavaScript truthiness, `||`, HTTP responses, and `Filter`/`Map` on sequences. |
| `Inbound` | The webhook body and its pure normalisation into a list of events. A qualifying Messenger item without `sender` throws a TypeError; the model records this as an `aborted` walk. |
| `Db` | The table rows, `Upsert`, and the `Store` class whose methods change its tables in place. |
| `Replies` | The per-event behaviour as a trace of `Action`s (log, completion request, send). It also holds the records each event adds to the log. |
| `Webhook` | The route handler as imperative methods with loops over the body, proved against the functions of `Inbound` and `Replies`. |
| `Scenarios` | Concrete requests run end to end through the store and the handler. |

The completion service and the two Graph API senders are oracles, held in the `Env` value.

Some consequences of the code, which the model keeps:

- **A throw can skip the acknowledgement.** A qualifying Messenger item without `sender` throws a TypeError at `ev.sender.id` (server.js:189), and nothing in the handler catches it. The walk stops there and `EVENT_RECEIVED` is not sent. Records written before the throw stay in the log. How the runtime then treats the request is covered under "Left out".
- **Messenger completion without a page.** A Messenger message triggers a completion request even when no page is stored, because the page lookup comes after the completion (server.js:198-200).
- **WhatsApp chat id fallback.** A WhatsApp message whose change carries no `metadata.phone_number_id` is logged under chat id `""` (server.js:219).
- **First page only.** The OAuth callback stores only the first page `me/accounts` lists, with `subscribed = 1` (server.js:151-156).
- **One text per prompt.** Each completion sees only the system instruction and the one inbound text (server.js:194-197, 225-228).

## Model

| member | source | states |
|---|---|---|
| Webhook.Verify | server.js:172-177 | The answer is 200 exactly when `hub.mode` is truthy and the token equals the configured secret; it then carries the challenge. Otherwise it is 403 "Verification failed". |
| Webhook.AbsentTokenMatchesUnsetSecret | server.js:174-176 | With `VERIFY_TOKEN` unset, a request without `hub.verify_token` passes the handshake (`undefined === undefined`). |
| Inbound.NormaliseMessaging | server.js:187-190 | A qualifying Messenger item becomes a Messenger event whose text is `ev.message.text` (non-empty) and whose sender id is the item's. It is filed under the entry id when that is truthy, else under the sender id. |
| Inbound.MessengerAbortsIff | server.js:186-189 | The walk of a `messaging` list stops exactly when some item qualifies (a message that is not an echo and has a text) but has no `sender`. |
| Inbound.MessengerEventsAreQualifying | server.js:186-192 | Unless the walk stops, the Messenger events are exactly the qualifying items, one each, in order. |
| Inbound.MessengerEventsShaped | server.js:187-190 | Every Messenger event has a non-empty text, the Messenger platform, and the entry id (or its sender id) as chat id. |
| Inbound.MessengerAbortsAt | server.js:186-192 | A qualifying item without `sender` ends its list: the events before it are kept and nothing after it is handled. |
| Inbound.NormaliseWa | server.js:216-219 | A WhatsApp message with a body becomes a WhatsApp event whose text is `m.text.body` (non-empty), with the message's `from` and the change's chat id. |
| Inbound.WaMessagesEventsHaveBodies | server.js:215-221 | The WhatsApp events of one change are exactly its messages with a non-empty `text.body`, one each, in order. |
| Inbound.WaMessagesEventsShaped | server.js:216-221 | Every WhatsApp event of one change has a non-empty text and the change's `phone_number_id`, or `""`, as chat id. |
| Inbound.ChangesEventsShaped | server.js:211-221 | Every event drawn from `changes` is a WhatsApp event with a non-empty text. |
| Inbound.ChangesEventsIff | server.js:211-221 | An event comes from an entry's `changes` exactly when some change carries a message with a non-empty `text.body`; the event is that message normalised under that change's `phone_number_id || ""`. |
| Inbound.EntryAbortsIff | server.js:185-189 | One entry's walk stops exactly when it holds a qualifying Messenger item without `sender`. |
| Inbound.EntryEvents | server.js:185-240 | An entry with neither `messaging` nor `changes` yields nothing. |
| Inbound.EntryMessengerFirst | server.js:185-240 | Within one entry, no Messenger event comes after a WhatsApp event. |
| Inbound.EntriesAppend | server.js:183-241 | Entries are handled in order: the events of `a + b` are those of `a` followed by those of `b`, and nothing of `b` is reached if `a` throws. |
| Inbound.EntriesAbortIff | server.js:183-241 | The walk of the whole body stops exactly when some entry holds a qualifying Messenger item without `sender`. |
| Inbound.EntriesAbortAt | server.js:183-241 | The first entry that throws ends the walk: the events of the entries before it and its own events up to the throw are kept. |
| Inbound.ShapelessEntriesAddNothing | server.js:185-211 | Entries that have neither `messaging` nor `changes` contribute no event. |
| Inbound.Extract | server.js:183 | A body without `entry` yields nothing. |
| Inbound.ExtractTextsNonEmpty | server.js:187-216 | Only messages with a text are ever logged: every extracted event has a non-empty text. |
| Db.Upsert | server.js:165 | `INSERT OR REPLACE` on a unique key: afterwards the key holds the new row, the table's keys gain only that key, and every other row is unchanged. |
| Db.UpsertLatestWins | server.js:154 | Upserting twice under one key leaves only the second row. |
| Db.Store.constructor | server.js:24-52 | A new database has three empty tables and satisfies the keying invariant. |
| Db.Store.InsertMessage | server.js:57-62 | `dbInsertMessage` appends exactly one record to the log and changes nothing else. |
| Db.Store.AnyPage | server.js:64-68 | `getAnyPage` returns none exactly when `pages` is empty; otherwise it returns some stored row, under its own key. |
| Db.Store.AnyWhatsapp | server.js:70-74 | `getWhatsapp` returns none exactly when `whatsapp` is empty; otherwise it returns some stored row. |
| Db.Store.SaveWhatsapp | server.js:162-168 | Without a truthy `phone_id` and `token`: 400 and no change. Otherwise the row is upserted under `phone_id` and the answer redirects to `/`. The keying invariant is kept. |
| Db.Store.FacebookCallback | server.js:135-159 | Without a code: 400 and no change. When a Graph call fails: no response. Otherwise: redirect to `/`, with the first listed page upserted under its id with `subscribed = 1`, or no change when none is listed. |
| Replies.Reply | server.js:77-97 | `generateAIReply` never fails. It returns the completion's content, or the fixed apology when the call fails. |
| Replies.MessengerEventSpec | server.js:192-205 | A Messenger event is logged, then a completion is always requested. With a page credential, the reply is sent to the sender with the page token. It is logged as outgoing from "page" exactly when the send succeeded. |
| Replies.WhatsappEventSpec | server.js:221-236 | A WhatsApp event is logged. Only a credential with a non-empty token and phone number id leads to a completion request and a send to `from`. The reply is logged as outgoing from "wa_bot" under the stored phone number id exactly when the send succeeded. |
| Replies.SavedWhatsappCredentialIsUsable | server.js:164-224 | Any row `/save_whatsapp` can store passes the handler's `wa && wa.token && wa.phone_number_id` test, so a WhatsApp event then always gets a completion. |
| Replies.EventIncoming | server.js:192-221 | Whatever the lookup returns, an event writes exactly one incoming record: its own. |
| Replies.EventLog | server.js:192-236 | The records an event's trace writes are its incoming record, then its reply record if one was sent. |
| Replies.DispatchAppend | server.js:184-241 | Handling `a + b` performs the actions for `a` and then those for `b`. |
| Replies.LogOfAppend | server.js:184-241 | The log written for `a + b` is the log for `a` followed by the log for `b`. |
| Replies.DispatchLog | server.js:184-241 | The records a request's trace writes are, in order, each event's incoming record, each followed by its reply record. |
| Replies.DispatchIncoming | server.js:184-241 | The incoming records a request writes are exactly its inbound events, in order, one each. |
| Replies.DispatchRepliesFollowSends | server.js:200-236 | Every outgoing record directly follows, in the trace, a send of the same text. |
| Replies.NoCredentialNoSend | server.js:200-236 | With no stored credential, nothing is sent. |
| Replies.NoCredentialNoReply | server.js:200-236 | With no stored credential, the log gets exactly the incoming records. |
| Replies.NoCredentialLog | server.js:200-236 | The same, stated over the per-event log. |
| Webhook.HandleMessengerEvent | server.js:188-205 | Logs the event, requests the completion and performs the lookup, the send and the outgoing log exactly as `EventActions` says for the credential found. |
| Webhook.HandleWhatsappEvent | server.js:217-236 | The same for a WhatsApp event and the `whatsapp` lookup. |
| Webhook.HandleMessagingItem | server.js:186-206 | One `messaging` item: skipped unless it qualifies, aborted when it has no sender, otherwise handled as one event. |
| Webhook.HandleMessaging | server.js:185-208 | The loop over `messaging` performs `Dispatch` of the entry's Messenger events, stops on the first throw, and appends their log. |
| Webhook.HandleWaMessages | server.js:215-238 | The loop over one change's messages performs `Dispatch` of its WhatsApp events and appends their log. |
| Webhook.HandleChanges | server.js:211-240 | The loop over `changes` performs `Dispatch` of all the entry's WhatsApp events. |
| Webhook.HandleEntry | server.js:185-240 | One entry: its Messenger events, then its WhatsApp events. The WhatsApp events are skipped if the Messenger walk threw. |
| Webhook.HandleEvents | server.js:183-242 | The loop over `entry` performs `Dispatch` of `Extract(body)` and appends exactly `LogOf` of those events. It reports whether the walk threw. |
| Webhook.HandleWebhook | server.js:171-245 | GET: the handshake answer, with nothing logged. Otherwise: `EVENT_RECEIVED` unless the walk threw (then no response). Either way the log grows by exactly the records of the trace, and the lookups agree with the tables. |
| Scenarios.MessengerBodyEvents | server.js:183-192 | A one-message Messenger body yields one event, filed under the entry id. |
| Scenarios.WhatsappBodyEvents | server.js:211-221 | A one-message WhatsApp body yields one event, filed under the phone number id. |
| Scenarios.MessengerScenario | server.js:183-244 | After the OAuth callback stores a page, a Messenger text is logged, answered through that page's token, and acknowledged. The reply is logged when the send succeeds. |
| Scenarios.WhatsappScenario | server.js:183-244 | After `/save_whatsapp` stores a number, a WhatsApp text is logged, answered through that number, and acknowledged. The reply is logged when the send succeeds. |
| Scenarios.NoCredentialScenario | server.js:183-244 | With no page stored, a Messenger text is logged and a completion requested, but nothing is sent; the request is still acknowledged. |
| Scenarios.ShapelessScenario | server.js:183-244 | An entry matching neither shape writes nothing and is acknowledged. |
| Scenarios.MissingSenderScenario | server.js:186-189 | A qualifying Messenger item without `sender` leaves no response and no record. |

## Left out

- The network calls to the completion service and to the Graph API (`sendMessengerMessage`, `sendWhatsappMessage`, the OAuth token exchange and `me/accounts`) are oracles: total functions in `Env`, or the `listed` argument of `FacebookCallback`. Their HTTP details, the model name and the API keys are not modelled.
- The oracles are deterministic. Two identical requests in one run get the same answer, which the real services need not give.
- Express routing, body parsing, static files, configuration loading, `app.listen` and the SQLite connection and DDL are not modelled. The tables are maps and a sequence.
- `/connect` (server.js:123-132) only builds a redirect URL from configuration and touches no state; it is not part of this model.
- Concurrency: for Messenger the handler awaits the completion (server.js:198) but not the `getAnyPage` callback that sends and logs the reply. For WhatsApp it awaits nothing: the completion, the send and the outgoing log all run inside the `getWhatsapp` callback (server.js:223-236). Under real scheduling, the outgoing records of one request may therefore interleave with later incoming records, and WhatsApp completions of one request may overlap. The model runs each event's callback to completion before the next event.
- `Date.now()` and the auto-increment id are not stored. A record's position in the log stands for both.
- The webhook body is taken to be well typed JSON: arrays, objects and strings wherever the code reads them. Malformed shapes that would throw elsewhere (for example `entry` not being iterable) are not modelled; only the missing `sender` is.
- Replies.Reply: the completion's content is taken to be a string. Responses whose `choices[0]` or `message.content` is missing or not a string are folded into the oracle's answer.
- Replies.MessengerEventSpec: a failed Messenger send rejects inside a callback nobody awaits. The model records only that no outgoing record is written. It does not model the process-level unhandled rejection.
- Db.Store.AnyPage / Db.Store.AnyWhatsapp / Db.Store.InsertMessage: SQLite query and write failures are not modelled. `getAnyPage` and `getWhatsapp` ignore `err` and pass `null` to their callback (server.js:65-66, 71-72). A failed lookup therefore reads as "no credential" even when rows are stored: a Messenger event still gets its completion but no send, and a WhatsApp event gets nothing after its incoming record. The model's "none exactly when the table is empty" excludes that case. `dbInsertMessage` and both upserts call `db.run` without a callback (server.js:58-61, 154-155, 165-166), so a failed write goes unnoticed. The model always appends or upserts.
- Db.Store.AnyPage: `LIMIT 1` without `ORDER BY` leaves the returned row unspecified. The model allows any stored row, so it does not model SQLite's actual choice (usually the lowest rowid).
- Db.Store.FacebookCallback: failures of the two Graph API calls are collapsed into `listed == None`. Which call failed and the error it raised are not modelled.
- Webhook.HandleWebhook / Db.Store.FacebookCallback: a throw inside these async handlers (`ev.sender.id` at server.js:189, a failed Graph call at server.js:140-149) is modelled as no response, which is Express 4's behaviour for a rejected handler. The code does not pin an Express or Node version. Under Express 4 on Node 15 or later, the unhandled rejection ends the process by default. Express 5 instead passes the rejection to its error handler, which answers 500. The model captures neither the process exit nor the 500 answer.
