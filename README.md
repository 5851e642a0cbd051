# message-pocket outbox, modelled in Dafny

message-pocket relays EdgeOne deployment webhooks into a QQ group. Each
notification is first written to a durable outbox table (`message_box`), then
sent through the NapCat chat gateway. The delivery outcome is recorded on the
row. A periodic sweep resends every message still Pending one minute after it
was created. This project models that outbox:

- the store: an in-memory table keyed by id, with a `nextId` counter. It has the
  insert, the "Pending and older than" select, and the partial update by id.
- the service: save-then-send, the Sent and failure writes, destination
  dispatch, and the retry sweep.
- the EdgeOne handler: rendering the event, and mapping it to one save request.
- the event-code label table.

Layout, one module per source file or component:

| file | module | models |
|---|---|---|
| `results.dfy` | `Results` | nil pointers and `error` returns (`Option`, `Outcome`, `Result`) |
| `errors.dfy` | `Errors` | the error values and their `Error()` text, including `fmt.Errorf` wrapping |
| `model.dfy` | `Model` | the row, the returned record, status / destination / source enumerations |
| `repo.dfy` | `Repo` | `MessageBoxRepo` as a class over `rows: map<int, Row>` and `nextId` |
| `napcat.dfy` | `NapCat` | the gateway client as an oracle with a ghost log of calls |
| `outbox_spec.dfy` | `OutboxSpec` | the delivery state machine as functions on a `World` value |
| `outbox_properties.dfy` | `OutboxProperties` | lemmas about save-and-send and the sweep |
| `outbox.dfy` | `Outbox` | `MessageBoxService` as a class, proved against `OutboxSpec` |
| `logic.dfy` | `Logic` | `GetMessageTypeLabel` |
| `layout.dfy` | `Layout` | where each caption and value lands in text built by a format string made of captions and `%s` verbs |
| `eo.dfy` | `EO` | rendering and `EOService.EOWebhookEventHandle` |

Things the model replaces:

- Clock: every `time.Now()` is a `now: int` parameter in Unix seconds, read once per call.
- Database failures: the repo's `driver: nat -> Outcome<string>` gives the outcome
  of the k-th driver call.
  - `Create` makes two calls: the INSERT, then `LastInsertId`.
  - `ListFailedBefore` and `UpdateByID` make one call each.
- Gateway: `NapCatService.replies` gives the answer to the k-th `send_group_msg`
  call. The ghost `sends` log records every call.
- Configured group id: the service's `groupId` constant.
- JSON serialization: the `marshal` parameter, a total function that may fail.

The "sent only after saved" property uses the service's ghost `deliveries` log.
It records each gateway call together with the table as it stood at that
moment. The class invariant `Valid()` includes `CallsMatchLog`: the log,
entry by entry and in order, matches the gateway's own call log. Each entry
is the message of the call at the same position, sent to the configured
group. Two predicates relate the state after a call to the state before it:

- `LoggedSince`: the new entries are exactly as many as the new gateway calls,
  and the row of each new entry was already in the table.
- `LoggedInCallOrder`: the k-th gateway call made by the operation sent the
  message of the k-th entry it logged.

Three behaviours of the code are modelled as written, although a reader might expect otherwise:

- `UpdateByID` does no not-found check, so an update by id of a missing row does not fail. It changes nothing and reports success.
- When `LastInsertId` fails after a successful INSERT, `Create` reports an error.
  The row stays in the table, is never sent by that call, and is later picked up
  by the sweep.
- `EOWebhookEventHandle` returns an error when a message was saved but not sent.
  It also returns one when the Sent write fails.

## Model

| member | source | states |
|---|---|---|
| `Repo.ApplyPatch` | internal/repo/message_box.go:133-139 | A partial update sets exactly the named columns. Unnamed columns keep their values, and the identity columns (id, biz_id, message, source_request, types, created_at) never change. |
| `Repo.UpdateTable` | internal/repo/message_box.go:133-139 | An update by id changes only the row with that id and keeps the set of ids. An id with no row leaves the table unchanged. |
| `Repo.UpdateIdempotent` | internal/repo/message_box.go:133-139 | Applying the same update twice gives the same table as applying it once. |
| `Repo.ListingExcludes` | internal/repo/message_box.go:118-121 | A Sent row is never listed. A row whose created_at is not strictly before the cutoff is never listed either. |
| `Repo.Int32Of` | internal/repo/message_box.go:100 | Go's `int32(x)` conversion. The result lies in the int32 range and differs from x by a multiple of 2^32 (two's-complement wrap-around). A value already in range is unchanged. |
| `Repo.NarrowedIdMissesRow` | internal/repo/message_box.go:94-100 | As written, the row with id 2^31 is returned as id -2^31. An update keyed by that id reaches no row. |
| `Repo.MessageBoxRepo.constructor` | internal/repo/message_box.go:24-28 | A new repo has an empty table, the first id is 1, and no driver calls have been made. |
| `Repo.Insert` | internal/repo/message_box.go:43-102 | The one definition of the insert. A failed INSERT changes nothing and returns the driver error. Once the INSERT succeeds, the table gains exactly the new Pending row under the next id (earlier rows unchanged), and the driver is called twice. A record comes back exactly when there is no error, and it is that row's record. A failed id read returns the driver's second error. |
| `Repo.MessageBoxRepo.Create` | internal/repo/message_box.go:43-102 | The new id is not yet in the table. The table, id counter, driver calls and results change exactly as `Repo.Insert` says. |
| `Repo.MessageBoxRepo.SelectStuck` | internal/repo/message_box.go:107-126 | The result holds the records of exactly the rows with status Pending and created_at strictly before the cutoff. Each appears once, as its row reads. |
| `Repo.MessageBoxRepo.ListFailedBefore` | internal/repo/message_box.go:104-131 | The table is not modified. A failed query returns nil and an error. Otherwise the result is such a listing. |
| `Repo.MessageBoxRepo.UpdateByID` | internal/repo/message_box.go:133-139 | On success the table is updated by id as above. On failure the table is unchanged and the driver error is returned. |
| `NapCat.NapCatService.constructor` | internal/services/napcat_service.go:29-35 | A new client has made no calls. |
| `NapCat.NapCatService.SendGroupMessage` | internal/services/napcat_service.go:75-93 | Exactly one call is made and logged, with the group id and the text. The client's answer is returned. |
| `Errors.Text` | internal/services/message_box_service.go:64-82 | `err.Error()` of a chain of `%w` wrappings always ends with the message of the error that started the chain. The gateway's or driver's own text is therefore kept at the end of what is logged and stored as last_error. |
| `Errors.DecimalText` | internal/services/message_box_service.go:95 | `%v` of a destination type gives an optional "-" followed by digits, without a leading zero ("0" itself excepted). Read back by the independent parser `Errors.DigitsValue`, those digits give the number's magnitude. |
| `Errors.NaturalText` | internal/services/message_box_service.go:95 | The digits of a natural number: at least one, all digits, no leading zero unless the number is 0, and `Errors.DigitsValue` reads them back as the number. |
| `OutboxSpec.Create` | internal/services/message_box_service.go:52-65 | Saving never calls the gateway. The table either stays as it was or gains exactly the new Pending row under `nextId`, and the next id moves on only in the second case. A record comes back exactly when no error does, and it is that row's record. |
| `OutboxSpec.Update` | internal/services/message_box_service.go:124-137 | A status write changes only the table and the driver-call count. A failed write leaves the table unchanged. |
| `OutboxSpec.Send` | internal/services/message_box_service.go:88-97 | Sending never touches the store. A destination other than QQ group fails with "unsupported destination type" and makes no gateway call. A QQ-group record makes one call with the configured group and its text, and succeeds exactly when the gateway does. |
| `OutboxSpec.SendToQQGroup` | internal/services/message_box_service.go:100-115 | The store is untouched. One gateway call is made with the configured group and the record's text. It succeeds exactly when the gateway does; otherwise the error is wrapped as "failed to send message to QQ group". |
| `OutboxSpec.DeliverSaved` | internal/services/message_box_service.go:71-85 | It keeps the set of ids and the next id, and makes at most one gateway call. A record comes back only as the saved one, and always on success. An error is "message saved but failed to send" or the status-change error. `OutboxProperties.DeliverSavedFrame` gives the row-level effects. |
| `OutboxSpec.SaveAndSend` | internal/services/message_box_service.go:47-86 | At most one new id and at most one gateway call. A returned record is the saved row's record, and success always returns one. Every error wraps its cause under one of the three contexts. The outcomes are detailed by the `OutboxProperties` lemmas below. |
| `OutboxSpec.MessageRetry` | internal/services/message_box_service.go:139-176 | The sweep fails exactly when the listing query fails, and then only the driver-call count changes. It never adds or removes a row. What the tries do is stated by the `RetryAll` lemmas below. |
| `OutboxSpec.Attempts` | internal/services/message_box_service.go:153-173 | The sweep's gateway messages are never more than the listed records. |
| `OutboxSpec.RetryOne` | internal/services/message_box_service.go:153-173 | One retry touches at most its own row, which is either unchanged or marked Sent at now. A failed send leaves the table untouched. |
| `OutboxSpec.RetryAll` | internal/services/message_box_service.go:153-173 | A sweep keeps the set of ids and the next id. |
| `OutboxProperties.SaveFailureSendsNothing` | internal/services/message_box_service.go:59-65 | If `Create` fails, nil and a "failed to save message" error are returned and the gateway is not called. A failed insert also leaves the table unchanged. |
| `OutboxProperties.DeliveredIsMarkedSent` | internal/services/message_box_service.go:72-85 | If the send and the Sent write succeed, the new row is Sent with last_sent_at = now, one message is sent, and the record comes back with no error. |
| `OutboxProperties.SendFailureReturnsRecord` | internal/services/message_box_service.go:72-78 | If the send fails, the saved record is returned with "message saved but failed to send" wrapping the send error, whether or not the annotation was written. Only a QQ-group message reaches the gateway. |
| `OutboxProperties.DeliverFailureAnnotates` | internal/services/message_box_service.go:72-75 | After a failed send of a saved record, its row carries last_sent_at = now and the error text when the annotation write succeeds. When that write fails, the table is untouched. |
| `OutboxProperties.SendFailureAnnotatesRow` | internal/services/message_box_service.go:72-78 | If the send fails, the new row stays Pending. When the annotation write succeeds, the row carries last_sent_at = now and last_error = the send error's text. When it fails, the row stays exactly as inserted. |
| `OutboxProperties.StatusWriteFailureReturnsNil` | internal/services/message_box_service.go:80-83 | If the send succeeds but the Sent write fails, nil and a status-change error are returned, and the row stays as created (Pending). |
| `OutboxProperties.DeliverSavedFrame` | internal/services/message_box_service.go:71-85 | Delivering a saved record touches only its own row, and only the status and outcome columns. Sent rows stay stamped. The gateway is called at most once, with that record's text. For a Pending row, success comes exactly when the row ends up Sent. |
| `OutboxProperties.SaveAndSendFrame` | internal/services/message_box_service.go:47-86 | Earlier rows are untouched, and only the new row can appear. Its identity columns are the request's. Sent rows stay stamped. The gateway is called at most once, and only with the text of the row already saved. The call succeeds exactly when that row ends up Sent. |
| `OutboxProperties.RetryAllAttempts` | internal/services/message_box_service.go:153-173 | The sweep hands each listed QQ-group record to the gateway exactly once, in list order, and makes no other call. It makes at most one driver call per record. |
| `OutboxProperties.RetryAllRows` | internal/services/message_box_service.go:153-173 | After a sweep, every row is unchanged or marked Sent at now. Rows not in the listing are unchanged. |
| `OutboxProperties.SweepKeepsSent` | internal/services/message_box_service.go:124-130 | The sweep writes only Sent: a Sent row stays Sent, last_error and the identity columns never change, and Sent rows stay stamped. |
| `OutboxProperties.SweepLeavesUnlistedRows` | internal/repo/message_box.go:117-121 | A sweep over the store's listing leaves unchanged every row that was not stuck: every Sent row and every row younger than the retry window. |
| `OutboxProperties.RetryAllDelivers` | internal/services/message_box_service.go:153-173 | When every send and Sent write succeeds, every listed QQ-group record ends up Sent at now. |
| `OutboxProperties.RetryOneDelivers` | internal/services/message_box_service.go:154-172 | A QQ-group record whose send and Sent write both succeed has its row marked Sent at now. |
| `OutboxProperties.NoAttemptsWithoutGroupRecords` | internal/services/message_box_service.go:89-97 | A listing with no QQ-group record makes no gateway call. |
| `OutboxProperties.LeftoversAreUnsendable` | internal/services/message_box_service.go:117-122 | After a fully successful sweep, every row still stuck at the same cutoff has an unsupported destination. |
| `OutboxProperties.SecondSweepIsSilent` | internal/services/message_box_service.go:139-176 | After a sweep in which every send and update succeeds, a second sweep at the same now makes no gateway call. |
| `Outbox.MessageBoxService.constructor` | internal/services/message_box_service.go:30-38 | The service holds the given repo and client, and has logged no deliveries. |
| `Outbox.MessageBoxService.SaveAndSendMessage` | internal/services/message_box_service.go:46-86 | The store, gateway and result change exactly as `OutboxSpec.SaveAndSend` says. Every gateway call is logged, and the logged record is the one whose message that call sent to the configured group (`LoggedInCallOrder`). That record's row was already in the table when the call was made (`LoggedSince`). |
| `Outbox.MessageBoxService.DeliverSavedMessage` | internal/services/message_box_service.go:71-85 | The effects are exactly `OutboxSpec.DeliverSaved`, and a gateway call is logged only for the persisted record. |
| `Outbox.MessageBoxService.SendMessage` | internal/services/message_box_service.go:88-97 | Effects are exactly `OutboxSpec.Send`. A delivery is logged only for a QQ-group record. |
| `Outbox.MessageBoxService.SendToQQGroup` | internal/services/message_box_service.go:99-115 | There is one gateway call with the configured group id. A failure is wrapped as "failed to send message to QQ group". |
| `Outbox.MessageBoxService.FindFailedMessages` | internal/services/message_box_service.go:117-122 | It lists with cutoff now - 60 seconds and does not change the table. |
| `Outbox.MessageBoxService.MessageSentSuccessProcess` | internal/services/message_box_service.go:124-130 | It writes status Sent and last_sent_at = now to that row only. |
| `Outbox.MessageBoxService.MessageSentFailureProcess` | internal/services/message_box_service.go:132-137 | It writes last_sent_at = now and last_error = the error text, and leaves the status alone. |
| `Outbox.MessageBoxService.RetryMessage` | internal/services/message_box_service.go:154-172 | One loop turn is exactly `OutboxSpec.RetryOne`. It keeps every id and message text, and sends only a persisted message. |
| `Outbox.MessageBoxService.RetryEach` | internal/services/message_box_service.go:153-173 | The loop over a listing whose records are rows of the table has exactly the effects of `OutboxSpec.RetryAll`, in list order. Every gateway call is logged for a persisted message. |
| `Outbox.MessageBoxService.MessageRetry` | internal/services/message_box_service.go:139-176 | It errors only when the listing fails, and then changes nothing else. Otherwise it returns nil, and the effects are `OutboxSpec.RetryAll` over the store's listing. That listing is exactly the stuck rows, an empty one included. The k-th resend sent the message of the k-th logged record, whose row was already in the table. |
| `Logic.GetMessageTypeLabel` | internal/services/logic/eo.go:4-33 | Each of the 12 known codes gives its fixed label. Any other code is returned unchanged. |
| `Logic.LabelsDistinct` | internal/services/logic/eo.go:5-29 | Different known codes have different labels. |
| `Logic.LabelIdempotent` | internal/services/logic/eo.go:4-33 | Labelling twice is labelling once: no label is a known code. |
| `Logic.LabelEmptyIff` | internal/services/logic/eo.go:4-33 | The label is empty exactly when the code is. |
| `Layout.ValueAtOffset` | internal/services/eo_service.go:30-43 | Each value stands in the rendered text at its computed offset. |
| `Layout.CaptionBeforeValue` | internal/services/eo_service.go:30-43 | The text of each value's own caption stands immediately before it. |
| `Layout.OffsetsIncrease` | internal/services/eo_service.go:30-43 | Between consecutive values there is room for exactly the next caption. Together with `Layout.CaptionBeforeValue`, that caption's text fills the gap. |
| `Layout.LastValueEnds` | internal/services/eo_service.go:30-43 | The text ends with the last value. |
| `Layout.ValuesInOrder` | internal/services/eo_service.go:30-43 | The text starts with the first caption and is `Layout.LaidOut`. Each value stands at its offset right after its own caption's text. Consecutive values are separated by exactly the next caption, and the last value ends the text. |
| `EO.RenderMessage` | internal/services/eo_service.go:27-43 | The notification opens with the EdgeOne header, immediately followed by the event's label. |
| `EO.RenderedFieldsInOrder` | internal/services/eo_service.go:27-43 | The notification is `Layout.LaidOut` over the six captions of the format string. It shows, in order, the event's label, project name, branch, project id, deployment id and timestamp. Each field comes right after its own caption's text, the first being the header. Nothing follows the timestamp. |
| `EO.Handle` | internal/services/eo_service.go:25-64 | A serialization failure changes nothing and is an error. At most one gateway call is made. Every error is wrapped as "marshal event to json" or "failed to save and send message". The rest is stated by `EO.HandleReportsDelivery`. |
| `EO.HandleReportsDelivery` | internal/services/eo_service.go:25-64 | A serialization failure returns an error with no save and no send. Otherwise the new row holds the deployment id as biz_id, the rendered text, the JSON, source EO and destination QQ group. Only that text can be sent. The handler returns nil exactly when the row ended up Sent. |
| `EO.EOService.constructor` | internal/services/eo_service.go:17-23 | The handler holds the given outbox service. |
| `EO.EOService.EOWebhookEventHandle` | internal/services/eo_service.go:25-64 | Store and gateway change exactly as `EO.Handle` says. Every gateway call is logged, and the logged record is the one whose message that call sent to the configured group (`LoggedInCallOrder`). That record's row was already saved (`LoggedSince`). |

## Findings

| source | as written | input that shows it | evidently intended | confidence | as-written member | corrected member |
|---|---|---|---|---|---|---|
| internal/repo/message_box.go:100 | The 64-bit id of the inserted row is narrowed to int32 in the returned record. The later Sent and failure writes are keyed by that narrowed id. | The insert that receives row id 2147483648 (2^31) | The returned record carries the row's own id, so the status writes reach that row | low (needs 2^31 inserts); not executed | `Repo.NarrowedIdMissesRow` | `Repo.MessageBoxRepo.Create` |

## Left out

- Repo.MessageBoxRepo.Create: ids are unbounded integers. The int32 narrowing of the returned id is modelled only by `Repo.Int32Of` (see Findings).
- Repo.Insert: the same. The record it returns carries the row's unbounded id, not the int32-narrowed one (see Findings).
- The NapCat HTTP client (URL, bearer token, the `status`/`retcode` check): it becomes an oracle answering success or an error text.
- Configuration loading and its singleton: the group id is a constant of the service.
- Dependency-injection wiring, the PocketBase app start, routes, the stale `eo_controller.go`, and the token and trace middlewares are not part of this model.
- Cron registration, and overlapping or concurrent sweeps and webhook requests: every operation runs alone.
- Logging: all `slog` calls, including the logged-and-ignored failure of an annotation or Sent write.
- JSON serialization is the `marshal` parameter. Its output format is not modelled.
- `context.Context` and cancellation.
- Each call reads the clock once. The source reads it separately at each write, so its last_sent_at can exceed created_at by the time the send took.
- The record's `CreatedAt` is the decimal string of the Unix time in the source. In the model it is the integer.
- Column and field mismatches that only affect log lines are not modelled:
  - the Go record has no `BizID` field;
  - its tag `lasted_sent_at` does not match the selected column `last_sent_at`.

  The model's records carry the row's biz_id and last_sent_at.
- The SQL schema migration (its column names differ from the queries): the model is the table the queries use.
- Integer widths of the status, source and destination columns (int32): they are unbounded integers.
