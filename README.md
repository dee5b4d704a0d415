# USSD session reconciliation, modelled in Dafny

This project models the USSD session core of RapidPro, `temba/ussd/models.py`.
Gateways (Vumi, Junebug and the like) report each USSD event with their own
session id, the *external id*, and an optional status hint. The reconciler
`USSDSession.handle_incoming` maps each event onto the session table. It does
one of four things, or fails when two open sessions carry the external id:

- abort;
- resume the subscriber's INITIATED PUSH session;
- resume the one open session that carries the external id;
- create exactly one new session.

It then picks a dispatch path: start a flow or hand the event on, each
synchronously or asynchronously. `handle_interrupt` closes the open session
that carries an external id. `should_end`, `mark_ending` and `close` form the
small status machine of one session.

The model has a pure part and an imperative part.

Pure part:

- `Statuses` declares the statuses, the directions and the DONE group.
- `Records` holds:
  - the session row;
  - the `defaults` dictionary, as a `Patch` with one optional component per
    column;
  - `setattr` as `Assign`, and the whole `setattr` loop as `Overlay`;
  - the row `create` inserts, as `NewRecord`.
- `Queries` holds the queryset lookups, `.first()` and `.get`, as filters over
  the table.
- `Lifecycle` holds `mark_ending` and `close` as functions on one row.
- `Reconciler` holds:
  - `handle_incoming` as `Reconcile`, split into the same decision steps the
    source takes: `Reconcile`, `Unpushed`, `Unmatched`, `ResumeAt`, `CreateAt`;
  - `handle_interrupt` as `Interrupt`, with `CloseAt`;
  - the properties the source promises, proved as lemmas about these
    functions.

Imperative part (module `Ussd`):

- `Session` is a class with one field per column. `MarkEnding`, `Close`,
  `SetAttr` and the `setattr` loop `Update` change those fields. Each is proved
  equal to its row function.
- `SessionStore` holds the table as a sequence of `Session` objects in
  primary-key order, together with the next primary key. Its `Create`,
  `HandleIncoming` and `HandleInterrupt` are proved to leave the table, and
  return the outcome, that `Reconcile` and `Interrupt` give on the old table.

Inputs and constants:

- The call's inputs are an `Incoming` event. Contact, URN and org come already
  resolved. The trigger lookup's result is a value `lookup`.
- `timezone.now()` becomes a `now` parameter.
- `get_anonymous_user()` becomes the constant `AnonymousUser`.
- The outcome records the dispatch path, not the messages it produces:
  - `StartAsync` / `StartSync`: `start_session_async` / `start_session_sync`;
  - `HandleAsync` / `HandleSync`: `handle_session_async` /
    `handle_session_sync` without `start`;
  - `NoSession`: the `(None, None)` return;
  - `MultipleMatches`: the `.get` raises MultipleObjectsReturned.

Some behaviours of the code are worth knowing, because a reader might expect
otherwise:

- The push lookup matches status INITIATED only, not every open status
  (`temba/ussd/models.py:28`).
- On a TRIGGERED hint, a resumed session's `direction` is overwritten with
  PULL, and that includes the push session. So a session's direction can
  change after creation (`temba/ussd/models.py:135`,
  `temba/ussd/models.py:168-169`).
- `close` has no guard. Closing a COMPLETED session makes it INTERRUPTED and
  moves `ended_on` (`Lifecycle.ReclosingInterrupts`). `mark_ending` has no
  guard either. It turns a done session back into an open ENDING one, and
  the end time stays (`Lifecycle.MarkEndingReopens`).
- The flow-start path creates its opening message with no content
  (`temba/ussd/models.py:81`, `temba/ussd/models.py:85`).
- Resuming a push session can leave two open sessions with the same external
  id. The push session takes the event's id (lines 166-169), while an open
  pull session may already carry that id. The next event with that id then
  makes the `.get` at lines 149-150 raise MultipleObjectsReturned, which line
  154 does not catch (`Reconciler.PushResumeDuplicatesOpenId`). Every other
  path keeps open external ids unique (`Reconciler.UnpushedKeepsOpenIdsUnique`).
  The source's own comment (lines 155-159) says that gateway session ids are
  sometimes unreliable.
- An event with an INTERRUPTED hint and no session to resume creates a row
  each time it is delivered. The row it creates is already done (lines 138
  and 163-164), and the `.get` at lines 149-150 excludes done sessions, so a
  redelivery finds nothing and creates another row
  (`Reconciler.InterruptedEventCreatesDoneRow`,
  `Reconciler.InterruptedRetryCreatesAgain`). With any other hint, a
  redelivery resumes the session the first delivery created
  (`Reconciler.RetryResumes`).

## Model

| member | source | states |
|---|---|---|
| Lifecycle.ShouldEnd | temba/ussd/models.py:46-48 | a session should end exactly when its status is ENDING, and such a session is not done |
| Lifecycle.MarkedEnding | temba/ussd/models.py:50-53 | afterwards the status is ENDING and `should_end` holds; no other column changes; an ENDING session is left as it was |
| Lifecycle.MarkEndingIdempotent | temba/ussd/models.py:50-53 | marking twice is marking once |
| Lifecycle.Closed | temba/ussd/models.py:55-62 | ENDING becomes COMPLETED, every other status becomes INTERRUPTED; the result is done, `ended_on` is `now`, nothing else changes |
| Lifecycle.GracefulClose | temba/ussd/models.py:50-62 | a session marked ending and then closed has COMPLETED |
| Lifecycle.MarkEndingReopens | temba/ussd/models.py:50-53 | with no guard, marking a done session makes it open again and keeps its end time |
| Lifecycle.ReclosingInterrupts | temba/ussd/models.py:55-62 | with no guard, closing a closed session makes it INTERRUPTED and moves its end time |
| Ussd.Session.MarkEnding | temba/ussd/models.py:50-53 | the object's row afterwards is `MarkedEnding` of its row before |
| Ussd.Session.Close | temba/ussd/models.py:55-62 | the object's row afterwards is `Closed` of its row before at `now` |
| Records.Assign | temba/ussd/models.py:151-152 | `setattr` writes the named column with the value and keeps every other column, the id and the audit users |
| Ussd.Session.SetAttr | temba/ussd/models.py:151-152 | the object's row afterwards is `Assign` of its row before |
| Records.Overlay | temba/ussd/models.py:168-169 | no contract; the dictionary copied onto a row, column by column; stated by `Records.OverlayColumn` and `Records.OverlayStep` |
| Records.OverlayColumn | temba/ussd/models.py:151-152 | each column of a patched row is the dictionary's value when the dictionary has that key, and the old value otherwise |
| Records.OverlayColumns | temba/ussd/models.py:168-169 | every column of a patched row at once, with its id, creator and last modifier kept |
| Records.OverlayStep | temba/ussd/models.py:168-169 | writing one more key after a set of keys is the same as copying both; so the result of the loop does not depend on the order of the keys |
| Ussd.Session.Update | temba/ussd/models.py:168-170 | the `setattr` loop, in any key order, leaves the row equal to the whole dictionary copied onto the old row |
| Records.NewRecord | temba/ussd/models.py:18-25 | a created row has the new primary key; its creator and last modifier are equal, and are the given channel's creator when a channel is given and the anonymous user otherwise |
| Records.NewRecordColumns | temba/ussd/models.py:24-25 | every column of a created row is the given value when the key is given, and the empty row's value otherwise |
| Ussd.SessionStore.Create | temba/ussd/models.py:18-25 | a fresh object is appended whose row is `NewRecord` with the next primary key; the old rows stay; the next key goes up by one |
| Queries.FirstWhere | temba/ussd/models.py:28 | `.first()`: the least index that matches, or none exactly when no row matches |
| Queries.GetWhere | temba/ussd/models.py:149-150 | `.get`: DoesNotExist exactly when no row matches, the index of the only match, or MultipleObjectsReturned when two rows match |
| Queries.InitiatedPushSession | temba/ussd/models.py:27-28 | the first row that is PUSH, INITIATED and the contact's, and none exactly when there is no such row |
| Queries.SessionByExternalId | temba/ussd/models.py:33-34 | the first row with the external id whose status is not done, and none exactly when there is no such row |
| Queries.OpenByExternalId | temba/ussd/models.py:149-150 | the one open row with the external id, DoesNotExist when there is none, MultipleObjectsReturned when there are two |
| Reconciler.Defaults | temba/ussd/models.py:128-141 | no contract; the `defaults` dictionary of each hint; stated by `Reconciler.DefaultsKeys` and `Reconciler.PatchCarriesEvent` |
| Reconciler.DefaultsKeys | temba/ussd/models.py:128-141 | the defaults write channel, contact, URN, org and status; started-on and direction too for TRIGGERED; ended-on too for INTERRUPTED; they never write the external id, and adding it adds exactly that key |
| Reconciler.PatchCarriesEvent | temba/ussd/models.py:128-141 | a row patched with the defaults carries the event's channel, contact, URN, org, external id and the hint's status and times; it keeps every column the hint does not write |
| Reconciler.Dispatch | temba/ussd/models.py:172-185 | a flow starts exactly for a session just created with a trigger, and with that trigger's flow; messages are returned exactly for a synchronous call |
| Reconciler.Reconcile | temba/ussd/models.py:106-185 | no contract; abort on a missing trigger, resume the push session, or go on by external id; stated by `Reconciler.MissingTriggerAborts`, `Reconciler.PushPrecedence`, `Reconciler.AtMostOneCreated`, `Reconciler.DoneSessionsUntouched` and `Reconciler.DispatchPaths` |
| Reconciler.Unpushed | temba/ussd/models.py:147-154 | no contract; resume the one open session with the external id, fail on several, or go on; stated by `Reconciler.ResumeByExternalId` and `Reconciler.AmbiguousExternalIdFails` |
| Reconciler.Unmatched | temba/ussd/models.py:154-165 | no contract; return nothing for a synchronous event without a trigger, or create a session; stated by `Reconciler.UnmatchedSyncWithoutTrigger` and `Reconciler.CreatesOne` |
| Reconciler.ResumeAt | temba/ussd/models.py:151-153 | no contract; patch one row and take the handle path, here and at lines 166-170; stated by `Reconciler.PushPrecedence` and `Reconciler.ResumeByExternalId` |
| Reconciler.CreateAt | temba/ussd/models.py:163-165 | no contract; append the created row and dispatch it; stated by `Reconciler.CreatesOne` |
| Reconciler.MissingTriggerAborts | temba/ussd/models.py:131-134 | a TRIGGERED hint with no trigger returns no session and changes no row |
| Reconciler.PushPrecedence | temba/ussd/models.py:144-170 | an initiated push session of the contact takes the event: it carries the defaults and the new external id, keeps its id, creator, last modifier and every column the defaults do not write (so without a TRIGGERED hint it stays PUSH with its start time), no other row changes, nothing is created, and the handle path runs |
| Reconciler.ResumeByExternalId | temba/ussd/models.py:147-153 | with no push session, the one open session with the external id carries the defaults and keeps its id, creator, last modifier and unwritten columns; no other row changes; the handle path runs |
| Reconciler.AmbiguousExternalIdFails | temba/ussd/models.py:149-154 | two open sessions with the external id make the call fail, with no row changed |
| Reconciler.UnmatchedSyncWithoutTrigger | temba/ussd/models.py:154-161 | a synchronous event with no trigger and no session to resume returns no session and changes nothing |
| Reconciler.CreatesOne | temba/ussd/models.py:154-165 | otherwise exactly one row is appended: the next primary key, the event's external id and defaults, empty on the columns the hint does not write, with the creator stamped; it dispatches as `Dispatch` of a created session |
| Reconciler.AtMostOneCreated | temba/ussd/models.py:143-170 | a call adds at most one row, at the end, with the next primary key and the event's external id, and writes at most one old row |
| Reconciler.DoneSessionsUntouched | temba/ussd/models.py:144-154 | a row whose status is done is the same after the call |
| Reconciler.CreatedOwnsExternalId | temba/ussd/models.py:149-165 | when a row is created, no old row is open with the external id |
| Reconciler.RetryResumes | temba/ussd/models.py:147-170 | when an event without an INTERRUPTED hint created a session, the same event delivered again creates nothing and takes the handle path on that session |
| Reconciler.InterruptedEventCreatesDoneRow | temba/ussd/models.py:137-165 | an asynchronous INTERRUPTED event with no push session and no open match creates one done row, after which there is still no push session and no open match, so every redelivery creates again |
| Reconciler.InterruptedRetryCreatesAgain | temba/ussd/models.py:137-165 | on the empty table, two deliveries of one INTERRUPTED event give two rows with its external id and distinct keys |
| Reconciler.DispatchPaths | temba/ussd/models.py:172-185 | the flow starts exactly when a row was created and a trigger found; messages are returned exactly on a synchronous call with a session; a call without a session changes nothing; the returned session is a row of the table |
| Reconciler.ReconcileKeepsIds | temba/ussd/models.py:144-170 | no old row loses its primary key, and no row is removed |
| Reconciler.ReconcileKeepsIdsOrdered | temba/ussd/models.py:163-165 | the table stays in primary-key order, and a created row uses up the next key |
| Reconciler.UnpushedKeepsOpenIdsUnique | temba/ussd/models.py:147-165 | on every path except the push resume, if no two open sessions shared an external id before the call, none do after it |
| Reconciler.PushResumeDuplicatesOpenId | temba/ussd/models.py:144-170 | a table with an open pull session "x" and an initiated push session of the same contact: an event for "x" leaves two open sessions with "x", and the same event again fails at the `.get` |
| Reconciler.ReconcileKeepsEndedIffDone | temba/ussd/models.py:128-170 | if every session had an end time exactly when it was done, this still holds after the call |
| Ussd.SessionStore.ValidRowsOrdered | temba/ussd/models.py:164 | the objects of a valid store hold a table in primary-key order below the next key |
| Ussd.SessionStore.Resume | temba/ussd/models.py:151-153 | the `i`th session is patched, the table and outcome are `ResumeAt`, and the session returned is that object |
| Ussd.SessionStore.CreateAndDispatch | temba/ussd/models.py:163-165 | a session is created from the dictionary; the table and outcome are `CreateAt` with the next key |
| Ussd.SessionStore.HandleUnmatched | temba/ussd/models.py:154-165 | the table and outcome are `Unmatched` on the old table; a session is returned exactly when the outcome names one |
| Ussd.SessionStore.HandleUnpushed | temba/ussd/models.py:147-165 | the table and outcome are `Unpushed` on the old table; a session is returned exactly when the outcome names one |
| Ussd.SessionStore.HandleIncoming | temba/ussd/models.py:106-185 | the new table and the outcome are `Reconcile` of the old table; the store stays valid; the session returned is the row the outcome names |
| Reconciler.Interrupt | temba/ussd/models.py:187-200 | no contract; close the first open session with the id, or return nothing; a synchronous outcome records the handle path only, since `handle_interrupt` drops the messages (lines 198, 200); stated by `Reconciler.InterruptWithoutMatch`, `Reconciler.InterruptClosesMatch` and `Reconciler.InterruptSkipsDone` |
| Reconciler.CloseAt | temba/ussd/models.py:194-198 | no contract; close one row and take the handle path; stated by `Reconciler.InterruptClosesMatch` |
| Reconciler.InterruptWithoutMatch | temba/ussd/models.py:189-192 | with no open session with the external id, no session is returned and nothing changes |
| Reconciler.InterruptClosesMatch | temba/ussd/models.py:189-200 | otherwise the first open session with the id is closed by the `close` rule, no other row changes, and the handle path runs |
| Reconciler.InterruptSkipsDone | temba/ussd/models.py:189-194 | a done row is never touched by an interrupt |
| Reconciler.InterruptKeepsEndedIffDone | temba/ussd/models.py:187-200 | if every session had an end time exactly when it was done, this still holds after an interrupt |
| Ussd.SessionStore.CloseRow | temba/ussd/models.py:194 | the `i`th row afterwards is `Closed` of the old one, and no other row changes |
| Ussd.SessionStore.HandleInterrupt | temba/ussd/models.py:187-200 | the table and outcome are `Interrupt` of the old table; the session returned, if any, is the closed one |

## Left out

- Contact and URN resolution, preferred channel and URN affinity (`temba/ussd/models.py:113-125`) are calls into the contacts module. The resolved contact, its org and its URN are inputs of the event.
- `Trigger.find_trigger_for_ussd_session` (line 132) is outside this file. Its result is the event's `lookup`, and a trigger is its flow.
- The messages and flows the dispatch paths create (lines 64-104) are left out: `Msg.create_incoming`, `Msg.objects.create`, `flow.start`, `Flow.find_and_handle` and `Msg.mark_handled`. The outcome records only which path runs and for which session.
- `select_for_update` locking (line 149) and concurrent delivery are left out. Each call is one sequential step on the table.
- `save(update_fields=...)` is not modelled separately: an object's fields are the saved row.
- The `session_type=USSD` filter of `get` (lines 14-16) is left out. The table holds USSD sessions only.
- `get_session_with_status_only` (lines 30-31) is a projection-only query and is left out.
- The proxy-model `Meta` is left out.
- The `callable(v)` branch of the `setattr` loop (line 152) is left out. None of the defaults is callable, so every value is written as given.
- The status constants and the DONE group come from the session base class of the channels module, which is not part of this model. The model assumes DONE is exactly {COMPLETED, INTERRUPTED} among the statuses declared.
- Django's `.first()` on an unordered queryset orders by primary key. The model keeps the table in primary-key order and takes the first match in table order.
- The columns `create` is not given get placeholders: an empty external id, contact 0, org 0 and status INITIATED. `handle_incoming` always gives all of them.
- Ussd.SessionStore.HandleInterrupt: does not model the failure of `session.contact_urn.urn` (lines 196, 198) for a session without a URN, because the URN is only passed on to the message code, which is left out.
- The `defaults` dictionary is built once per call as a value, rather than grown in place by `update` (lines 128-141, 163, 167). The keys and values it ends with are the same.
