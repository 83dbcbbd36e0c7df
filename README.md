# Bulk mailer: a Dafny model of the campaign actions

The bulk mailer keeps campaigns ("events") and their recipients in a relational
store. It offers server actions that:

- create a campaign in DRAFT;
- list the campaigns, newest first, each with its recipient count;
- show one campaign with its hundred newest recipients and the full count;
- ingest an uploaded CSV file of recipients;
- send one batch of up to fifty PENDING recipients: each message is rendered
  from the campaign's template, handed to the SMTP relay, and recorded as SENT
  or FAILED on the recipient's row.

This project models those actions and proves what they promise.

Files and modules:

- `schema.dfy` (`Schema`): the two tables' columns, their status enums, and the
  first-match lookup in a parsed CSV row.
- `query.dfy` (`Query`): the query operations the actions use: filter, sort by
  a key in descending order, take the first `n`.
- `database.dfy` (`Database`): the store as a class with the two tables and the
  id counter. The table invariants are unique ids, ids below the counter, and
  every recipient on an existing campaign. The class has the single-row and
  bulk writes the actions issue, and each one keeps the invariants.
- `template.dfy` (`Template`): the renderer, a chain of literal global
  replacements: `{{name}}`, then `{{email}}`, then one per metadata entry.
  Beside it is a reference meaning of a template as text and placeholders,
  with the proof that the two agree when no brace is in play. Two lemmas show
  where they differ.
- `mailer.dfy` (`Mailer`):
  - the bulk sender as an imperative method over the store and a relay object;
  - a closed-form specification of one call (`Dispatch`) and of the batch loop
    (`Run`);
  - lemmas that connect the two and state what a call does to the tables, the
    outbox and the counters.
- `recipients.dfy` (`Recipients`): the CSV upload, which validates the rows,
  maps them to recipients and inserts them all at once.
- `events.dfy` (`Events`): campaign creation, the campaign list and the
  campaign page.

The faults the source catches from the store and the relay are explicit inputs:

- whether a store call throws;
- for the sender, which campaign-level write throws (`Setup`);
- for each message of the batch, what rendering, the relay and the row write
  did (`attempt(j)`); a metadata key that makes the pattern constructor throw
  fails that recipient before the relay is called, which `Refused(m)` stands
  for with the exception's message.

Ids come from the store's counter and times are natural numbers. One `now`
stands for all clocks read during a call.

Where the intended behaviour and the code differ, the model follows the code:

- **Substitution is not literal-safe.** The substitution passes run one after
  another on the previous pass's output. A name that itself spells
  `{{email}}` is therefore replaced again (`NameIsRescanned`).
- **A bound placeholder can survive.** Removing one placeholder can join the
  text around it into a new one (`PlaceholderReforms`). So "no bound
  placeholder remains when values hold no `{{`" does not hold in general.
  `RenderFills` proves the form that does hold: for templates and values
  without braces, rendering is exactly the one-pass reference fill.

## Model

| member | source | states |
|---|---|---|
| Schema.Lookup | app/actions/recipients.ts:20 | the value read for a column is that of the first entry with the key; None exactly when no entry has the key |
| Query.Filter | app/actions/recipients.ts:20 | an element is kept iff it satisfies the predicate; the result is a sub-multiset of the input and no longer than it |
| Query.FilterAppend | app/actions/recipients.ts:20 | filtering two sequences back to back is filtering each and concatenating |
| Query.SortDesc | app/actions/events.ts:34 | the result is sorted by the key, largest first, and is a permutation of the input |
| Query.Take | app/actions/events.ts:55 | the first min(n, length) elements, in order |
| Query.TakeKeepsLargest | app/actions/events.ts:54-55 | in a sorted sequence, no element outside the first n has a larger key than one inside |
| Database.FindEvent | app/actions/mailer.ts:21-25 | the unique-key lookup finds an event iff one has the id, and what it finds has the id and is in the table |
| Database.Store.CreateEvent | app/actions/events.ts:17-22 | appends one event with the supplied columns, an empty description, a fresh id and both timestamps set to now; the invariants hold |
| Database.Store.CreateRecipients | app/actions/recipients.ts:34-37 | all-or-nothing insert: succeeds iff every row names an existing campaign, and then appends one PENDING row per input in order with consecutive fresh ids |
| Database.Store.SetEventStatus | app/actions/mailer.ts:28-31 | the campaign's status and updatedAt change; nothing else does |
| Database.Store.MarkSent | app/actions/mailer.ts:73-79 | the row with the id becomes SENT with sentAt = now; nothing else changes |
| Database.Store.MarkFailed | app/actions/mailer.ts:83-89 | the row with the id becomes FAILED with the error text; nothing else changes |
| Template.ReplaceAll | app/actions/mailer.ts:56-57 | a global replace of a literal pattern, scanning left to right and not rescanning the replacement; its properties are stated by `ReplaceAbsent`, `ReplaceBySelf`, `SkipUnmatched` and `ReplaceOnPieces` |
| Template.NameText | app/actions/mailer.ts:56 | the value put in for `{{name}}`: the name, or the empty string when it is null (an empty name is its own value); used by `Render` and `Resolve` |
| Template.ApplyEntries | app/actions/mailer.ts:60-63 | the metadata fold, one global replace per entry in entry order on the previous output; stated by `EntriesOnPieces` and `HoleAfterEntries` |
| Template.Render | app/actions/mailer.ts:55-63 | the body sent to a recipient: the name pass, the email pass, then the metadata fold when there is metadata; stated by `RenderFills`, `RenderWithoutPlaceholders`, `NameIsRescanned` and `PlaceholderReforms` |
| Template.SkipUnmatched | app/actions/mailer.ts:56-57 | characters at which no match starts are copied over and the scan resumes after them |
| Template.ReplaceAbsent | app/actions/mailer.ts:55-57 | a text in which the pattern does not occur is returned unchanged |
| Template.ReplaceBySelf | app/actions/mailer.ts:55-57 | replacing a placeholder by its own spelling changes nothing |
| Template.ReplaceOnPieces | app/actions/mailer.ts:56-57 | one global replace over a brace-free template replaces exactly the placeholders with that key |
| Template.EntriesOnPieces | app/actions/mailer.ts:60-63 | the metadata fold over a brace-free template is the per-entry substitution of placeholders, in entry order |
| Template.HoleAfterEntries | app/actions/mailer.ts:60-63 | a placeholder meets the first metadata entry with its key, and is left verbatim when there is none |
| Template.RenderFills | app/actions/mailer.ts:55-63 | for brace-free text, keys and values, rendering equals the one-pass reference fill: every bound placeholder replaced by its value, every unbound one kept verbatim |
| Template.RenderWithoutPlaceholders | app/actions/mailer.ts:55-63 | a template containing no `{{` is sent unchanged |
| Template.GreetingExample | app/actions/mailer.ts:55-63 | `Hi {{name}}, id={{id}}` renders to `Hi Ann, id=42` for Ann with metadata id = 42 |
| Template.NameIsRescanned | app/actions/mailer.ts:56-57 | a name spelling `{{email}}` is replaced again by the email pass |
| Template.PlaceholderReforms | app/actions/mailer.ts:56-57 | `{{{{name}}name}}` renders to `{{name}}` for an empty name: a placeholder survives although its key is bound |
| Mailer.ErrorText | app/actions/mailer.ts:87 | the recorded error is never empty: the exception's message, or "Unknown error" when it has none |
| Mailer.Sender | app/actions/mailer.ts:67 | the `from` header, the sender's name in double quotes followed by the address in angle brackets |
| Mailer.EnvelopeFor | app/actions/mailer.ts:66-71 | the message for one recipient: sender, the recipient's address, the campaign's subject and the rendered body; the outbox facts of `RunOutbox` and `DispatchSettlesBatch` are stated in terms of it |
| Mailer.Batch | app/actions/mailer.ts:34-37 | the rows fetched for the loop; stated by `BatchBounds` |
| Mailer.Step | app/actions/mailer.ts:52-91 | one turn: delivered marks SENT and counts sent; refused marks FAILED and counts failed; accepted with a throwing SENT write marks FAILED; a throwing FAILED write aborts the call; stated by `RunCounts`, `RunOutbox` and `RunRows` |
| Mailer.Run | app/actions/mailer.ts:52-92 | the first k turns, stopping at an abort; `SendBatch` is proved equal to it, and `RunStaysAborted`, `RunCounts`, `RunOutbox` and `RunRows` state its closed form |
| Mailer.Relay.Submit | app/actions/mailer.ts:66-71 | the relay's outbox gains exactly the envelope handed over |
| Mailer.Dispatch | app/actions/mailer.ts:19-101 | a failing lookup or a missing campaign changes nothing and gives the matching error, "Event not found" exactly for the missing campaign; a failing SENDING write changes nothing; once that write succeeds the campaign stays SENDING unless nothing is pending and the COMPLETED write succeeds, so also after a failing fetch, a failing COMPLETED write and an aborted batch; a failing fetch or COMPLETED write writes no row and sends nothing; nothing pending makes it COMPLETED with the message and no row written; other campaigns never change |
| Mailer.SendBulkEmails | app/actions/mailer.ts:19-101 | the imperative sender leaves the store, the outbox and its result exactly as `Dispatch` specifies, keeps the store invariants and issues no id |
| Mailer.SendBatch | app/actions/mailer.ts:48-92 | the loop over the batch leaves the tables, the outbox, both counters and the abort flag exactly as `Run` specifies |
| Mailer.RunStaysAborted | app/actions/mailer.ts:83-91 | a FAILED write that throws ends the loop: no later turn changes anything |
| Mailer.RunCounts | app/actions/mailer.ts:48-92 | after k turns, all k completed unless the loop aborted on the next attempt; sent counts the deliveries |
| Mailer.RunOutbox | app/actions/mailer.ts:66-71 | the outbox grows by the envelopes the relay accepted, in batch order, including an accepted message whose row write then threw |
| Mailer.RunRows | app/actions/mailer.ts:73-90 | after the completed turns every table row is its original, settled by its turn's attempt when it was in the batch |
| Mailer.BatchBounds | app/actions/mailer.ts:34-37 | the batch holds min(50, pending) PENDING rows of the campaign, all from the table, and every such row when they fit |
| Mailer.DispatchSucceeds | app/actions/mailer.ts:48-99 | a call that reaches the loop returns the counts exactly when no FAILED write of the batch throws, since every other per-recipient failure is caught and counted; otherwise it returns "Failed to execute bulk send" |
| Mailer.NoLoopOutcome | app/actions/mailer.ts:21-46 | a call that stops before the loop writes no recipient and sends nothing |
| Mailer.DispatchSettlesBatch | app/actions/mailer.ts:48-95 | on success sent + failed is the batch size and sent the deliveries; each batch row ends SENT with the send time or FAILED with the error text, other columns unchanged; rows outside the batch are untouched; the outbox grew by the accepted envelopes |
| Mailer.DispatchTouchesOnlyBatch | app/actions/mailer.ts:34-92 | whatever the outcome, rows outside the batch never change and a changed row went from PENDING of this campaign to SENT or FAILED with its id and campaign |
| Mailer.DispatchDrains | app/actions/mailer.ts:34-92 | when all PENDING rows fit in one batch, a completed call leaves none PENDING |
| Mailer.DispatchCompletesWhenNonePending | app/actions/mailer.ts:39-46 | with nothing pending the campaign becomes COMPLETED, "No pending recipients" is returned, and no row or message is written |
| Mailer.SecondDispatchCompletes | app/actions/mailer.ts:34-46 | after a completed call that drained the campaign, the next call finds nothing pending and marks it COMPLETED |
| Recipients.Accepts | app/actions/recipients.ts:20 | the row filter, on the first `email` entry; stated by `AcceptsIff` |
| Recipients.ValidRows | app/actions/recipients.ts:20 | the accepted rows in upload order; stated by `Query.Filter`'s contract and `ValidRowsAppend` |
| Recipients.AcceptsIff | app/actions/recipients.ts:20 | a row is accepted iff its first `email` entry is non-empty and contains `@` |
| Recipients.ValidRowsAppend | app/actions/recipients.ts:20 | acceptance is row by row: the accepted rows of two uploads are those of each, in order |
| Recipients.NameOf | app/actions/recipients.ts:29 | the stored name is the row's name when present and non-empty, otherwise null |
| Recipients.Prepare | app/actions/recipients.ts:15-31 | parse failure, no rows and no accepted row each give their error (the last iff no row is accepted); it succeeds exactly when the upload parsed and some row is accepted; on success exactly one input per accepted row, in upload order, with the whole row as metadata, the campaign, the row's email and its name or null |
| Recipients.InsertedRecipients | app/actions/recipients.ts:26-37 | the inserted rows are the accepted rows in upload order, PENDING, with consecutive fresh ids |
| Recipients.UploadRecipients | app/actions/recipients.ts:7-45 | validation errors and store failures (including an unknown campaign) leave the store unchanged with the matching error; success appends exactly the prepared rows and returns their count |
| Events.CreateEvent | app/actions/events.ts:15-29 | success appends one DRAFT campaign with the form's fields and returns it; a store failure adds nothing and returns "Failed to create event" |
| Events.GetEvents | app/actions/events.ts:31-46 | succeeds exactly when the store does not throw, and then lists all campaigns, newest first, each with the number of its recipients; a store failure iff "Failed to fetch events" |
| Events.GetEvent | app/actions/events.ts:48-67 | an unknown id is a success without a campaign; otherwise the campaign, its full recipient count, and min(count, 100) of its recipients newest first |
| Events.GetEventShowsNewest | app/actions/events.ts:53-56 | a recipient of the campaign left off the page was created no later than any recipient shown |
| Events.GetEventShowsAllWhenFew | app/actions/events.ts:53-56 | with at most 100 recipients every one of them is shown |

## Left out

- SMTP transport configuration and the network: the relay is an object that records accepted envelopes, and `attempt(j)` says what happened to the j-th message.
- CSV parsing: the input is the parsed rows (column-to-value entries in column order) or a parse failure; trimming and empty-line skipping are the parser's.
- `revalidatePath` and `console.error`: they do not change the modelled state. A throwing `revalidatePath` (app/actions/mailer.ts:94, app/actions/recipients.ts:39, app/actions/events.ts:23) would turn an action whose writes are already committed into its failure result; that path is not an input of the model.
- Wall-clock time: one `now` per call stands for every `new Date()` and every timestamp the store sets; all rows sent in one call get the same sentAt.
- Regular-expression semantics: replacement is literal. The source builds each metadata pattern as an unescaped regular expression, so it matches different text when the key holds regular-expression metacharacters, and also when the key is a number or a number range such as `1` or `2,3`: `{{1}}` then reads as a brace quantified once followed by a brace, matching `{}`. `$` patterns in a replacement value are also special in the source. A key such as `(`, `)` or `[` makes the pattern constructor throw inside the per-recipient handler (app/actions/mailer.ts:62, 81-90), so every recipient with that column is marked FAILED with the exception's message and nothing is sent to it; the model represents this as `Refused(m)` chosen by `attempt`, not as something derived from the key.
- Metadata values are strings; the source's `String(value)` of other JSON values is not modelled.
- Order of metadata entries: the model uses the row's column order. In the source the order is the store's: the JSON column of the PostgreSQL store gives the object back with its keys re-sorted, and `Object.entries` lists integer-like keys first. Duplicate column names are not modelled.
- Concurrency: calls are sequential, so two concurrent sends claiming the same PENDING rows are not modelled.
- Ids are natural numbers from a counter; cuid generation is not modelled.
- Ties in `orderBy createdAt desc`: any order among equal timestamps is allowed, and the model picks one.
- `skipDuplicates`: no unique key other than the id exists, so the insert is a plain insert of every row.
- updatedAt: refreshing it on every status change is assumed. The schema file that declares it is not part of this model.
- Mailer.Batch: `findMany` has no `orderBy`, so which PENDING rows beyond the fiftieth are taken, and their order, are the store's choice. The model takes them in table order, and the "in batch order" outbox facts hold for that choice.
- Database.Store.SetEventStatus, Database.Store.MarkSent, Database.Store.MarkFailed: the store's `update` throws when no row has the id, while the model changes nothing then. Every call site passes an id the call has just found, so no modelled behaviour depends on it.
- Template.RenderFills: the guarantee is stated for brace-free templates and values only; `PlaceholderReforms` and `NameIsRescanned` show why it fails beyond them.
- The two read actions are functions of the tables, so that they leave the store unchanged holds by construction rather than by a lemma.
