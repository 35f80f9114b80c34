# Verified model of the WhatsApp sales assistant's `ai` core

A Dafny model of the parts of the assistant whose rules span several functions, many turns or many
interleaved jobs. `dafny verify dfyconfig.toml` checks the whole project.

Wherever the program changes things step by step, the project has the steps as methods (on a class where
an object or a table is changed in place) and a function that says what the steps come to; the method is
proved equal to the function, and the properties are proved about the function and about whole runs.

| file | what it models |
|---|---|
| `writes.dfy` | how a write to the database or to Redis ends |
| `text.dfy`, `stitch.dfy` | stitching a burst of chat bubbles into one text, and cutting that text off the stored history again |
| `burst_window.dfy`, `coalesce_keys.dfy` | the Redis keys of a burst: the capped id list, the watermark, the burst start, the quiet window |
| `coalesce_protocol.dfy`, `coalesce_jobs.dfy`, `coalesce_liveness.dfy`, `coalesce_limits.dfy` | the coalescing protocol of one conversation as a transition system over any number of interleaved jobs: its lock, what each job and each message can count on, what it owes the buyer once it is at rest, and the runs in which it stops being safe |
| `number_grounding.dfy` | whether a number the language model extracted is in the buyer's own words |
| `checkout.dfy`, `checkout_lines.dfy`, `checkout_grounding.dfy`, `checkout_steps.dfy` | the checkout state: reading and writing a cart, filling in the fields from the buyer's own words, the confirm step |
| `order_store.dfy`, `order_saved.dfy`, `order_table.dfy` | the order table: loaders, cancellation, the three draft writers, rebuilding a checkout from a draft |
| `turn_plan.dfy` | planning a turn: two model calls at most, validation, fallback, the field the reply leads back to |
| `llm_first.dfy`, `llm_first_steps.dfy` | one LLM-first turn: what code does with the model's decision, including every failed call |
| `llm_first_shell.dfy` | the shell around a turn: quota, loads, language, plan, fallback, held confirmation |
| `llm_first_question.dfy`, `llm_first_consent.dfy` | which "cancel all?" question waits after a turn, which cancellations and saves a turn can make, and what the buyer agreed to by then |
| `llm_first_rows.dfy`, `llm_first_runs.dfy`, `llm_first_retry.dfy` | which rows a turn touches, what whole runs keep, what a repeated turn does, and that replies are true |
| `llm_first_served.dfy`, `llm_first_meant.dfy`, `llm_first_ends.dfy` | what a turn does for the buyer: the cart and the approved order it saves, the order that is meant, the checkout it leaves and whom it tells |
| `llm_first_limits.dfy` | three concrete turns that end other than a buyer would expect: a declined question answered after all, an approved order refused, an order saved with its old address |
| `delivery.dfy` | sending one reply under retries |
| `summary.dfy` | the rolling conversation summary under overlapping runs |
| `payment_proof.dfy`, `payment_proof_decides.dfy`, `payment_proof_limits.dfy` | transfer proofs: target order, duplicates, verification, blocking, whole runs of jobs and of what staff do by hand, and what only staff can do |
| `composer.dfy` | the dispatch of a Composer fix job |

Conventions. Ids are numbers: a message id or order id 0 is the empty string, an order's id is its place
in the table in creation order. Times are integers. A write ends in one of three ways: done, refused, or
done although the caller got an error. Answers of Redis, the database, the channel, the stock guard and
the language model are inputs, as are the keyword lists of `internal/buyerflow` and
`internal/salesbrain`.

Where the code differs from what one would expect of it, the code is followed and the difference proved:

- Re-arming a dropped job records its message again, and recording moves `last` back. With an older
  message recorded after a newer one, drop and re-arm rounds need not end (`DropsWithoutEnd`), and with an
  overflowing list the watermark can pass a message that no call ever had (`WatermarkCanPassAMessage`;
  `FlushCoversIff` says exactly when a flush takes everything up to its end).
- A declined "cancel all?" question is dropped "fail-closed" by its comments, but a failed read or delete in
  Redis is only logged. The question then survives (`DeclinedQuestionSurvivesIff`, exactly then), and a later
  OK meant for the checkout cancels every order stored with it (`DeclinedQuestionIsAnswered`);
  `ConsentWhenRedisAnswers` says what holds when the calls are answered.
- A failed update of a draft's shipping address is only logged: the order is reported as saved with its old
  address (`SavedAddress` says exactly when, `OldAddressIsSaved` is such a turn).
- A failed update of the conversation row after a send is never made up for: the attempt that stores the
  external id alone decides what the conversation shows (`ShownIff`), and one failing first attempt is enough
  (`PreviewStaysOld`).
- The confirmation summary leaves out stored lines without a quantity, but the save asks them of every stored
  line, so an approved order can be refused, again at every further OK (`ApprovedOrderIsRefused` is such a
  checkout, `ApprovedOrderIsSaved` says exactly when).
- A summary that finds more than 100 new messages counts 100 of them (`LoadIsExactIff`;
  `FirstSummaryMiscounts` is a run of that kind for any longer chat).
- Saving the items of a draft from the chat sets its total to their sum: a shipping cost staff had added is gone
  (`SaveDropsShippingCost`).
- Five rejections block an order for the jobs only: staff can reject it without end (`StaffRejectWithoutEnd`).
  Staff can also verify an order whose file has paid for another one (`StaffCanVerifyATwin`), and edit the
  items and the total of a verified order, which `VerifiedWasPaid` therefore states up to an edit.
- Giving up on a stale Composer job is not an attempt, so the limit of two attempts does not bound the
  dispatches (`ReclaimsAreNotAttempts`); a request that reads the clock twice can dispatch a job that is
  still in flight (`TwoReadingsBreakTheBound`, `RetryDispatchesInFlightIff`).
- The resume line of a reply and the step the code stores disagree for a stray step
  (`ReplyAsksForTheStoredField` says exactly when).

What is relied on and not proved: the deterministic address parser changes a postal code only to digits, and
name and phone checks never accept an empty value (`Checkout.Reliable`); the empty string is no province; the channel's
client reports success only with a message id (`Delivery.Honest`); a file hash is never empty; a cart line is trimmed and flagged as
lacking a variant exactly when its product needs one (`Checkout.IsCartLine`); rows created later have later
creation times.

## Model

| member | source | states |
|---|---|---|
| `Stitch.StitchInboundBodies` | ai/inbound_coalesce.go:36-51 | the stitched text is the trimmed non-blank bodies, one per line, in order |
| `Stitch.StitchedTextHasEveryBody` | ai/inbound_coalesce.go:36-51 | no buyer text is lost: every non-blank body is part of the text |
| `Stitch.DropTrailingCurrentInbound` | ai/anthropic_messages.go:118-143 | the backward scan, which stops at the first text as long as the wanted one, still cuts exactly the unique matching suffix, if there is one |
| `Stitch.StitchThenDrop` | ai/anthropic_messages.go:118-143 | cutting the stitched text of a burst of non-blank contact messages off the history gives back exactly the history before it, whatever that history is |
| `Stitch.DroppedIsTheBuyersText` | ai/anthropic_messages.go:118-143 | whatever is cut off is contact messages whose trimmed bodies join to the text |
| `BurstWindow.AppendBurstIDs` | ai/inbound_coalesce.go:54-79 | the result is the first occurrences of the ids in order, capped, with the new id at the end if it is new and there is room |
| `BurstWindow.LoadIDs` | ai/inbound_coalesce.go:329-333 | folding the raw list through the append gives its first occurrences, capped at 20 |
| `BurstWindow.IdsAfterWatermark` | ai/inbound_coalesce.go:81-91 | the ids after the watermark, or all of them when it is empty or no longer in the list |
| `BurstWindow.WindowRefinement` | ai/inbound_coalesce.go:54-91 | for a log of distinct ids, the capped, de-duplicated list followed by the watermark cut equals the last 20 entries of the unbounded log after the watermark, also when the watermark has been trimmed out |
| `BurstWindow.LoadedIsATail` | ai/inbound_coalesce.go:300-302 | with repeated records, as long as the list has not overflowed or only the newest message is recorded again, the loaded list is a tail of the first-recorded order |
| `CoalesceKeys.ConversationKeys.constructor` | ai/inbound_coalesce.go:279-309 | a conversation without keys |
| `CoalesceKeys.ConversationKeys.Record` | ai/inbound_coalesce.go:279-309 | the pipeline of one record changes list, last, lastAt, burst start and gap as specified, and never the watermark |
| `CoalesceKeys.ConversationKeys.MarkWatermark` | ai/inbound_coalesce.go:410-415 | sets the watermark, and nothing for an empty id |
| `CoalesceKeys.ConversationKeys.PendingIds` | ai/inbound_coalesce.go:311-348 | a flush works from the loaded ids after the watermark |
| `CoalesceKeys.BurstKeyIsBurstStart` | ai/inbound_coalesce.go:285-307 | the incrementally kept burst key is the first message of the newest chain whose gaps are at most 3 s |
| `CoalesceKeys.GapIsOfTheLastTwo` | ai/inbound_coalesce.go:285-300 | the gap key is the time between the last two records in milliseconds, zero when they came out of order |
| `CoalesceKeys.WaitCoalesceQuiet` | ai/inbound_coalesce.go:358-394 | every sleep ends exactly at min(last + quiet, burst start + 8 s), or earlier for the job deadline, and the loop ends for the reason it reports, also when the keys cannot be read or the job is cancelled in its sleep |
| `CoalesceKeys.BurstIsNeverHeldLonger` | ai/inbound_coalesce.go:93-114 | however often new messages push the quiet window on, no sleep ends later than 8 s after the burst's first message |
| `CoalesceProtocol.StepKeepsInv` | ai/inbound_coalesce.go:186-268 | every step of every job keeps that whatever lies up to the watermark, and up to the end of every flush in flight, is answered, lost to the cap, or in that flush |
| `CoalesceProtocol.Coverage` | ai/inbound_jobs.go:80-138 | in every interleaving of any number of jobs, re-armed and redelivered ones included, every message at or before the watermark was in the text of a call that returned without error, or was pushed off the list before any call had it; below the cap nothing is pushed off |
| `CoalesceProtocol.StepKeepsProgress` | ai/inbound_jobs.go:109-125 | while only the newest message is recorded again, every step keeps that each re-arm moves to a strictly newer message |
| `CoalesceProtocol.DropAndRearmProgress` | ai/inbound_coalesce.go:425-438 | then a flush ends at `last`, a reply is dropped only because a message was recorded for the first time since its flush, and a re-arm chain is shorter than the number of buyer messages |
| `CoalesceJobs.LockIsHeldByOne` | ai/inbound_coalesce.go:233-242 | over every run, the flush lock is taken if and only if exactly one job is flushing: no two jobs flush at once, and every way out of a flush gives the lock back |
| `CoalesceJobs.WaitingJobGoesOn` | ai/inbound_coalesce.go:219-240 | over every run, a waiting job is superseded exactly when a message stored later was the last one recorded; otherwise it takes the lock exactly when no job is flushing, and is busy exactly when one is |
| `CoalesceJobs.FlushIff` | ai/inbound_coalesce.go:244-267 | over every run, a flush skips exactly when it is superseded or nothing pending says anything, and otherwise takes all that is pending |
| `CoalesceJobs.NewestCanBeAnswered` | ai/inbound_coalesce.go:186-268 | the protocol never gets stuck: from every state of every newest-only run, a job waiting for the newest message can get through, after which no message is left unanswered |
| `CoalesceJobs.AloneIsAnswered` | ai/inbound_coalesce.go:210-225 | a job that Redis or the database leaves with its own message is not done before a call with it returned without error, unless it fails |
| `CoalesceJobs.DropIff` | ai/inbound_coalesce.go:425-438 | in newest-only runs a reply is dropped if and only if a message was recorded for the first time since its flush, and every dropped reply is re-armed with the newest message |
| `CoalesceJobs.AnsweredIsNotPending` | ai/inbound_coalesce.go:410-415 | once a job has set the watermark, whatever is still pending stands behind the last message it answered |
| `CoalesceLiveness.FlushEndsAtLastIff` | ai/inbound_coalesce.go:246-268 | over every run, with no condition on what is recorded, a flush ends at `last` exactly when no id in the list was recorded for the first time after the first record of `last` |
| `CoalesceLiveness.NoMessageIsStranded` | ai/inbound_jobs.go:66-173 | in every interleaving in which each job that fails is delivered again, none runs for its own message alone and only the newest message is recorded again, once all jobs are done every recorded message that says something reached a call that returned without error, or was pushed off the list |
| `CoalesceLiveness.FlushCoversIff` | ai/inbound_coalesce.go:81-91 | over every run, with no condition on what is recorded, a flush covers every message up to its end if and only if each unanswered message of the list that the watermark cuts off stands behind that end in first-recorded order |
| `CoalesceLimits.DropsWithoutEnd` | ai/inbound_jobs.go:109-125 | without that condition two messages are enough for any number of drop and re-arm rounds without a reply, the cap of 20 respected |
| `CoalesceLimits.WatermarkCanPassAMessage` | ai/inbound_coalesce.go:296-307 | with an overflowing list and an older message recorded late, the watermark passes a message still in the list that no call had |
| `NumberGrounding.HasNumber` | ai/llm_first_orders.go:446-469 | the pruned search finds a number exactly when some contiguous range of digit groups reads as one of its variants |
| `NumberGrounding.TooLongFromHere` | ai/llm_first_orders.go:457-460 | once a range is longer than every variant, no longer range from the same group matches |
| `Checkout.CartFromState` | ai/llm_first_orders.go:32-56 | the loop reads exactly the lines that have a quantity and a product, in order, or the one line of an older single-item state |
| `Checkout.CartRoundTrip` | ai/llm_first_orders.go:78-154 | writing a cart into a state and reading it back gives the same lines in the same order (a product's only stored variant may come back where the cart names none), and nothing but items, mirror and step changes |
| `CheckoutLines.ReadThenWrite` | ai/llm_first_orders.go:78-154 | writing back the cart that was read from a checkout keeps every stored line whole and in order (product, code, name, size, colour, quantity, price, unit, warehouse), but for the code and unit the catalog now gives |
| `CheckoutLines.LineIsReadWhole` | ai/llm_first_orders.go:32-76 | a cart line shows product, quantity, trimmed name, size (the one its name carries if it has none) and colour, the nearest whole price, and whether it lacks its variant |
| `CheckoutLines.SingleLineIsRead` | ai/llm_first_orders.go:48-56 | an older state without lines reads as one line, its name and variant taken from the state where the line has none |
| `CheckoutLines.OnlyVariantComesBack` | ai/llm_first_orders.go:117-135 | a product's only stored variant comes back, with its warehouse, where the cart names none |
| `CheckoutLines.OtherVariantIsOfTheProduct` | ai/llm_first_orders.go:117-135 | another variant of a known product has its code and unit, but no warehouse |
| `CheckoutLines.CartLeadsOn` | ai/llm_first_orders.go:144-152 | where a cart leads: an open variant first, the recipient from a step before it, what is missing after a variant question, and else where the checkout was |
| `Checkout.FieldAnswerErasesNothing` | ai/llm_first_orders.go:281-372 | a field answer never blanks a stored field, and a stored five-digit postal code stays one |
| `Checkout.FieldAnswerConfirmsWhenComplete` | ai/llm_first_orders.go:265-270 | a field answer ends at the confirm step exactly when it was there or the data is complete and no variant is open |
| `Checkout.FieldAnswerKeepsConfirm` | ai/llm_first_orders.go:233-272 | a field answer keeps that the confirm step has complete shipping data |
| `Checkout.CartKeepsConfirm` | ai/llm_first_orders.go:144-152 | writing a cart keeps it too, and an open variant always leads to the variant question |
| `Checkout.AskedToConfirmOnlyWhenComplete` | ai/llm_first_orders.go:170-205 | the final OK is asked for only when nothing is missing |
| `CheckoutGrounding.NothingIsInvented` | ai/llm_first_orders.go:217-262 | every field a field answer stores is the stored one, the parser's reading of the buyer's text, or words and numbers that appear in it; a phone in local or international form, a postal code exactly |
| `CheckoutGrounding.ValidAnswersAreTaken` | ai/llm_first_orders.go:241-262 | a plausible name, a valid phone number and a five-digit postal code found in the buyer's text are stored, over what was stored before |
| `CheckoutGrounding.PersonAnswersAreTaken` | ai/llm_first_orders.go:241-301 | name, phone and postal code are exactly what the model found and the buyer's words bear out, else what the parser read and the same checks let through, else what was stored |
| `CheckoutGrounding.AddressAnswersAreTaken` | ai/llm_first_orders.go:281-372 | street, district, city and province are exactly the model's where they stand in the buyer's text and the parser did not change the field in this turn, with the rules for a province given as the city, a district that repeats the city and a cleaner street; else what the parser read, else what was stored |
| `CheckoutGrounding.AsksForWhatIsMissing` | ai/llm_first_orders.go:264-271 | after an answer the buyer is asked for an open variant first, the recipient only while it is missing, the address only while it is incomplete, and the OK exactly when nothing is missing; never for nothing |
| `CheckoutSteps.RememberLines` | ai/llm_first_orders.go:93-115 | the lookup tables filled in the loop hold, per variant, the newest known line and, per product, the first line and the number of lines |
| `CheckoutSteps.StateWithCart` | ai/llm_first_orders.go:78-154 | the table lookups and the step switch give the specified state; nothing for an empty cart |
| `CheckoutSteps.Form.ParseText` | ai/llm_first_orders.go:281-320 | the in-place parser step takes over exactly what the specification says, and flags the address fields it changed |
| `CheckoutSteps.Form.ApplyModelAddress` | ai/llm_first_orders.go:326-372 | the in-place model step fills only grounded values the parser did not set, with the province and district rules |
| `CheckoutSteps.Form.ApplyFieldAnswer` | ai/llm_first_orders.go:233-272 | filling in the state field by field gives `Checkout.FieldsApplied` |
| `OrderStore.ActiveIdsAreTheActive` | ai/order_customer.go:122-147 | the loader lists exactly the buyer's non-deleted, non-cancelled orders |
| `OrderStore.WriteFrame` | ai/order_amend.go:332-374 | a save writes at most one row, the pinned draft if it is still a draft of this buyer, otherwise a new one; it asks for a pick only without a pinned draft among other drafts, and then writes nothing |
| `OrderStore.ParkAndContinue` | ai/order_flow.go:261-314 | a cart saved in mid-checkout and rebuilt from its row is the same cart in the same order, pinned to that row, whose totals are the sum of quantity times price |
| `OrderStore.SaveAndContinue` | ai/order_flow.go:18-230 | the same for the save of an approved order, single and multi-line |
| `OrderStore.SavedAddress` | ai/order_flow.go:63-78 | the saved row has the confirmed name, phone, street, rt, rw, kelurahan, kecamatan, city, province and postal code, and the confirmed country or Indonesia, except exactly when the address update of a pinned draft failed: then it has its old address |
| `OrderStore.ContinuedCheckout` | ai/llm_first_turn.go:223-238 | a continued draft has the saved cart, is pinned, and asks for the recipient or for an incomplete address, never for the OK |
| `OrderSaved.WriteEnds` | ai/order_amend.go:332-374 | a save asks for a pick exactly when a leftover draft is in the way, reports saved exactly when its write was answered, and fails otherwise, whichever call fails; a row changes only if the write took place |
| `OrderSaved.SaveEnds` | ai/order_flow.go:18-230 | the save of an approved order refuses exactly without ready lines, recipient and address or when the stock guard refuses a line; the row it saves holds every field of every line, in order, with the warehouse the guard chose |
| `OrderSaved.SaveEarlyEnds` | ai/order_flow.go:261-314 | the same for the save in mid-checkout, which asks for ready lines only |
| `OrderSaved.EarlyAddress` | ai/order_flow.go:261-314 | that save leaves the address of its row alone, and gives a new row only a country |
| `OrderSaved.WriteAddsARow` | ai/order_flow.go:87-110 | a save that does not go to the pinned draft adds one unpaid draft of this buyer in this conversation, and leaves every other row |
| `OrderSaved.LoadedAreTheBuyers` | ai/order_customer.go:122-147 | the loaded orders are exactly those of this conversation and of this contact or none that are neither deleted nor cancelled |
| `OrderSaved.CancelEnds` | ai/order_customer.go:442-462 | cancelling changes one row, exactly if it is the buyer's and a draft, in processing, confirmed or paid, and reports whether it did |
| `OrderSaved.RebuiltFromTheRow` | ai/order_amend.go:248-316 | a checkout rebuilt from a row has every field of every item and of the address again, blank fields not given, and is pinned to the row |
| `OrderSaved.ActiveIdsNewestFirst` | ai/order_customer.go:122-147 | the loader lists the newest order first |
| `OrderTable.LinesToItems` | ai/order_amend.go:124-146 | the loop converts every line in order, quantities raised to at least one |
| `OrderTable.ItemsToLines` | ai/order_amend.go:148-168 | the loop converts every item back |
| `OrderTable.PlaceLines` | ai/order_flow.go:138-169 | the loop refuses when the stock guard refuses a line; otherwise items, warehouses and running subtotal are those of all lines |
| `OrderTable.OrderTable.LoadActive` | ai/order_customer.go:122-147 | the loaded ids, newest first |
| `OrderTable.OrderTable.Cancel` | ai/order_customer.go:442-462 | cancels the row if it is the buyer's and in a cancellable status, else reports that none matched |
| `OrderTable.OrderTable.UpdateDraftItems` | ai/order_amend.go:175-207 | the row gets the items and the looped sum as subtotal and total |
| `OrderTable.OrderTable.UpsertDraft` | ai/order_amend.go:332-374 | updates the pinned draft, or asks for a pick, or leaves the insert to the caller |
| `OrderTable.OrderTable.ItemsFromState` | ai/order_flow.go:316-381 | items and subtotal of a multi-line or single-item state |
| `OrderTable.OrderTable.PersistDraft` | ai/order_flow.go:18-230 | leaves the table and reports the outcome of `OrderStore.Save`, whichever call fails |
| `OrderTable.OrderTable.PersistDraftEarly` | ai/order_flow.go:261-314 | leaves the table and reports the outcome of `OrderStore.SaveEarly`, whichever call fails |
| `TurnPlan.PlanTurn` | ai/llm_first_plan.go:82-186 | at most two calls; a plan is accepted exactly when the last call made proposed a valid one, with its own cart only for an order or a change; a failed call falls back at once |
| `TurnPlan.ReplyAsksForTheStoredField` | ai/llm_first_plan.go:191-199 | after a cart change the field the resume line names is the pending field of the stored state exactly when a variant is open or the previous step was not a stray one; the line is left out exactly behind a question of the model's own |
| `LlmFirstShell.RunLLMFirst` | ai/llm_first.go:131-252 | the shell from the cost gate on is one event of a run; a turn left to the older flow has written nothing, and a fallback is answered only at the confirm step |
| `LlmFirstShell.NothingWithoutADecision` | ai/llm_first.go:135-197 | a turn without a usable decision leaves orders, checkout, question and pause as they were; at most it tells the owner, at the confirm step |
| `LlmFirstShell.OnlyValidDecisionsAct` | ai/llm_first.go:176-226 | every call a turn makes is permitted by a proposal that passed validation in one of the two model calls, its cart counted only for an order or a change, or is the owner note of a held confirmation |
| `LlmFirstShell.ValidDecisionActs` | ai/llm_first.go:172-226 | unless the quota, a load or the language stops the turn before, the first valid decision of the two model calls is the one the turn applies, and without one the turn falls back |
| `LlmFirst.TargetIsActive` | ai/llm_first_effects.go:523-538 | a single cancellation is about one of the buyer's active orders or none |
| `LlmFirst.ContinuedIsActive` | ai/llm_first_effects.go:754-790 | so is a continue |
| `LlmFirstSteps.Conversation.ApplyCart` | ai/llm_first_effects.go:159-204 | ends in the world of `LlmFirst.ApplyCart`: a changed cart is stored (an unpinned one never to merge into a parked draft), a full draft is queued for after the send, an emptied cart clears the checkout |
| `LlmFirstSteps.Conversation.SaveDraftNow` | ai/llm_first_effects.go:221-240 | ends in the world of `LlmFirst.SaveDraftNow`: the pinned draft or a new one, one more try as a new draft when the pinned one is gone, the id pinned, the owner told of a failure |
| `LlmFirstSteps.Conversation.ApplyFields` | ai/llm_first_effects.go:245-278 | ends in the world of `LlmFirst.ApplyFields`: the filled-in state is stored, and the reply asks for the pending field or shows the summary |
| `LlmFirstSteps.Conversation.PersistOrder` | ai/llm_first_effects.go:480-489 | ends in the world of `LlmFirst.PersistOrder`: a checkout without a pin always gets a new row, and there is one more try as a new draft when the pinned one is gone |
| `LlmFirstSteps.Conversation.ApplyConfirm` | ai/llm_first_effects.go:378-436 | ends in the world of `LlmFirst.ApplyConfirm`: saved only when nothing is missing and the words are an explicit OK, the id pinned before the send, the checkout cleared after it |
| `LlmFirstSteps.Conversation.AskCancelAll` | ai/llm_first_effects.go:589-613 | the cancel-all question stores the unfinished orders and cancels nothing |
| `LlmFirstSteps.Conversation.ApplyCancel` | ai/llm_first_effects.go:698-740 | ends in the world of `LlmFirst.ApplyCancel`: the question, the pick list, the team, one cancellation, or only the live cart cleared; a live cart of another order stays |
| `LlmFirstSteps.Conversation.CancelAllConfirmed` | ai/llm_first_effects.go:620-687 | the loop over the stored ids ends in the world and the lists of `LlmFirst.CancelAllConfirmed`, also when it stops at a failed cancellation |
| `LlmFirstSteps.Conversation.ApplyContinue` | ai/llm_first_effects.go:772-790 | ends in the world of `LlmFirst.ApplyContinue`: a draft with something left to collect becomes the live checkout, unless a cart is live |
| `LlmFirstSteps.Conversation.ApplyHandoff` | ai/llm_first_effects.go:820-875 | a takeover after a step that worked becomes a note |
| `LlmFirstSteps.Conversation.ApplyIntent` | ai/llm_first_effects.go:109-153 | ends in the world and outcome of `LlmFirst.ApplyIntent`: a stored cancel-all question is answered, kept or dropped before the intent is applied |
| `LlmFirstSteps.Conversation.RunTurn` | ai/llm_first.go:201-252 | ends in the world of `LlmFirst.RunTurn`: effects, then the send, and what runs after it only if the send worked |
| `LlmFirstQuestion.TurnQuestion` | ai/llm_first_effects.go:109-130 | which "cancel all?" question waits after a turn, for every decision and failure: a new one exactly when a cancel-all turn stores it, the old one exactly when it is asked for again, could not be read or dropped, or its answer did not get through |
| `LlmFirstQuestion.DeclinedQuestionSurvivesIff` | ai/llm_first.go:473-499 | a declined question still waits after the turn if and only if Redis could not read it or could not drop it |
| `LlmFirstQuestion.AnsweredQuestionSurvivesIff` | ai/llm_first_effects.go:620-687 | an answered question still waits if and only if a cancellation failed, the reply was not sent, or it could not be dropped |
| `LlmFirstConsent.ToCancelIsAnUnpaidDraft` | ai/llm_first_effects.go:492-501 | the orders a turn may cancel are exactly the buyer's drafts without a submitted or verified proof |
| `LlmFirstConsent.TurnConsent` | ai/llm_first_effects.go:109-130 | whatever the model decides and whatever fails, a turn cancels only such orders, saves only an approved order as the buyer saw it, and cancels two or more only as the answer, with an explicit OK, to a stored question and only from its ids |
| `LlmFirstConsent.ConsentOverRuns` | ai/llm_first_effects.go:589-687 | over every run, a turn that cancels two or more orders has an explicit OK, and its orders were the unfinished orders of an earlier turn that stored the question, with only events in between that neither settle it nor store another |
| `LlmFirstConsent.ConsentWhenRedisAnswers` | ai/llm_first_effects.go:109-130 | when the turns' calls are answered, nothing of the pipeline stands between the question and that OK but further cancel-all requests that ask about less |
| `LlmFirstConsent.CallsOverRuns` | ai/llm_first.go:181-283 | over every run, every cancellation and save is permitted by the applied turn that makes it; a turn without a decision makes none, and tells the owner exactly when its reply went out at the confirm step |
| `LlmFirstRows.TurnFrame` | ai/llm_first_effects.go:221-240 | a turn writes at most one draft row, the pinned one or a new one, or only cancels what it called a cancellation for; every other row stays |
| `LlmFirstRuns.NewOrderParks` | ai/llm_first_effects.go:794-800 | "new order" parks every draft and writes no row, whether or not its reply is sent |
| `LlmFirstRuns.ParkedDraftWaits` | ai/llm_first_effects.go:794-800 | over any run that does not continue it, a parked draft's row stays, but for a cancellation, and rebuilds to the same checkout |
| `LlmFirstRuns.ContinueBringsItBack` | ai/llm_first_effects.go:772-790 | continuing a draft gives back the cart saved in it, pinned to its row |
| `LlmFirstRuns.ConfirmStepIsComplete` | ai/llm_first_effects.go:159-278 | in every state of every run the confirm step has complete shipping data |
| `LlmFirstRuns.SubtotalsOverRuns` | ai/order_amend.go:175-207 | over every run, each row's subtotal is the sum of quantity times price, if it is for the rows that come from outside |
| `LlmFirstRuns.TotalsOverRuns` | ai/order_amend.go:175-207 | over every run, whatever staff write, each row's total is the sum of quantity times price of its items, or a total from outside for the items it came with |
| `LlmFirstRuns.SaveDropsShippingCost` | ai/order_amend.go:192-196 | an early save of a pinned draft leaves the sum of its items as its total, whatever it was before |
| `LlmFirstRetry.CancelEachDoes` | ai/llm_first_effects.go:624-653 | the loop cancels exactly the orders to cancel and names exactly the cancelled and the paid ones; if it stops early, it has done part of that and nothing else |
| `LlmFirstRetry.CancelAllRetry` | ai/llm_first_effects.go:620-687 | however often and wherever the confirmed cancel-all stops, the attempt that gets through leaves the same table and names the same orders as one uninterrupted run |
| `LlmFirstRetry.ConfirmationRetried` | ai/llm_first_effects.go:408-435 | a confirmation repeated after an unsent reply, while its order is a draft, writes that row or none |
| `LlmFirstRetry.RepliesAreTrue` | ai/llm_first_effects.go:378-740 | a reply that says saved, cancelled, passed to the team, asked or resumed is true of the table |
| `LlmFirstServed.CartTurnStoresTheCart` | ai/llm_first_effects.go:159-187 | a cart change is stored and reads back as the plan's cart, with the recipient and the draft it had; an emptied cart clears the checkout |
| `LlmFirstServed.CartTurnSavesTheCart` | ai/llm_first_effects.go:191-240 | after the send, an early draft saved in either attempt is pinned to the checkout and rebuilds to the same cart |
| `LlmFirstServed.ApprovedOrderIsSaved` | ai/llm_first_effects.go:378-436 | when nothing fails, the turn of an approved order reports it saved if and only if every stored line is ready and the recipient is not blank; else it says the system is busy |
| `LlmFirstServed.CancelIsNeverGuessed` | ai/llm_first_effects.go:514-538 | a single cancellation is of an order with the number the buyer named, of the live checkout's draft, or, with no live cart, of the only unfinished order |
| `LlmFirstServed.ContinueIsMeant` | ai/llm_first_effects.go:754-767 | a continue with an order number brings back an order with that number |
| `LlmFirstServed.PausesExactlyUnserved` | ai/llm_first_effects.go:820-875 | the AI is paused exactly after a sent reply, for a takeover of a buyer who asked for a person or whose turn did nothing of its own |
| `LlmFirstMeant.OpenIdsAreTheNewest` | ai/llm_first_turn.go:209-220 | the orders the prompt lists are the ten newest unfinished ones, newest first |
| `LlmFirstMeant.MeantDraftIsCancelled` | ai/llm_first_effects.go:523-738 | a single cancel of an unpaid draft cancels it: the newest active order with the number the buyer named; without a number the one the checkout is pinned to; without either and no live cart the only unfinished one. The call is made, that row alone changes, and the checkout is cleared unless it has a live cart of another order |
| `LlmFirstMeant.FailedCancelIsRetried` | ai/llm_first_effects.go:726-728 | a cancellation that fails is an error the job retries, with the checkout as it was |
| `LlmFirstMeant.MeantPaidOrderGoesToTheTeam` | ai/llm_first_effects.go:716-725 | when the order meant is past the draft or has a proof nothing is cancelled, and the owner is told |
| `LlmFirstMeant.NoneMeantNoneCancelled` | ai/llm_first_effects.go:703-714 | an unknown number changes nothing, two or more orders to choose from are listed, and otherwise only the live cart is dropped |
| `LlmFirstMeant.CancelAllIsAskedFirst` | ai/llm_first_effects.go:589-613 | "cancel all" with two or more unfinished orders cancels nothing; they are listed with the question, or the system is busy if it could not be stored |
| `LlmFirstMeant.MeantDraftIsContinued` | ai/llm_first_effects.go:743-790 | a continue without a live cart brings back the newest listed order with the number named, or the newest unpaid one: its items, its address and its pin, at the step that asks for what it lacks; with nothing left to collect everything stays |
| `LlmFirstEnds.CartIsParkedIff` | ai/llm_first_effects.go:191-204 | a cart turn saves its cart as a draft if and only if every line names a product and has its variant |
| `LlmFirstEnds.CompleteCartIsParked` | ai/llm_first_effects.go:191-240 | when nothing fails it then leaves the checkout pinned to a draft that rebuilds to the same cart, whatever it was pinned to before |
| `LlmFirstEnds.FailedDraftTellsTheOwner` | ai/llm_first_effects.go:221-240 | a draft that could not be saved is told to the owner |
| `LlmFirstEnds.CartTurnRemembers` | ai/llm_first_effects.go:159-187 | an offer is remembered, and a cart without a draft of its own is marked for a new row |
| `LlmFirstEnds.SummaryIsShownOnce` | ai/llm_first_effects.go:159-187 | the cart turn that brings the checkout to the confirm step shows the summary, unless an operation was refused, and no other cart turn does |
| `LlmFirstEnds.FieldTurnStoresTheAnswer` | ai/llm_first_effects.go:245-278 | a field answer is stored, no order is touched, and the reply asks for what is missing then |
| `LlmFirstEnds.UnapprovedSavesNothing` | ai/llm_first_effects.go:378-407 | without an approval a confirmation saves nothing: an open variant is asked for, the summary is shown again, or the checkout stays where it is |
| `LlmFirstEnds.UnreadyIsLedBack` | ai/llm_first_effects.go:378-456 | a confirmation of a checkout that is not ready leads back to the open variant, to the field its step asks for, or to what its data lacks; the model's reply stands only without a live cart or when nothing is missing |
| `LlmFirstEnds.ApprovedTurnEnds` | ai/llm_first_effects.go:408-436 | once the reply that an order is saved is out the checkout is cleared; unsent, it keeps its cart pinned to the order; when the save failed it stays, and the owner is told |
| `LlmFirstEnds.ApprovedLinesArePlaced` | ai/llm_first_effects.go:408-425 | until the reply is out the checkout has the saved lines at the warehouses the stock guard chose for them |
| `LlmFirstEnds.HandoffTellsTheOwner` | ai/llm_first_effects.go:804-875 | the owner is told of every buyer who asks for a person or is handed over, once the reply is out |
| `LlmFirstEnds.RanIff` | ai/llm_first_effects.go:109-153 | a turn counts as having done something, which turns a takeover into a note, exactly when it changed the cart, its reply says an order was saved, cancelled, passed on or asked about, or the question to cancel all could not be stored |
| `LlmFirstEnds.CancelAllEnds` | ai/llm_first_effects.go:624-687 | a confirmed cancel-all clears the checkout exactly when its order is one it cancels, and tells the owner of paid orders |
| `LlmFirstEnds.CancelAllStops` | ai/llm_first_effects.go:624-653 | a confirmed cancel-all calls the cancellations in order, each after the one before was answered, and stops at the first that fails |
| `LlmFirstEnds.OtherTurnsEnd` | ai/llm_first_effects.go:130-148 | questions and small talk leave orders and checkout alone; "new order" clears the checkout |
| `LlmFirstLimits.DeclinedQuestionIsAnswered` | ai/llm_first_effects.go:127-129 | a buyer with two drafts asks to cancel all, moves on, and later says OK, at any checkout: both drafts are cancelled when Redis failed in the turn between, and no order is otherwise |
| `LlmFirstLimits.ApprovedOrderIsRefused` | ai/llm_first_effects.go:408-419 | a checkout with a stored line without pieces or without a product is approved at its summary, refused although nothing fails, and as it was afterwards, in every shop and over every table |
| `LlmFirstLimits.OldAddressIsSaved` | ai/order_amend.go:209-227 | a turn whose address update fails tells the buyer the order is saved, while its row keeps any other address it had |
| `Delivery.Sender.SendAiMessage` | ai/autoreply.go:1563-1688 | one attempt ends in the state, and with the success or error, of `Delivery.Attempt`, whichever call fails |
| `Delivery.Sender.Finalize` | ai/send_delivery.go:92-120 | external id first, conversation row second; an error of either is returned |
| `Delivery.AttemptKeepsInv` | ai/autoreply.go:1630-1687 | every attempt keeps at most one row, the done key only with a delivered row, and the send bound |
| `Delivery.AttemptEnds` | ai/autoreply.go:1630-1688 | an attempt for an undelivered reply delivers if and only if it reaches the channel, the send is accepted and the external id is stored; it succeeds and sets the done key exactly when every update worked; a send that is refused or unanswered leaves the row marked as failed |
| `Delivery.LaterAttemptEnds` | ai/autoreply.go:1637-1645 | an attempt for a delivered reply succeeds unless it is stopped before, and sets the done key |
| `Delivery.NothingAfterDelivery` | ai/autoreply.go:1637-1645 | once the external id is stored an attempt can only set the done key |
| `Delivery.AtMostOneReply` | ai/autoreply.go:1630-1687 | over any sequence of attempts: one row, at most one send plus one per failed external-id update and per lost answer, the done key only with a delivered row, success only with a delivered row |
| `Delivery.BoundIsMet` | ai/send_delivery.go:92-107 | n failed external-id updates do lead to n + 1 accepted sends |
| `Delivery.ShownIff` | ai/send_delivery.go:92-120 | over every run, once a reply is delivered the conversation shows it if and only if the attempt that stored the external id had that update work and its conversation update take place, reported or not |
| `Delivery.DeliveredByAnAttempt` | ai/send_delivery.go:92-107 | every delivered reply was delivered by an attempt of the run |
| `Delivery.DeliveredOnce` | ai/send_delivery.go:92-107 | and by no other one |
| `Delivery.PreviewStaysOld` | ai/send_delivery.go:108-116 | a first attempt whose conversation update is refused, or whose external-id answer is lost, is enough: however many attempts follow, the one accepted reply is never shown |
| `Delivery.OverlapSendsTwice` | ai/autoreply.go:1637-1657 | two overlapping attempts can both insert and send |
| `Delivery.NoIdNoGuard` | ai/send_delivery.go:47-55 | without an inbound id every attempt is a new row and a new send |
| `Summary.OrderSummaryMessages` | ai/memory.go:380-389 | the messages in reverse, with the time of the newest |
| `Summary.LoadMessagesSince` | ai/memory.go:394-418 | the newest 100 messages since a time, oldest first, and the time of the last |
| `Summary.StepKeepsInv` | ai/memory.go:186-263 | every step of overlapping runs keeps the accounting |
| `Summary.CountIsExact` | ai/memory.go:186-263 | in every interleaving with at most 100 messages per load, the stored count is the number of messages up to the stored time |
| `Summary.CountIsNeverTooHigh` | ai/memory.go:252-253 | without that limit the count can only be too low |
| `Summary.LoadIsExactIff` | ai/memory.go:394-418 | a load keeps an exact count exact if and only if at most 100 messages waited |
| `Summary.FirstSummaryMiscounts` | ai/memory.go:394-418 | for every chat of n messages, n above 100, there is a run after which 100 of them are counted and the stored time is that of the last |
| `Summary.ArrivalsDuringARunWait` | ai/memory.go:422-432 | messages that arrive during a run are still waiting after its store |
| `PaymentProof.TargetIsOpen` | ai/payment_proof.go:168-264 | a proof is only ever for one of the buyer's own orders that is neither cancelled, completed nor verified |
| `PaymentProofDecides.ProofGoesToTheNewestOpen` | ai/payment_proof.go:333-351 | a proof whose words name no order goes to the buyer's newest open order; the buyer is asked exactly when that was rejected and a later order exists or the words are about a new one |
| `PaymentProofDecides.ProofWithoutAnOpenOrder` | ai/payment_proof.go:200-264 | without an open order it goes to the buyer's newest order, exactly in a checkout and if that can be paid and is not blocked |
| `PaymentProofDecides.ProofGoesToTheNamed` | ai/payment_proof.go:168-200 | a proof that names an order goes to the newest order so named, exactly if it is the buyer's own and can be paid |
| `PaymentProofDecides.ProofOfNoOrder` | ai/payment_proof.go:168-223 | without such an order it goes to none |
| `PaymentProofDecides.ProofIsDecided` | ai/payment_proof.go:95-164 | a job that nothing stops rejects and counts a file another live order carries, verifies exactly when mode, accounts, quota, amount, date, account and confidence fit, and else leaves the proof to the team; with the file stored and nothing else changed |
| `PaymentProofDecides.StoppedJobDoesNothing` | ai/payment_proof.go:50-130 | a job stopped before its decision, or whose write is refused, changes no order |
| `PaymentProof.VerifiedWasPaid` | ai/payment_proof.go:95-164 | over every run of jobs, staff actions and edits, each verified order was verified by staff, or by a job with its file, which no other live order carried then, and whose reading was within the tolerance of the total; items and total are still those, unless edited since |
| `PaymentProof.RejectedHadATwin` | ai/payment_proof.go:389-407 | over every run, each rejected order was rejected by staff, or its file was another live order's file when a job rejected it |
| `PaymentProof.RejectionsAreCounted` | order/payment_proof.go:88-185 | over every run the stored count is the number of rejections by jobs and by staff since staff last unblocked the order; at most five are by jobs, and the order is blocked exactly from the fifth on |
| `PaymentProof.JobFrame` | ai/payment_proof.go:50-166 | a job changes no row but its target |
| `PaymentProof.SettledStaysSettled` | ai/payment_proof.go:247-264 | a verified, cancelled or completed order is never changed by a job |
| `PaymentProof.VerifiedIsFirst` | ai/payment_proof.go:95-164 | an order becomes verified only when no other live order carries the file, the rules hold within the tolerance, and it is not blocked |
| `PaymentProof.BlockedStaysBlocked` | ai/payment_proof.go:273-300 | a job gives a blocked order no more than the mark that the buyer was told, and never raises its count |
| `PaymentProof.ProofsAreUnique` | ai/payment_proof.go:389-407 | over every run, of two live orders verified with the same file staff verified at least one |
| `PaymentProof.VerifiedForGood` | ai/payment_proof.go:643-691 | over every run a verified order stays verified with its file, whatever jobs and staff do, and keeps its items and its total until it is edited |
| `PaymentProofLimits.StaffRejectWithoutEnd` | order/payment_proof.go:88-140 | for every n there is a run after which an order has n rejections |
| `PaymentProofLimits.StaffCanVerifyATwin` | order/payment_proof.go:20-66 | an order a job has just rejected because its file is a verified order's can be verified by staff, and both are then verified with one file |
| `PaymentProof.ProofJobs.FindTarget` | ai/payment_proof.go:168-223 | the loops find the target of `PaymentProof.TargetOf`: the named order, the newest open one unless it was rejected and superseded, or the newest one in an active checkout |
| `PaymentProof.ProofJobs.FindDuplicate` | ai/payment_proof.go:389-407 | finds exactly whether another live order carries the file |
| `PaymentProof.ProofJobs.ApplyResult` | ai/payment_proof.go:643-691 | payment status, status, file hash, and the rejection count kept or raised |
| `PaymentProof.ProofJobs.ProcessJob` | ai/payment_proof.go:50-166 | the whole job leaves the table of `PaymentProof.Process`, whichever call fails |
| `Composer.BehaviorJob.Reclaim` | admin/ai_triage_behavior_job.go:164-188 | a job in flight past its limit fails; at the limit itself it does not |
| `Composer.BehaviorJob.Dispatch` | admin/ai_triage_behavior_job.go:323-347 | status first, then GitHub, then a failed dispatch as a failed attempt |
| `Composer.BehaviorJob.Complete` | admin/ai_triage_behavior_job.go:279-302 | an outcome is taken from seven statuses only and is an attempt |
| `Composer.BehaviorJob.RetryJob` | admin/ai_triage_behavior_job.go:84-151 | reclaim, give up when stuck, then dispatch if allowed |
| `Composer.BehaviorJob.ConfirmAgain` | admin/ai_triage_incident.go:159-175 | confirming again dispatches only a job that can be retried |
| `Composer.NextKeepsInv` | admin/ai_triage_behavior_job.go:84-201 | every request keeps that each dispatch has ended in an attempt or a reclaim, but for one in flight |
| `Composer.DispatchBound` | admin/ai_triage_behavior_job.go:84-201 | over every run with one clock reading per request, dispatches are at most two plus the reclaims |
| `Composer.OutcomeIsTaken` | admin/ai_triage_behavior_job.go:279-302 | a reported outcome becomes the status and counts as an attempt, unless the status is one that stays |
| `Composer.StatusHasItsCause` | admin/ai_triage_behavior_job.go:84-302 | over every run, the status of a job was brought by a reported outcome, a dispatch, a refused dispatch or a reclaim |
| `Composer.DispatchesIff` | admin/ai_triage_behavior_job.go:84-151 | a request with one clock reading dispatches if and only if attempts are left, the job waits for a retry (failed, in a pull request, or past its limit and given up) and its status could be set |
| `Composer.VerifiedForGood` | admin/ai_triage_behavior_job.go:279-302 | verified is never left |
| `Composer.ReclaimsAreNotAttempts` | admin/ai_triage_behavior_job.go:164-188 | the bound is met: n reclaims allow n + 1 dispatches without an attempt |
| `Composer.TwoReadingsBreakTheBound` | admin/ai_triage_behavior_job.go:84-105 | with two clock readings three dispatches happen without an attempt or a reclaim |
| `Composer.RetryDispatchesInFlightIff` | admin/ai_triage_behavior_job.go:126-151 | whatever the calls answer, a retry dispatches a job in flight without giving it up exactly when the job becomes stuck between the two readings and the status write works |

## Left out

- CoalesceProtocol.Coverage: holds below the cap of 20 records, or while only the newest message is recorded again; `WatermarkCanPassAMessage` shows a run outside both. Messages pushed off the list before any call had them are counted as lost, as the code gives them up.
- CoalesceProtocol.DropAndRearmProgress: under the condition that only the newest message is recorded again, which the code does not enforce; `DropsWithoutEnd` shows a run without it.
- LlmFirstConsent.ConsentOverRuns: the events in between include turns in which Redis could not read or drop the stored question, since the code then keeps it (`DeclinedQuestionSurvivesIff`, `DeclinedQuestionIsAnswered`), and answering turns whose cancellation failed, whose reply was not sent, or after which the question could not be dropped (`AnsweredQuestionSurvivesIff`); the storing turn can be one whose write reported an error. `ConsentWhenRedisAnswers` is the statement without them.
- CoalesceLiveness.NoMessageIsStranded: a job that fails for good (its retries used up, or the chat paused for staff), or runs for its own message alone, can leave the messages before it to the next burst; re-records of older messages are covered by `CoalesceLimits`.
- LlmFirstRetry.CancelAllRetry: covers the order table and the lists, not the cart clean-up, which a rerun does not redo, and assumes no other writer in between.
- LlmFirstRetry.ConfirmationRetried: the second save may still fail; it then reports so and writes no other row.
- Checkout.CartRoundTrip: a product's only stored size and colour come back where the cart names none, as the code intends.
- PaymentProof.ProofsAreUnique: jobs and staff actions one after another; each is one atomic step. The stock check, the income entry and the expected-version guard of staff actions are left out: a staff action that they stop is one that does not happen.
- Composer.DispatchBound: requests one after another.
- Turns of one conversation run one after another here, and nothing else writes between the loads and the writes of a turn. Payments arriving between load and cancel, and staff takeover during a turn, are not modelled.
- Redis writes of the checkout state are taken to succeed (the code logs a failure and goes on); each Redis pipeline is one atomic step; key expiry is modelled only for the cancel-all question, so a flush lock that outlives its time to live is not modelled.
- Process crashes between two adjacent writes, except where a property names the failure.
- The adaptive quiet window and the classification of a message as complete: the window is an input of every wait round.
- Media messages, which bypass coalescing, and the older reply flow (`ProcessAutoReply`, `AdvanceOrderFlow`); anything they do to orders and checkout is an outside event of a run.
- Reply texts, language lock, reminders, the confusion counter, usage metering and owner-notification wording; replies appear as what they claim.
- Text classifiers, regular expressions and catalog matching (`IsExplicitOrderConfirm`, `ParseOrderRefFromMessage`, `MergeShippingText`, `ResolveCartOps`, `Validate`): abstract inputs.
- The stock guard's choice of warehouse and stock synchronisation: an answer per line.
- Prices are exact reals; floating-point rounding of totals is not modelled beyond the rounding of a cart price.
- Contents of summaries and of OCR results beyond the values the rules read.
- The in-flight key of summaries and the hourly counter of proofs: modelled as runs that do not start and as a refused job.
- Simulator conversations, which never reach the channel.
- Admin endpoints other than the Composer dispatch, its callback and its verification.
