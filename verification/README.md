# Verified model of whatsapp-connect-mcp

A bridge process keeps a local copy of a WhatsApp account and lets a model read
it and, with a human's say-so, send through it. This project models the parts
where several operations have to agree with each other, and proves what they
keep over whole runs:

- **Confirmed sends.** Every send passes a *gate*. Without prior trust it
  leaves a *draft* under a random token; re-submitting the same content with
  the token, or approving it on the dashboard, sends it. All sends draw on one
  rate limiter. A second gate delivers into a *schedule store*, from which a
  *runner* fires entries through the first gate.
- **One person, one identity.** People arrive under a phone address or under a
  privacy address (LID). The bridge resolves what it can before it writes; a
  *fold* later rewrites the tables in place for pairings that turned up late.
- **History cooldowns.** Requests to the phone reserve a slot under a lock,
  are sent without it, and roll the reservation back when the send fails.
- **Reading.** Pages by (time, id), polls by rowid, a window around a message,
  mention tokens rewritten to names through a cache, a full-text index kept by
  triggers.
- **Text others parse.** The full-text query and the banner around untrusted data.

## How it is laid out

| file | contents |
|---|---|
| `TokenBucket.dfy`, `Gate.dfy` | the limiter; the gate's critical sections as functions on its state, and the `Gate` object that runs them in place |
| `GateRun.dfy`, `DraftSurvival.dfy`, `RateBound.dfy` | any interleaving of critical sections and deliveries, and what holds over it |
| `Schedule.dfy`, `SendRun.dfy`, `Runner.dfy` | the schedule `Store`; both gates, the store and the runner together; the runner's loop in place |
| `Cooldown.dfy` | the reservation protocol and its `Handler` |
| `Tables.dfy`, `Fold.dfy`, `FoldTheorems.dfy`, `FoldFields.dfy` | the tables and single-row writes; the four passes of the fold; what the fold keeps; what becomes of each field, and what is counted |
| `Store.dfy` | the `MessageStore` object: the same writes and passes row by row, with the index triggers |
| `Bridge.dfy` | pairings learned from events, the `Bridge` object, and whole runs of ingest and fold |
| `Paging.dfy`, `Polling.dfy`, `Mentions.dfy`, `ReadReceipts.dfy`, `Text.dfy` | reading, rewriting, grouping, encoding |

An object's methods are each proved equal to a function of the old state; the
lemmas are about those functions, over every sequence of them.

## What is assumed

- A critical section is one step. The clock is read before it, by the caller,
  and may be any value: only the lemmas that say so need readings that do not
  decrease in the order of the sections.
- The limiter is an exact token bucket, in whole nanoseconds.
- Draft tokens and schedule ids never repeat (`FreshTokens`, `FreshIds`).
- A resolver answers only for LIDs, only with phone addresses, and by user
  whatever the device (`Sound`); the resolver the bridge passes is proved to.
- A fold's scans return the rows that are there, each once, in any order
  (`Scans`).
- The runner reads the clock for the limiter after the reading that found the
  entry it holds due (`AttemptsFollowPicks`), where `ScheduledSendsAreNeverEarly` says so.
- Over a run of the bridge, no event carries a false pairing (`Truthful`), and
  repeat deliveries of one message carry one payload (`Repeats`).
- Rows of one chat have distinct ids, as the primary key has it (`Keyed`).

## Where the code and its own comments differ

- `internal/gate/gate.go:354-357` says expired drafts are always a prefix of
  the order. `createDraft` reads the clock before it takes the lock
  (`internal/gate/gate.go:183-186`), so two racing calls can store drafts the
  other way round; `RacingDraftsShowAnExpiredOne` is such a run, and
  `DraftsListsExactlyThePending` says exactly when the listing is right.
- `internal/gate/gate.go:347` counts consumed tokens that are still in the
  order, so a live draft can be evicted with fewer than 32 live ones:
  `ChurnEvictsTheOnlyLiveDraft` evicts the only live draft there is. The exact
  condition is `DraftSurvivesUntilThe32ndNewer`.
- `internal/schedule/schedule.go:111-117`: an `Add` whose write fails returns
  an error, yet the entry stays pending in memory and fires when it is due
  (`FailedAddStillFires`).
- `internal/store/query.go:644-646` says replaying a cursor can neither skip
  nor duplicate. It never repeats a rowid, but it can skip in two ways. After
  deletes a rowid the cursor has passed is used again, as the table has no
  AUTOINCREMENT (`DeleteHidesAnArrival`); and the fold moves an older message
  into the polled chat under the rowid it had, with nothing deleted
  (`FoldHidesAMessage`). `NothingIsSkippedIffSafe` is the exact condition: at no
  point of a chain is a matching row passed over if and only if every matching
  insert finds the cursor at 0 or no further than some row still there, and
  every update that leaves a row matching is past the cursor or of a row known
  already. Inserts alone meet it (`InsertsAloneAreExact`).
- `internal/store/fold.go:33` says every pairing used is recorded in lid_map.
  The contact and call passes (`internal/store/fold.go:151-214`) record none:
  `FoldRecordsChatAndSenderPairings` says which new ones are recorded, exactly.
- `internal/dashboard/api.go:232-238` computes a wait in 64-bit durations. For
  clock readings about 292 years apart the subtraction wraps and the guard lets
  a request through. `CooldownsHoldIffSpanIsShort`: the cooldowns hold in every
  run with readings between lo and hi if and only if hi - lo is less than 2^63
  nanoseconds less three seconds.

## Model

| member | source | states |
|---|---|---|
| `TokenBucket.NewBucket` | internal/gate/gate.go:100-123 | a full bucket at the configured rate and burst, raised to five seconds and to one where they are lower; it grants a first delivery at any time |
| `TokenBucket.GrantedIffPaidFor` | internal/gate/gate.go:229-233 | a delivery is granted if and only if the credit kept, or it and the time since the last grant, cover one period; always after one quiet period |
| `TokenBucket.GrantCostsAPeriod` | internal/gate/gate.go:229-233 | a grant costs exactly one period out of what had accrued up to a full bucket |
| `Gate.PruneDropsStaleFront` | internal/gate/gate.go:354-367 | the loop removes exactly the longest front of the order with no live unexpired draft, and those drafts only |
| `Gate.MakeRoomDropsRoomFront` | internal/gate/gate.go:343-352 | making room removes one contiguous front, keeps live drafts inside a duplicate-free order, and leaves fewer than 32 tokens |
| `Gate.OnlyAClaimOrADraftChangesState` | internal/gate/gate.go:194-216 | a refused, invalid or rate-limited attempt through Submit, Approve or DeliverScheduled leaves drafts, order, expiries and limiter as they were |
| `Gate.UntokenedSubmit` | internal/gate/gate.go:151-175 | without a token a valid block or unblock is drafted whatever the trust, a read never, anything else exactly when its recipient is not trusted; and what is not drafted is delivered if and only if the limiter allows |
| `Gate.RefusedOrCommitted` | internal/gate/gate.go:138-149 | an invalid call is refused before anything else is looked at, and a token before the kind or the trust list |
| `Gate.CommittedIff` | internal/gate/gate.go:191-219 | a token is valid exactly for its own content strictly before its expiry, and then only the limiter decides |
| `Gate.ApprovedIff` | internal/gate/gate.go:297-329 | an approval is valid exactly strictly before the expiry and sends what was drafted under the preview that was shown |
| `Gate.ClaimTakesItsDraft` | internal/gate/gate.go:204-218 | a claim removes its own draft, spends one token, and leaves every other draft and the order alone |
| `Gate.DiscardTakesOne` | internal/gate/gate.go:331-341 | discarding removes one draft and no credit, no order entry and no other draft |
| `Gate.ScheduledIff` | internal/gate/gate.go:251-264 | a scheduled delivery is refused only when invalid, waits only for the limiter, and touches no draft |
| `Gate.ListingFollowsTheOrder` | internal/gate/gate.go:286-294 | the rows listed are exactly those of the live tokens, each with its own preview and expiry, in the order of creation |
| `Gate.DraftsListsExactlyThePending` | internal/gate/gate.go:275-295 | for every state, the listing after pruning is exactly the unexpired unconsumed drafts in creation order if and only if no expired draft sits behind a live one |
| `Gate.Gate.constructor` | internal/gate/gate.go:108-123 | a new gate satisfies the invariant, with nothing pending and a floored limiter |
| `Gate.Gate.PruneExpiredLocked` | internal/gate/gate.go:358-367 | the in-place loop is the pruning function of the old state |
| `Gate.Gate.EvictOldestLocked` | internal/gate/gate.go:370-376 | drops the front token with its draft, if there is one |
| `Gate.Gate.StoreDraftLocked` | internal/gate/gate.go:345-352 | prune, evict at the cap, then append is the whole change to the state |
| `Gate.Gate.CommitDraft` | internal/gate/gate.go:191-227 | the state after and the one delivery made are those of the commit section; nothing is delivered unless a claim was made |
| `Gate.Gate.ApproveDraft` | internal/gate/gate.go:297-329 | likewise for approval, with the stored content and preview |
| `Gate.Gate.Deliver` | internal/gate/gate.go:229-240 | delivers once if and only if the limiter grants a token |
| `Gate.Gate.SubmitCall` | internal/gate/gate.go:131-175 | every branch of Submit in the source's order, with at most one delivery, which is the claim returned |
| `Gate.Gate.DeliverScheduledEntry` | internal/gate/gate.go:251-264 | validates again, then shares the same limiter |
| `Gate.Gate.DiscardDraft` | internal/gate/gate.go:331-341 | reports whether the draft was there; no order entry and no credit changes |
| `Gate.Gate.Drafts` | internal/gate/gate.go:281-295 | the rows shown are the live drafts along the pruned order, stale tokens skipped |
| `GateRun.SectionClaims` | internal/gate/gate.go:147-168 | a claim is for a draft that is thereby gone, a read receipt, a trusted direct send whose kind is neither block nor unblock, or the runner |
| `GateRun.RunKeepsTraced` | internal/gate/gate.go:191-240 | over any interleaving every live draft and every claim goes back to the one Submit that minted its token with that content, and a token is claimed at most once |
| `GateRun.AtMostOnceAndOnlyAsDrafted` | internal/gate/gate.go:131-240 | over any interleaving no token causes two Deliver calls, each carries exactly what was drafted under it, and everything else on the wire is a read receipt, a trusted send that is no block or unblock, or a schedule firing |
| `DraftSurvival.DraftSurvivesUntilThe32ndNewer` | internal/gate/gate.go:343-376 | a draft nobody uses, discards or prunes after expiry is still there, unchanged, if and only if fewer than 32 newer ones were created |
| `DraftSurvival.SurvivingDraftCommits` | internal/gate/gate.go:191-219 | re-submitting its content before it expires then claims it with that content, or is rate limited; no third outcome |
| `DraftSurvival.MintIsNewest` | internal/gate/gate.go:177-189 | every created draft starts as the newest with the full five minutes |
| `DraftSurvival.ChurnEvictsTheOnlyLiveDraft` | internal/gate/gate.go:343-352 | after 32 drafts each discarded at once, an untouched draft with time left is gone although it was the only live one |
| `DraftSurvival.FirstDraftIsAlone` | internal/gate/gate.go:177-189 | the first draft on a new gate is where such a run starts |
| `DraftSurvival.MintCountCounts` | internal/gate/gate.go:343-352 | the count the survival theorem speaks of is the number of drafts created |
| `RateBound.RateBound` | internal/gate/gate.go:108-123 | with a non-decreasing clock any window of length T holds at most burst + T/period claims over all paths together, whatever the interleaving |
| `RateBound.InWindowCounts` | internal/gate/gate.go:108-123 | the count it bounds is the number of claims stamped within the window |
| `RateBound.RunKeepsSorted` | internal/gate/gate.go:354-357 | with a non-decreasing clock live drafts expire in creation order over any run |
| `RateBound.DraftsListsThePendingOfARun` | internal/gate/gate.go:275-295 | so with such a clock the dashboard always lists exactly the pending drafts |
| `RateBound.RacingDraftsShowAnExpiredOne` | internal/gate/gate.go:183-186 | two drafts that race for the lock leave an expired one behind a live one, so the hypothesis is needed |
| `Schedule.LoadSplitsTheFile` | internal/schedule/schedule.go:80-88 | kept and dropped entries together are the file's, as multisets, on the right sides of fifteen minutes ago |
| `Schedule.DroppedIff` | internal/schedule/schedule.go:80-88 | an entry is dropped if and only if its whole second of fire time ended fifteen minutes ago or longer |
| `Schedule.LoadKeepsOrder` | internal/schedule/schedule.go:82-88 | the kept entries stand in the file's order |
| `Schedule.AcceptedIff` | internal/schedule/schedule.go:222-233 | a schedule is accepted if and only if its content is and its fire time lies strictly ahead and at most thirty days off |
| `Schedule.RemoveIsTheFilter` | internal/schedule/schedule.go:132-144 | removal keeps exactly the positions whose entry has another id, each once and in their order |
| `Schedule.RemovalsCommute` | internal/schedule/schedule.go:132-153 | cancellations in any order, or repeated, leave the same entries |
| `Schedule.Store.Load` | internal/schedule/schedule.go:59-95 | returns the split of the file; afterwards memory equals the file, and a needed rewrite that fails yields no store |
| `Schedule.Store.Add` | internal/schedule/schedule.go:97-120 | the entry is appended whether or not the write works; the file follows and the runner is woken only if it does |
| `Schedule.Store.Compact` | internal/schedule/schedule.go:136-144 | compaction into the array being read is the order-preserving filter |
| `Schedule.Store.Remove` | internal/schedule/schedule.go:132-153 | reports whether an entry had the id; the file is rewritten, and the runner woken, only then |
| `Schedule.Store.List` | internal/schedule/schedule.go:122-130 | a permutation of the pending entries in order of fire time |
| `SendRun.WorldProjects` | cmd/whatsapp-connect-mcp/serve.go:151-176 | in the combined system each gate still runs as a gate on its own, so every run property applies to it |
| `SendRun.BookedIsAhead` | internal/mcpserv/sched_tools.go:101-123 | whatever schedule_send does not have refused is a text or media send that lies ahead, within thirty days |
| `SendRun.AttemptDecides` | internal/schedule/runner.go:59-71 | an attempt leaves a rate-limited entry stored for another time, marks a refused one for removal, and claims any other under its own content |
| `SendRun.FinishRemovesIt` | internal/schedule/runner.go:65-71 | what was sent or refused is removed, and nothing else |
| `SendRun.PlayFiresOnce` | internal/schedule/runner.go:42-73 | no entry is fired twice in one process, whatever is booked, cancelled or listed while a send is under way |
| `SendRun.PlayKeepsProvenance` | internal/schedule/runner.go:52-70 | every firing found its entry due, was claimed on the live gate for that very content, and the entry came from the file or from the schedule-time gate |
| `SendRun.ScheduledSendsAreConfirmed` | internal/schedule/schedule.go:202-243 | end to end: what the runner delivers was drafted or trusted with exactly that content and fire time, or was in the file; its fire time was not past the reading that picked it; never twice; nothing else reaches the wire in a schedule's name |
| `SendRun.EachConfirmationSendsOnce` | internal/schedule/schedule.go:202-243 | different firings that were not in the file go back to different claims of the schedule-time gate and, for confirmed drafts, to different tokens: one confirmation causes at most one send |
| `SendRun.ScheduledSendsAreNeverEarly` | internal/schedule/runner.go:52-59 | the limiter reading a scheduled delivery was granted at is itself at or past the fire time |
| `SendRun.ScheduledSendsShareTheRate` | internal/gate/gate.go:251-264 | schedules and live sends together keep the rate bound in any window |
| `Runner.RunTurn` | internal/schedule/runner.go:42-73 | a turn waits exactly when the fire time of every entry not cancelled lies ahead of the clock; otherwise it keeps everything when the soonest entry is valid and the limiter has no token, drops that entry when it is refused, and else delivers it with its own content, never before its time, stamped when the limiter was asked, and removes it |
| `Runner.TurnIsNeverEarly` | internal/schedule/runner.go:52-57 | no entry leaves, sent or dropped, before its fire time on the clock's own nanoseconds |
| `Runner.FailedAddStillFires` | internal/schedule/schedule.go:111-117 | an entry whose write failed, and whose `Add` reported an error, is delivered by the first due turn like any other |
| `Runner.RunSchedules` | internal/schedule/runner.go:38-73 | the loop is a chain of such turns from the entries and credit it started with to those it left, and the wire gains exactly what the turns claimed |
| `Runner.TraceFiresOnce` | internal/schedule/runner.go:38-73 | over any such chain what was fired was pending and due, once each, is no longer pending, and was claimed with its own content |
| `Runner.DueEntriesAreDealtWith` | internal/schedule/runner.go:38-73 | once a time has passed, one more turn without a rate limit than there were entries leaves nothing that was due by then |
| `Cooldown.GuardPasses` | internal/dashboard/api.go:232-242 | the 64-bit guard lets a request through exactly when the cooldown has passed or the clock fell so far back that it wraps |
| `Cooldown.PassedCooldownsAreGranted` | internal/dashboard/api.go:232-247 | whatever the clock, a request is granted once three seconds have passed since the latest and fifteen since its own chat's |
| `Cooldown.GrantedIffCooledDown` | internal/dashboard/api.go:230-247 | over any run in a short span a request is granted if and only if that is so; granted it stamps both slots with its own reading, refused it changes nothing |
| `Cooldown.RollBackSparesNewer` | internal/dashboard/api.go:250-262 | a rollback restores each stamp exactly if it is still the request's, and touches no other chat |
| `Cooldown.RollBackUndoesReserve` | internal/dashboard/api.go:244-262 | a failed attempt nothing overtook restores the stamps exactly |
| `Cooldown.RunKeepsGuarded` | internal/dashboard/api.go:226-265 | the invariant behind that holds over every interleaving of reservations and failures |
| `Cooldown.RequestsKeepTheirDistance` | internal/dashboard/api.go:226-265 | any two requests in flight or answered are three seconds apart, fifteen for one chat, however they interleave, fail and roll back, for readings in any span under 2^63 nanoseconds less three seconds |
| `Cooldown.LongSpanRepeatsAStamp` | internal/dashboard/api.go:232-242 | in every longer span there is a run in which two live requests carry one stamp |
| `Cooldown.CooldownsHoldIffSpanIsShort` | internal/dashboard/api.go:226-265 | so all runs with readings between lo and hi keep the cooldowns if and only if the span is that short |
| `Cooldown.StampsStayAboveLive` | internal/dashboard/api.go:250-262 | the stored stamps bound every live request of their slot |
| `Cooldown.Handler.ReserveSlot` | internal/dashboard/api.go:230-247 | reserves if and only if neither cooldown forbids it, and surely once both have passed; a refusal leaves both stamps alone |
| `Cooldown.Handler.RollBackSlot` | internal/dashboard/api.go:250-262 | undoes each stamp only if it is still this request's |
| `Cooldown.Handler.HandleHistory` | internal/dashboard/api.go:226-271 | alone, a refused or failed request changes nothing |
| `Tables.BridgeResolverIsSound` | internal/bridge/lid.go:88-100 | the resolver the bridge passes answers LIDs only, with phone addresses only, and alike for every device of a user |
| `Tables.AddressParts` | internal/store/fold.go:242-253 | an address falls into user, device and server at its first separators, and its bare form drops the device and nothing else |
| `Tables.PhoneDigitsOf` | internal/store/fold.go:255-268 | only a phone address whose user is all decimal digits gives a number, and it gives that user |
| `Tables.LikeLidMeans` | internal/store/fold.go:70-70 | the scan's pattern matches exactly the addresses ending in @lid, in any case |
| `Tables.UpsertChatFields` | internal/store/ingest.go:18-38 | a given name wins and an empty one keeps the old, the group flag is the given one, the archived mark stays, the time is the later; no other row changes |
| `Tables.UpsertMessageFields` | internal/store/ingest.go:40-80 | the row takes the newest sender and content but keeps its rowid and read time; no other message changes |
| `Tables.UpsertContactFields` | internal/store/ingest.go:82-100 | each of the four fields on its own: a given value wins, an empty one keeps the old; no other row changes |
| `Tables.UpsertMappingLastWins` | internal/store/ingest.go:102-120 | the last pairing of an address wins, and an empty side records nothing |
| `Tables.MarkReadTouches` | internal/store/ingest.go:122-148 | exactly the named ids of that chat move forward to the given time, and nothing else about any message changes |
| `Tables.ContactNameOrder` | internal/store/query.go:107-118 | a contact shows its full name, else its push name, else its business name |
| `Tables.SenderNameOrder` | internal/store/query.go:96-118 | a sender shows a name on its own address, else on the mapped phone address, else that address, else its own |
| `Tables.ChatNameOrder` | internal/store/query.go:123-135 | a chat shows its stored name, else the same chain, else nothing |
| `Tables.IngestMovesForward` | internal/store/ingest.go:18-44 | a stale or redelivered write takes back no chat time, no chat name, no archived flag, no row and no read time, and creates no chat row for a message |
| `Fold.MoveChatContents` | internal/store/fold.go:103-113 | after the update-or-ignore and the delete, the phone chat holds every message of both, its own copy winning |
| `Fold.ChatsPass` | internal/store/fold.go:69-123 | folding chats with only part of the pairings changes nothing of what the full pairings would show, and leaves no chat it could resolve |
| `Fold.ChatsPassCopies` | internal/store/fold.go:103-113 | unresolvable chats' rows are untouched and every row left is a copy of the same message |
| `Fold.SendersPass` | internal/store/fold.go:125-149 | renaming one sender after another is renaming each once, whatever the order |
| `Fold.ContactsPass` | internal/store/fold.go:151-194 | exactly the resolvable LID contacts go, and a name any of them had is on the phone contact |
| `FoldFields.FoldCarriesEachField` | internal/store/fold.go:176-187 | over the whole fold and for each of the three names: a phone contact's own value stays, an empty one takes that very field from a row of its class, and stays empty only if all of them are; the phone number is its own or the digits of the address |
| `FoldFields.FoldCarriesEachChat` | internal/store/fold.go:93-100 | an existing phone chat keeps its group flag, its archived mark and its own name, and an empty name is filled from its class; a chat the fold makes is a direct one with a class member's archived mark |
| `FoldFields.FoldCountsItsWork` | internal/store/fold.go:37-61 | the counters are the numbers of resolvable chats, contacts and calls, and of the messages moved and renamed, copies dropped not counted |
| `FoldTheorems.FoldByTable` | internal/store/fold.go:37-61 | the four passes together, table by table, in terms of the tables before |
| `FoldTheorems.FoldConservesMessages` | internal/store/fold.go:26-33 | afterwards there is exactly one row for every (canonical chat, id) there was, none more, and no resolvable LID in any table |
| `FoldTheorems.FoldKeepsRows` | internal/store/fold.go:26-28 | a copy already under the phone chat wins, and each row left is one of the copies with only its sender rewritten |
| `FoldTheorems.FoldMergesChats` | internal/store/fold.go:28-29 | there is one chat per canonical address, and its last time is the maximum over its class |
| `FoldTheorems.FoldKeepsBounds` | internal/store/fold.go:93-100 | no message becomes newer than its chat says |
| `FoldTheorems.FoldIsIdempotent` | internal/store/fold.go:35-36 | a second run, in any scan order, changes no table and reports zero |
| `FoldTheorems.FoldKeepsView` | internal/store/fold.go:37-61 | a fold that knows part of the pairings preserves what the full pairings would show |
| `FoldTheorems.FoldLateEqualsResolveEarly` | internal/bridge/lid.go:11-19 | raw ingest with folds anywhere, then a last fold, holds the same messages and last times as resolving every address before each write |
| `FoldTheorems.FoldKeepsChatNames` | internal/store/fold.go:93-100 | a chat with a stored name keeps a non-empty one |
| `FoldTheorems.FoldKeepsSenders` | internal/store/fold.go:125-149 | where stored copies of a message agree on who sent it, the row left for it is sent by the canonical address of each copy's sender |
| `FoldTheorems.FoldLosesNoName` | internal/store/query.go:96-141 | every address that displayed a contact's name does so under its canonical form; every message in a chat that keeps its address shows a contact's name if it did; and where the stored copies of each message agree on its canonical sender, so does every message, whichever copy won |
| `FoldTheorems.FoldRecordsChatAndSenderPairings` | internal/store/fold.go:33-36 | a pairing not recorded before is recorded afterwards, as the resolver gave it, if and only if it was used for a chat or for a sender in either form of the sender's address |
| `FoldTheorems.SenderStaysNamed` | internal/store/query.go:120-121 | a sender shown by a contact's name is shown by a contact's name afterwards |
| `FoldTheorems.ChatStaysNamed` | internal/store/query.go:123-135 | a chat with anything to show keeps something, unless it showed the very phone address it is now under |
| `Store.LookupEqualsScan` | internal/store/migrate.go:56-76 | wherever the index agrees with the table, a lookup finds exactly the rows a scan would, each rowid being one message |
| `Store.PrunedIff` | internal/store/fold.go:283-291 | a message goes if and only if its kind is other and it has neither text nor media, and a chat if and only if it is a LID direct chat left with no message |
| `Store.PruneKeepsContent` | internal/store/fold.go:270-275 | pruning removes no row with text or media and no chat with messages, orphans nothing, and is done after one run |
| `Store.MessageStore.InsertRow` | internal/store/migrate.go:66-68 | inserting a row keeps index and table in agreement |
| `Store.MessageStore.UpdateRow` | internal/store/migrate.go:72-75 | so does changing one |
| `Store.MessageStore.RekeyRow` | internal/store/migrate.go:72-75 | so does moving one to another chat under its old rowid |
| `Store.MessageStore.DeleteRow` | internal/store/migrate.go:69-71 | so does deleting one |
| `Store.MessageStore.UpsertChatRow` | internal/store/ingest.go:18-38 | an empty name blanks nothing, the time only moves forward; the index still agrees |
| `Store.MessageStore.UpsertMessageRow` | internal/store/ingest.go:40-80 | a redelivery keeps its row and when it was read, and bumps an existing chat; the index still agrees |
| `Store.MessageStore.UpsertContactRow` | internal/store/ingest.go:82-100 | an empty field overwrites nothing |
| `Store.MessageStore.UpsertMapping` | internal/store/ingest.go:102-120 | the last pairing wins, an empty one is ignored |
| `Store.MessageStore.MarkReadRows` | internal/store/ingest.go:122-148 | read times move forward on the named ids of that chat and nowhere else |
| `Store.MessageStore.RekeyOrIgnoreRows` | internal/store/fold.go:103-108 | the row-by-row statement moves exactly the rows whose new key is free, and counts them |
| `Store.MessageStore.DeleteChatRows` | internal/store/fold.go:109-113 | deletes the chat's remaining rows from table and index alike |
| `Store.MessageStore.RenameSenderRows` | internal/store/fold.go:136-141 | renames exactly the sender's rows and counts them |
| `Store.MessageStore.FoldLIDChats` | internal/store/fold.go:69-123 | scan and loop in place are the chat pass on what was scanned |
| `Store.MessageStore.FoldLIDSenders` | internal/store/fold.go:125-149 | likewise the sender pass |
| `Store.MessageStore.FoldLIDContacts` | internal/store/fold.go:151-194 | likewise the contact pass |
| `Store.MessageStore.FoldLIDCalls` | internal/store/fold.go:196-214 | likewise the call pass |
| `Store.MessageStore.Fold` | internal/store/fold.go:37-61 | the fold in place is the four passes over the old tables, counters included, and the index still agrees |
| `Store.MessageStore.PruneStubMessages` | internal/store/fold.go:276-299 | pruning in place is the pruning function, with both counts, and the index still agrees |
| `Bridge.LidSenderTeaches` | internal/bridge/events.go:121-129 | a LID sender with a phone alternative is known and recorded, in exact and bare form, under that phone address |
| `Bridge.PhoneSenderTeaches` | internal/bridge/events.go:160-170 | so is a phone sender with a LID alternative, under the bare LID |
| `Bridge.LidChatTeaches` | internal/bridge/lid.go:66-81 | a LID direct chat with a phone alternative is known and recorded, and has the last word |
| `Bridge.PhoneChatTeaches` | internal/bridge/lid.go:66-81 | so is a phone direct chat with a LID alternative |
| `Bridge.SendersPairingStands` | internal/bridge/events.go:121-133 | the sender's pairing stands beside the chat's unless both are of one user |
| `Bridge.NothingElseTeaches` | internal/bridge/events.go:160-170 | addresses that are not one LID and one phone address teach nothing and record nothing |
| `Bridge.OthersStayAsKnown` | internal/bridge/events.go:121-133 | a message changes what is known of its own four addresses' users only |
| `Bridge.OnlyKnownLidsAreReplaced` | internal/bridge/lid.go:21-44 | an address is replaced if and only if it is a LID of a known user, and then by that user's phone address |
| `Bridge.FirstMessageIsStoredUnderPhone` | internal/bridge/events.go:135-141 | a direct message carrying both addresses of its sender is stored, chat and message, under the phone address from the first on |
| `Bridge.ArrivalIsStored` | internal/bridge/events.go:101-141 | whatever arrives is stored whole under the addresses then known, its chat is there, as late and with its group flag, and only a direct chat takes someone else's push name |
| `Bridge.PushNameIsKept` | internal/bridge/events.go:143-151 | a push name is kept as push name for the sender and the paired phone contact, and nobody's full or business name changes |
| `Bridge.OwnSendsNameNobody` | internal/bridge/events.go:143-143 | our own sends and nameless ones change no contact |
| `Bridge.RunStaysInStep` | internal/bridge/events.go:101-152 | at every point of a run the store shows, up to the full pairings, what resolving early would hold |
| `Bridge.RunFoldsAsIfResolvedEarly` | internal/bridge/lid.go:83-100 | over any truthful run of messages, conversations, learned pairings and folds, a last fold that knows all pairings leaves the messages and last times of a store that knew them from the start |
| `Bridge.BridgeFoldsAsIfResolvedEarly` | internal/bridge/events.go:196-226 | likewise for the fold with just the pairings the run itself has taught |
| `Bridge.RunStaysSane` | internal/bridge/events.go:101-110 | over any truthful run every message has its chat row, none is newer than it says, and every recorded pairing is true |
| `Bridge.FoldAfterAnyRun` | internal/bridge/lid.go:83-100 | so after any such run a fold conserves messages, leaves nothing resolvable and takes no contact's name off the screen, from no address and, under repeat deliveries of one payload, from no message |
| `Bridge.RedeliveryIsIdempotent` | internal/bridge/events.go:20-25 | delivering the same message event again changes no table and no pairing, whatever rowid a new row would take |
| `Bridge.ArrivalKeepsNames` | internal/store/ingest.go:82-120 | no truthful message takes a contact's name off the screen, through the contact or the recorded pairing |
| `Bridge.Bridge.PhoneJID` | internal/bridge/lid.go:21-44 | filling the cache never changes what is known |
| `Bridge.Bridge.RememberLID` | internal/bridge/lid.go:56-64 | only a LID paired with a phone address is learned, bare on both sides |
| `Bridge.Bridge.Resolve` | internal/bridge/lid.go:88-100 | the closure given to the fold answers as the sound resolver does |
| `Bridge.Bridge.Learn` | internal/bridge/events.go:121-133 | what a message says of its sender and of its chat reaches cache and table: the sender's LID in exact and bare form, then the chat's, the later one winning |
| `Bridge.Bridge.NameSender` | internal/bridge/events.go:143-151 | a push name goes to the sender and to the paired phone contact, never for our own sends |
| `Bridge.Bridge.IngestMessage` | internal/bridge/events.go:111-152 | the ordered writes are one step of the run, under the pairings known after this very message |
| `Bridge.Bridge.IngestConversation` | internal/bridge/events.go:204-209 | a history conversation is written under its canonical address |
| `Bridge.Bridge.FoldLIDs` | internal/bridge/lid.go:83-100 | the fold runs with exactly the pairings known and returns its counters |
| `Text.WhiteSpaceIs` | internal/store/query.go:337-338 | white space is exactly the characters with that Unicode property |
| `Text.OccursMeans` | internal/mcpserv/banner.go:31-34 | an occurrence is the marker standing in the text at that place |
| `Text.ReplaceAllAtFirst` | internal/mcpserv/banner.go:31-34 | replacement keeps the text before the first occurrence, exchanges it, and treats the rest alike |
| `Text.FieldsSpellTheQuery` | internal/store/query.go:337-338 | the tokens are non-empty, free of white space, and together spell every other character of the query |
| `Text.FieldsOfJoinedWords` | internal/store/query.go:337-338 | words joined by spaces come apart into the same words, so none is cut or merged |
| `Text.FtsPhrase` | internal/store/query.go:323-344 | the loop builds the quoted tokens in order, separated by spaces |
| `Text.QueryReadsBackAsItsWords` | internal/store/query.go:323-336 | read by the rules of section 3.1 of the SQLite FTS5 documentation the query is exactly its words as strings, for every input, with no operator |
| `Text.SafeHoldsNoMarker` | internal/mcpserv/banner.go:19-32 | after replacement the closing marker occurs nowhere, not even across the edge of a replacement |
| `Text.BannerClosesOnce` | internal/mcpserv/banner.go:24-34 | for every payload the closing marker occurs in the output exactly once, at the very end |
| `Text.BannerKeepsCleanPayload` | internal/mcpserv/banner.go:24-34 | a payload without the marker is passed through unchanged |
| `Mentions.MentionNameOrder` | internal/store/mentions.go:52-88 | a token is named by the contact on the LID, else on the mapped phone address, else on the digits as a phone address, else by the mapped number |
| `Mentions.FlatHasNoTab` | internal/store/mentions.go:52-54 | a name is flattened tab for space and otherwise unchanged |
| `Mentions.CharacterClasses` | internal/store/mentions.go:14-14 | the expression's digits and white space are the ASCII ones |
| `Mentions.ShortAndInnerTokensStay` | internal/store/mentions.go:8-14 | what is shorter than five digits, or stands inside a word, is no token |
| `Mentions.PiecesSpellTheText` | internal/store/mentions.go:8-14 | cutting a text into tokens and characters loses nothing, and only tokens of five digits or more at the start or after white space are cut out |
| `Mentions.TokenIsCutOut` | internal/store/mentions.go:8-14 | every such token after white space is found, wherever it stands |
| `Mentions.EveryTokenIsNamed` | internal/store/mentions.go:16-22 | it is shown as @ and its name, or as it arrived when it has none, and the text before it reads as if it were alone |
| `Mentions.FirstTokenIsNamed` | internal/store/mentions.go:8-14 | so is a token at the very start |
| `Mentions.UnnamedStay` | internal/store/mentions.go:16-20 | tokens nobody can name stay as they arrived |
| `Mentions.ResolveMentions` | internal/store/mentions.go:30-50 | with any true cache the rewrite is the uncached one, and the cache stays true |
| `Mentions.ResolveMentionRows` | internal/store/mentions.go:20-28 | one cache for a whole batch rewrites each row as if alone, and changes nothing but the text |
| `ReadReceipts.SendersInOrder` | internal/mcpserv/send_tools.go:349-369 | the senders are distinct, and are exactly those of the ids |
| `ReadReceipts.SenderOrderFollowsIds` | internal/mcpserv/send_tools.go:349-352 | they come in order of first appearance: a longer request only appends senders |
| `ReadReceipts.IdsOfIsTheFilter` | internal/mcpserv/send_tools.go:349-369 | each id is in its author's group as often as it was given, and in no other |
| `ReadReceipts.IdsKeepTheirOrder` | internal/mcpserv/send_tools.go:361-366 | and in the order they were given |
| `ReadReceipts.GroupBySender` | internal/mcpserv/send_tools.go:353-369 | the loop is the stable partition by sender, or fails on the first id nobody sent |
| `Paging.ClampsTouchOnlyOutOfRange` | internal/store/query.go:21-48 | a limit and a context are unchanged if and only if in range, and otherwise go to the nearest bound, a missing limit to the default |
| `Paging.TimelineIsTheChat` | internal/store/query.go:258-265 | the timeline is the chat's rows, each once, strictly ordered by (ts, id) |
| `Paging.IdOrderIsLexicographic` | internal/store/query.go:258-265 | ids compare at their first difference, the shorter first |
| `Paging.TimelineRunsForward` | internal/store/query.go:258-265 | time runs forward along the timeline and ids decide within one second |
| `Paging.PagesLieOnTheirSide` | internal/store/query.go:280-321 | a scroll-up page holds strictly earlier rows of the chat only, a refresh strictly later ones |
| `Paging.RecentIsTheEnd` | internal/store/query.go:266-278 | a fresh load is the end of the timeline |
| `Paging.BeforeIsTheStretchBefore` | internal/store/query.go:303-321 | a scroll-up page is the stretch of the timeline right before the cursor |
| `Paging.SinceIsTheStretchAfter` | internal/store/query.go:280-301 | a refresh is the stretch right after it, whether or not the cursor is a row |
| `Paging.ScrollingUpIsExact` | internal/store/query.go:303-308 | a load and any scroll-ups, of any sizes, show an end of the timeline with no gap and no repeat |
| `Paging.ScrollingUpReachesTheStart` | internal/dashboard/api.go:108-119 | one request per row at most shows the whole chat |
| `Paging.PageSizeTellsWhatIsLeft` | internal/dashboard/api.go:115-117 | a page is short exactly when fewer older rows than the limit are left |
| `Paging.RefreshingIsExact` | internal/dashboard/api.go:64-82 | any refreshes from a cursor append everything newer, in order, once |
| `Paging.ContextIsASlice` | internal/store/query.go:390-429 | the window is one contiguous stretch around the message, cut short only at the ends; an unknown id is an error |
| `Paging.ReverseMessages` | internal/store/query.go:431-435 | the in-place loop reverses |
| `Paging.RecentMessages` | internal/store/query.go:266-278 | select newest-first, then reverse in place, is the fresh load |
| `Paging.OlderMessages` | internal/store/query.go:309-321 | likewise the scroll-up page |
| `Paging.MessagesAround` | internal/store/query.go:394-429 | reversing the older half in place and joining the parts is the window |
| `Polling.MatchesMeans` | internal/store/query.go:640-660 | no chat means every chat, and our own sends count only when asked for |
| `Polling.MessagesAfterRowID` | internal/store/query.go:640-684 | the scan loop returns the page and the cursor of its last row, or the old cursor |
| `Polling.PageIsASpan` | internal/store/query.go:640-646 | a page is exactly the matching rows between the cursor given and the cursor returned |
| `Polling.ArrivalIsSeenIffSafe` | internal/store/migrate.go:36-45 | for every table and cursor a matching arrival is still to come for a poll if and only if the cursor is 0 or some row at or past it is still there |
| `Polling.UpdateIsSeenIffAhead` | internal/store/fold.go:103-108 | for every table and cursor a row that an update makes match is still to come for a poll if and only if its rowid lies past the cursor |
| `Polling.NothingIsSkippedIffSafe` | internal/store/query.go:644-646 | over any chain of inserts, updates, deletes and polls, no matching row is passed over at any point if and only if every arrival and every update is safe when it comes |
| `Polling.PollingIsExact` | internal/store/query.go:640-646 | whatever happens, reports come in rowid order and no rowid twice; while the events are safe, the rowids matching since the start are exactly the reported ones that are live and match, in order of report, and those after the cursor |
| `Polling.InsertsAloneAreExact` | internal/store/query.go:644-646 | from a safe cursor on, with inserts and polls only, every event is safe and the report with what follows the cursor is every matching row since the start, row for row |
| `Polling.UpdateInPlaceIsSafe` | internal/store/ingest.go:40-44 | an update of a row that matched already, as a redelivery is, skips nothing |
| `Polling.ShortPollHasEverything` | internal/store/query.go:640-646 | while the events are safe, once a call comes back short every matching row in the table is known |
| `Polling.TailPositionsTheCursor` | internal/store/query.go:526-557 | exactly the newest n matching rows follow the tail cursor, all of them when there are fewer |
| `Polling.UnsafeArrivalIsLost` | internal/store/migrate.go:36-45 | an arrival that is not safe is reported by no later poll, whatever happens afterwards |
| `Polling.DeleteHidesAnArrival` | internal/store/fold.go:111-113 | for every caught-up cursor, deleting the newest row makes the next arrival one of those |
| `Polling.UpdateBehindIsLost` | internal/store/fold.go:103-108 | a row changed at or behind the cursor is reported by no later poll, whatever happens afterwards |
| `Polling.FoldHidesAMessage` | internal/store/fold.go:103-108 | with nothing deleted and every insert safe, the fold moves a message into a polled chat where no poll ever reports it |

## Left out

- The limiter's floating-point arithmetic: it is an exact token bucket here.
- Token and id generation (hash, nonce, a failing random source): fresh values are parameters.
- Preview and summary wording: the rendered preview is a parameter.
- What the send returns: a draft stays consumed either way, and the runner removes the entry either way, so the outcome changes nothing modelled. Errors from the bridge are taken never to be the rate-limit error.
- A crash between a delivery and the removal of its entry: the code promises nothing there.
- The schedule file's encoding, parse errors and file system steps: whether a write works is a parameter, and a file that cannot be read or parsed is not modelled.
- The runner's sleeping and wake-up channel: its loop is driven by a finite script of clock readings, cancellations and answers. Ties in fire time may be listed in any order.
- Runner.RunSchedules: takes no entries added while it runs; those are covered by the runs of `SendRun`.
- SQL errors and rolled-back transactions: a transaction is one step. The order in which a statement visits rows is arbitrary.
- Parsing of addresses: they are strings of user, optional device and server; addresses that do not parse are not modelled.
- Call ingest, contact and push-name events, receipts and group renames: one upsert each under the resolved address. The loop of a history sync is not a method; its writes are the run's conversation, message and fold events, in any order.
- FoldTheorems.FoldLateEqualsResolveEarly: does not compare row ids, read times, stored chat names or the group and archived flags, for the reason given next.
- Bridge.RunFoldsAsIfResolvedEarly: does not compare row ids, read times, stored chat names or the group and archived flags, on which late and early can differ by order of arrival.
- Message decoding, unwrapping and the skipping of stubs: what a message says is a parameter.
- Mention names are looked up in the tables as they are when the batch starts; writes during a batch are not modelled.
- Paging.ContextIsASlice: names some row with the id; that it is the only one follows from the primary key.
- The poll tool's waiting and its rendering, and the variant scoped to some chats.
- NUL bytes inside a search query, which the index's reader stops at.
- Chat scope, trust lists, accounts, authentication, media, time windows, the dashboard's routing and pages: mostly single tests or foreign code.
