# EchoForge-AI credit ledger, modelled in Dafny

EchoForge-AI is a Telegram text-to-speech bot that sells its service for credits. Users
start with 10 credits. They earn more through referral codes, owner grants and confirmed
payments, and they spend 0.05 credits per word of synthesised text. This project models
the bookkeeping behind those credits and proves what the bot promises about it.

Two modules of the core have no caller in the shipped bot; the model covers them all the same:

- free_credit.py: the "Free Credit" button now answers with the user's referral link (main.py:1353-1368), and no file calls `on_free_credit_button`, `check_daily_limit` or `get_user_credit_stats`. Only the claim of an already minted reward link stays reachable, through `/start credit_…` (main.py:572-577).
- credit_history.py: main.py never imports it, and no file calls `log_credit_history`.

The model has one module per source file of the core:

- `Database` (database.py) holds the row types and their column defaults.
  - The class `BotDb` holds every table the credit logic touches.
  - Also here: `get_setting`, `update_setting` and the default-settings initialisation of `create_tables`.
  - A ghost predicate `Reconciled` reads the users table as a ledger: every balance is 10 plus the user's logged transactions.
- `CreditHistory` (credit_history.py) is the separate history log and its per-user summary rows.
  - The class `CreditHistoryDb` keeps the invariant that every summary row equals the fold of `ApplyEntry` over that user's log.
- `Referral` (referral_system.py) covers:
  - `ref_<id>` codes and links;
  - the checks and the two-sided 20/15 bonus of `process_referral`;
  - the referrer statistics.
- `FreeCredit` (free_credit.py) covers:
  - random payloads;
  - issuing a reward link, by reusing an active one or minting one;
  - claiming it once for 10 credits;
  - the daily counters.
- `Handlers` (main.py) covers `get_user_from_db`, `log_credit_transaction` and the credit-bearing conversation branches:
  - the `/start` routing and its referral window;
  - payment confirm and cancel;
  - the TTS debit;
  - give-credit to one user and to all users;
  - the settings inputs;
  - the payment amount and transaction id entry.
  - The global `user_states` dictionary is the class `Conversations`.
- `MessageDeletion` (message_deletion.py) covers:
  - message types and deletion delays;
  - the keyword classifier and the callback-context grouping;
  - the service's task map, running flag and tracking rows.
- `Common` stands for the Python built-ins the code relies on: `str.replace(p, "")`, `startswith`, `strip`, `split`, `lower`, slicing, `int()` on strings and floats, `float()` on plain decimals, and `str(int)`.

Credits are `real`, and times are integer seconds passed in as `now`. Everything the
code gets from outside is a parameter:

| parameter | stands for |
|---|---|
| `draw` | the random choices of a payload |
| `shorten` | the shortener service |
| `audioProduced` | the synthesiser's success |
| `deletable` | whether Telegram deletes a message |
| `confirmationDeleted` | whether the confirmation message could be deleted |
| `storeFails` | a database error at an operation's commit, which the source rolls back |
| `lookupFails` | a database error in `get_user_from_db`'s own session, at its query or its insert |
| `statusFails`, `creditFails`, `bonusFails`, `debitFails`, `requestFails`, `logFails` | a database error at one named commit of a handler that commits more than once |
| `queryFails` | a failed table probe or query in a read-only report |
| `tablesMissing` | the failed table probe of `on_free_credit_button` |

Each state-changing handler is a method whose `ensures` gives the whole new state in
terms of the old one. The properties proved about those states are stated over pure
functions of the tables: `ReferralDecisionAsWritten`/`ApplyReferral`, `ClaimDecision`/`ApplyClaim`,
`SettingUpdate`, `WithDefaults`, `LogStepAsWritten`/`SummaryOf` and `CleanupTargets`.

The operations follow the code as written, including where it departs from what its messages, comments and names suggest:

- `log_credit_history` stores nothing for a user without a summary row, so from an empty history database it never stores anything (see Findings). `LogCreditHistoryZeroed` is the corrected operation.
- A referrer's second referral fails at commit on the unique `referral_code` column (see Findings).
- A TTS result is stored with its deletion due at once and no task, since its delay is 0. The periodic cleanup (message_deletion.py:349-400), which the model leaves out, deletes every undeleted overdue row, TTS results included, although the delay table's comment at message_deletion.py:56 says they are never deleted.
- A reward-link claim credits the user of the first assignment of the link, not the user who clicked: `on_credit_link_click` receives only the payload, so when a link was handed on to a second user (free_credit.py:150-170), that user's click pays the first (`ReusedLinkPaysFirstAssignee`).
- When the session of `get_user_from_db` fails, the handler goes on with an unsaved user holding 10 credits, even for a stored user (main.py:180-186). The TTS branch then checks the cost against those 10 credits and debits the stored row, which can go below zero (`TtsLookupErrorOverdraws`). A `ref_` parameter then meets a user without a join date, and the window check raises.
- The TTS debit and both give-credit branches log no credit transaction.
- A credit transaction has no id and no before or after balance.
- `message_deletion.py` imports a `MessageTracking` table that `database.py` does not define. So the import at message_deletion.py:14 raises `ImportError`, and since main.py never imports the module, the deletion service never runs as shipped. The model describes what the service would do if the table existed, with its columns taken from how the service uses them.

## Model

| member | source | states |
|---|---|---|
| Database.NewUser | database.py:42-45 | a new user row has 10.0 credits, is active, is not banned, and carries its join date |
| Database.NewPaymentRequest | database.py:122-132 | a new payment request is pending and not yet verified, with the given user, amount and credits |
| Database.NewUserLink | database.py:154-162 | a new link assignment has `creditgiven` false and no credit time |
| Database.BotDb.constructor | database.py:250-253 | every table starts empty, both id counters start at 1, and `Valid()` holds: users keyed by their own id, both counters above every id handed out, unique link ids and payloads |
| Database.CreditAndLogKeepsReconciled | database.py:101-109 | adding an amount to one balance and logging it as one transaction keeps every balance equal to 10 plus the user's logged amounts |
| Database.GetSetting | database.py:164-188 | the stored value when the name is non-empty and the row has a value; the default otherwise |
| Database.UpdateSetting | database.py:190-233 | returns true exactly when `SettingUpdate` succeeds; the table becomes its result, or stays unchanged |
| Database.UpdateSettingRejects | database.py:193-218 | the update is refused iff the name is empty, the value is non-numeric, or a long name's 100-character form is already taken |
| Database.SettingRoundTrip | database.py:174-179 | after a successful update of a name of at most 100 characters, `get_setting` returns the new value; every other name reads as before |
| Database.UpdateSettingDescription | database.py:204-210 | an existing row keeps its description unless a non-empty one is given, which is cut to 500 characters |
| Database.LongNameIsNotReadBack | database.py:211-216 | a new name over 100 characters is stored under its prefix, so `get_setting` with the full name returns the default |
| Database.WithDefaultsProperties | database.py:305-318 | the defaults loop never overwrites a stored setting; every default name is present afterwards; every added key is a default name |
| Database.WithDefaultsComplete | database.py:305-318 | when every default name is stored, the loop inserts nothing |
| Database.InsertDefaults | database.py:305-318 | the loop leaves the table as `WithDefaults` and returns how many defaults were missing |
| Database.CreateTables | database.py:273-339 | the QR defaults, missing settings and bot status are each inserted only when absent; the result is true iff anything was created |
| Database.CreateTablesIdempotent | database.py:305-339 | a second initialisation over an existing schema changes nothing and returns false |
| CreditHistory.NewSummary | credit_history.py:41-53 | the row the corrected operation creates: zero totals, as the column defaults intend, and `first_transaction` set to now |
| CreditHistory.ApplyEntry | credit_history.py:99-120 | one entry: count +1; balance := `balance_after`; `first_transaction` kept; a credit adds to `total_earned` and to the one bucket its source names; anything else adds its absolute value to `total_spent`, and to `spent_tts` for `tts_usage` |
| CreditHistory.ApplyEntryKeepsBounds | credit_history.py:105-120 | non-negative buckets whose sum is at most `total_earned`, and `spent_tts` at most `total_spent`, stay so after an entry |
| CreditHistory.SummaryOfTotals | credit_history.py:70-129 | the fold invariant: a row exists iff the user has entries; it counts them, carries the last balance and the first time, and its earned and spent totals equal the sums of the positive and the other amounts, bounding the buckets |
| CreditHistory.ChainedBalance | credit_history.py:70-86 | when callers chain their balances, the current balance equals the opening balance plus earned minus spent |
| CreditHistory.UnchainedEntryIsStored | credit_history.py:77-101 | an inconsistent `balance_after` is stored as the current balance unchecked |
| CreditHistory.AppendKeepsFold | credit_history.py:91-127 | appending an entry and applying it to its user's row keeps every row equal to the fold of the log |
| CreditHistory.UpdateSummary | credit_history.py:99-120 | the field-by-field update of a summary row computes `ApplyEntry` |
| CreditHistory.LogStepAsWritten | credit_history.py:91-127 | one call as written: a user without a row changes nothing; otherwise the entry and the row update are stored together, exactly when the commit succeeds |
| CreditHistory.AsWrittenNeverLogs | credit_history.py:93-100 | as written, from an empty summary table no run of calls ever stores an entry or creates a row |
| CreditHistory.FirstEntryDroppedAsWritten | credit_history.py:93-100 | as written, a user's first credit into a new store is dropped, while the zero-started fold records it with count 1 |
| CreditHistory.CreditHistoryDb.constructor | credit_history.py:18-54 | empty log and summaries, with the fold invariant |
| CreditHistory.CreditHistoryDb.LogCreditHistory | credit_history.py:70-129 | as written: the tables become `LogStepAsWritten` of the old ones, so a user without a summary row gets nothing stored; the fold invariant is kept |
| CreditHistory.CreditHistoryDb.LogCreditHistoryZeroed | credit_history.py:70-129 | corrected: on commit the entry is appended and the user's row, created with zero totals if absent, is updated by `ApplyEntry`; on a reused transaction id or a store error nothing changes; the fold invariant is kept |
| CreditHistory.CreditHistoryDb.GetUserCreditSummary | credit_history.py:145-155 | the stored row is the fold of the log, with the entry count and earned sum |
| Referral.CreateUserReferralCode | referral_system.py:5-7 | the code is `ref_` followed by at least one character |
| Referral.GetUserReferralLink | referral_system.py:9-14 | the link is the bot's `?start=` deep link ending in the code, and the code is returned with it |
| Referral.ReferralCodeRoundTrip | referral_system.py:72-78 | a user's code parses back to that user's id |
| Referral.ReplaceRemovesEveryOccurrence | referral_system.py:76 | `ref_1ref_2` parses to 12, because every `ref_` is removed |
| Referral.ReferralAccepted | referral_system.py:72-100 | accepted iff: `ref_` prefix; an integer remainder naming an active unbanned user other than the new one; the new user not yet referred |
| Referral.ReferralEffects | referral_system.py:103-140 | referrer +20, referred +15 only when that row exists, no other balance touched, one or two transactions appended, exactly one claimed record worth 20 |
| Referral.ReferralKeepsReconciled | referral_system.py:103-131 | an accepted referral keeps the ledger reconciled |
| Referral.ReferredOnlyOnce | referral_system.py:95-100 | after an accepted referral, every later referral of the same user is rejected |
| Referral.ReferralsUnlimited | main.py:1023 | after one accepted referral, the same code is accepted for a further unreferred user |
| Referral.ProcessReferral | referral_system.py:67-157 | each rejection returns its message and changes nothing; an accepted referral whose code is already stored, or a store error, returns "Error processing referral" and changes nothing; otherwise the tables become `ApplyReferral` and the reply carries 20, 15 and the names |
| Referral.CommitReferral | referral_system.py:103-157 | the staged writes are committed together as `ApplyReferral`, or all rolled back when the code is already stored or the store fails |
| Referral.ReferralDecisionAsWritten | referral_system.py:133-155 | as written, the intended decision with one change: an accepted referral whose code is already stored becomes "Error processing referral"; a fresh accepted code is accepted, and every rejection keeps its reason |
| Referral.SecondReferralFailsAsWritten | referral_system.py:133-142 | as written, a second referral by the same referrer fails at commit although all checks accept it |
| Referral.SecondReferralExample | referral_system.py:133-155 | with users 1, 2 and 3, the code as written accepts 1 referring 2 through `ref_1`, and then rejects 3 through the same code |
| Referral.ClaimedBy | referral_system.py:21-24 | exactly this referrer's claimed records: each one kept is such a record of the log, and every such record of the log is kept |
| Referral.ClaimedByConcat | referral_system.py:21-24 | the filter keeps log order: filtering two stretches in turn gives the filter of both |
| Referral.ClaimedBySingleton | referral_system.py:21-24 | one record is kept exactly when it is a claimed record of the referrer |
| Referral.RecentClaimed | referral_system.py:34-37 | the five newest claimed records of the referrer (all of them when fewer), newest first |
| Referral.DisplayName | referral_system.py:44 | `first_name or 'Unknown'`: a present non-empty name, else "Unknown", never empty |
| Referral.Listed | referral_system.py:40-48 | at most one entry per record, never with an empty name; when every referred user exists, one entry per record in order, with its name, date and credits |
| Referral.GetUserReferralStats | referral_system.py:16-65 | the code; the count and the credit sum of the claimed records; the listed referred users of the five newest; zeros and no users when a query fails |
| FreeCredit.AlphabetIsAlphanumeric | free_credit.py:10 | the alphabet is the 62 ASCII letters and digits |
| FreeCredit.GenerateRandomPayload | free_credit.py:8-10 | the payload has the requested length, and each character is an ASCII letter or digit chosen by the draw |
| FreeCredit.StartParamRoundTrip | free_credit.py:179 | a payload's `credit_` start parameter reads back as the payload |
| FreeCredit.FirstUnusedFrom | free_credit.py:152-157 | the first active link not assigned to the user, or none exists |
| FreeCredit.AssignedLinkNotReoffered | free_credit.py:152-170 | a link once assigned to a user is never offered to that user again |
| FreeCredit.AssignmentIsPerUser | free_credit.py:152-170 | an assignment to one user leaves every other user's offer unchanged |
| FreeCredit.OnFreeCreditButton | free_credit.py:136-227 | missing tables → setup message, nothing stored; reuse adds exactly one assignment and no link; shortener failure persists nothing; minting adds one active link expiring in 600 s and one assignment; a commit failure persists nothing |
| FreeCredit.LinkFor | free_credit.py:237-242 | the first active link with this id and payload, or none |
| FreeCredit.ClaimRowFrom | free_credit.py:237-242 | the first assignment whose link matches the payload, or none |
| FreeCredit.ClaimedUser | free_credit.py:237-260 | a claim has a user exactly when a matching assignment exists, and it is the user of the first assignment whose link matches the payload |
| FreeCredit.ClaimOnce | free_credit.py:253-276 | after a credited claim, the same payload is never credited again; before expiry it is answered "already claimed" |
| FreeCredit.ClaimKeepsReconciled | free_credit.py:257-279 | a claim adds exactly 10, sets `creditgiven` and `creditedat`, logs one transaction and keeps the ledger reconciled |
| FreeCredit.ReusedLinkPaysFirstAssignee | free_credit.py:237-276 | when a link is assigned to A and then B, B's click credits A, and B is answered "already claimed" afterwards |
| FreeCredit.OnCreditLinkClick | free_credit.py:229-288 | outcomes: no row → invalid, expired, already claimed, user not found, each changing nothing; store error → error reply, nothing changed; otherwise `ApplyClaim` |
| FreeCredit.TodayStart | free_credit.py:303 | the day's start is at most `now` and less than a day before it |
| FreeCredit.TodayAtMostTotal | free_credit.py:303-313 | today's credited links are at most all credited links |
| FreeCredit.CreditedSinceMark | free_credit.py:257-260 | crediting one assignment at now adds one to its user's count from any time up to now, and nothing to other users |
| FreeCredit.ClaimCountsOnce | free_credit.py:257-260 | a credited claim raises its user's today and total counts by exactly one and leaves everyone else's unchanged |
| FreeCredit.CheckDailyLimit | free_credit.py:290-323 | the limit is reached iff the queries succeed and at least 3 links of the user were credited since midnight |
| FreeCredit.ThirdClaimReachesLimit | free_credit.py:303-313 | below the limit, the claimant's next credited claim today reaches it iff two were already credited today; a claim by someone else never does |
| FreeCredit.GetUserCreditStats | free_credit.py:325-392 | today's and the total credited counts of the user (0 when a query fails); today ≤ total; limit 3; remaining is `max(0, 3 - today)` and is 0 iff the limit is reached; the balance is the user's or 0 |
| Handlers.Conversations.constructor | main.py:36 | `user_states` starts empty |
| Handlers.UserLookup | main.py:161-192 | an invalid id or a failed session → an unsaved user with 10 credits and no join date, nothing stored; otherwise an existing user is returned unchanged and a missing one is created with the defaults; no other row changes |
| Handlers.GetUserFromDb | main.py:161-192 | the store changes as `UserLookup` says |
| Handlers.TransactionRow | main.py:233-262 | refused iff the id is non-positive, the amount non-numeric or the type empty; otherwise type cut to 50, description to 200, an empty description stored as NULL |
| Handlers.LogCreditTransaction | main.py:233-262 | returns true iff a row is written, and then appends exactly that row |
| Handlers.CreditAndLogRowKeepsReconciled | main.py:250-256 | crediting a user and logging it through `log_credit_transaction` keeps the ledger reconciled |
| Handlers.AddCredits | main.py:2166-2169 | only the named user's balance changes, by the amount |
| Handlers.UnloggedChangeBreaksReconciled | main.py:2108-2116 | a non-zero balance change with no logged transaction breaks the reconciliation |
| Handlers.RewardLinkRoutesToClaim | main.py:572-578 | a minted link's start parameter routes to the claim of its own payload |
| Handlers.ReferralCodeRoutesToReferral | main.py:579-581 | a referral code routes to the referral processor, which reads its referrer back |
| Handlers.FreshUserIsNew | main.py:584 | a user created by this `/start` is inside the 5-minute window; one who joined 300 s ago or earlier is not |
| Handlers.StartCommand | main.py:563-609 | user looked up first, in its own session; `credit_` claims its token; `ref_` is processed as written only inside the window, with the rejection message or the success details of `process_referral` passed on, and a user without a join date, as after a failed lookup, raises; anything else changes nothing more |
| Handlers.CallbackDataRoundTrip | keyboards.py:177-178 | the payment buttons' data parses back to the payment id |
| Handlers.ConfirmPayment | main.py:1543-1597 | bad id or non-pending → nothing changes; a failed status commit → nothing changes; otherwise confirmed with `verified_at`, then credits added when the user exists unless that second commit fails, and the `purchase` row logged unless its own commit fails |
| Handlers.CancelPayment | main.py:1599-1641 | bad id, non-pending or a failed commit → nothing changes; otherwise cancelled with `verified_at`, and no balance changes |
| Handlers.PaymentSettledOnce | main.py:1551-1555 | a settled request is no longer pending, and no other request changes status |
| Handlers.ConfirmKeepsReconciled | main.py:1558-1564 | a confirmation for an existing user keeps the ledger reconciled |
| Handlers.TtsCost | main.py:2052-2053 | the cost of a text is non-negative |
| Handlers.TtsCostBounds | main.py:2041-2053 | an accepted text costs between 0.05 and 150 credits |
| Handlers.TtsText | main.py:2034-2147 | too long or empty → refused; owner never charged; a balance below the cost, as read by the lookup (10 after a failed one), → refused without debit; debit exactly the cost only after audio, unless its commit fails; the request row stored unless either commit fails; state cleared |
| Handlers.ChargeTts | main.py:2108-2136 | the debit, when the row exists, commits before the request row; a failed debit skips the row, a failed row keeps the debit |
| Handlers.TtsChargeKeepsBalanceNonNegative | main.py:2056-2061 | when the lookup read or created the real row, the debit after the balance check leaves the balance non-negative |
| Handlers.TtsLookupErrorOverdraws | main.py:178-186 | after a failed lookup, a stored balance below a cost of at most 10 passes the check, and the debit takes it below zero |
| Handlers.GiveCreditUserId | main.py:2150-2157 | a parsed id moves the conversation on to the amount; anything else ends it |
| Handlers.GiveCreditAmount | main.py:2159-2177 | a parsed amount is added only to an existing target; nothing is logged; state cleared, except after a failed commit, which changes nothing and keeps it |
| Handlers.AddToEveryUser | main.py:2185-2190 | every user gets the amount added, and the count is the number of users |
| Handlers.GiveCreditAll | main.py:2179-2196 | a parsed amount is added to every user, and the count of users is reported; nothing logged; a failed commit changes nothing and keeps the state |
| Handlers.SettingInput | main.py:2416-2572 | an unparsable or out-of-range value changes nothing; otherwise `update_setting` stores it; state cleared |
| Handlers.SettingInputReadBack | main.py:2536-2554 | an accepted setting reads back; an accepted maximum stays above the minimum |
| Handlers.CreditsFor | main.py:2587 | `int(amount * rate)` is the truncation of the product |
| Handlers.PaymentAmountInput | main.py:2574-2636 | accepted iff `min <= amount <= max` (defaults 10 and 100); then the credits wait in the state as `int(amount * rate)` |
| Handlers.TransactionIdInput | main.py:2638-2805 | a pending request is stored under the next id, which no stored request has; a 10-credit patience bonus is added when the confirmation was deleted, the user exists and its commit succeeds, and logged unless the log fails; a store error at the insert changes nothing and keeps the state |
| MessageDeletion.NameRoundTrip | message_deletion.py:20-41 | type names and types correspond one to one |
| MessageDeletion.Timing | message_deletion.py:50-62 | the table's delay is 0 exactly for TTS results and permanent messages, and 30 for unlisted names |
| MessageDeletion.DeleteAfterChoice | message_deletion.py:133 | a truthy custom delay wins; a custom 0 falls back to the table |
| MessageDeletion.Classify | message_deletion.py:442-496 | empty text is `info`; the result is always a listed, non-permanent type |
| MessageDeletion.ClassifyByGroups | message_deletion.py:459-496 | the classifier tries payment, admin or owner, error, status, prompt, welcome, help, tts, menu or callback, in that order |
| MessageDeletion.ClassifyPriority | message_deletion.py:459-496 | the type of group k iff group k matches and no earlier one does; `info` iff none matches |
| MessageDeletion.PaymentBeforeOwner | message_deletion.py:460-465 | payment keywords win; otherwise an owner's message is admin |
| MessageDeletion.ClassifyIgnoresCase | message_deletion.py:457 | a lower-cased text is classified like the original |
| MessageDeletion.ContextFromCallback | message_deletion.py:498-535 | empty data is `general`, and the result is one of the seven contexts |
| MessageDeletion.ContextPriority | message_deletion.py:508-535 | the context of prefix group k iff it matches and no earlier group does; `general` iff none matches |
| MessageDeletion.PaymentButtonsInPaymentFlow | message_deletion.py:510-512 | confirm and cancel payment buttons belong to the payment flow |
| MessageDeletion.TaskKeyInjective | message_deletion.py:153-159 | distinct messages never share a task key |
| MessageDeletion.PlanTracking | message_deletion.py:89-133 | a bare id without a chat id is refused; permanent is acknowledged without storage; otherwise chat and delay come from the message and the timing rule, and the user is the given one when truthy, else the sender when there is one |
| MessageDeletion.TrackingSchedules | message_deletion.py:127-159 | a listed non-permanent type is stored, and is scheduled iff its delay is positive |
| MessageDeletion.NewRow | message_deletion.py:137-151 | a tracked row is pending, scheduled at now plus its delay |
| MessageDeletion.ResolvedType | message_deletion.py:538-582 | a given type is used as is; a classified or default type is never permanent |
| MessageDeletion.MarkDeleted | message_deletion.py:294-295 | the row is marked deleted at now, and its identity is kept |
| MessageDeletion.DeletedPlusPending | message_deletion.py:402-426 | deleted plus pending equals the total tracked |
| MessageDeletion.MarkOneRow | message_deletion.py:294-295 | marking a pending row moves one row from pending to deleted |
| MessageDeletion.CancelLeavesPending | message_deletion.py:239-273 | cancelling takes one row out of pending when the message's row was pending |
| MessageDeletion.CancelRow | message_deletion.py:239-273 | the message's first row, if any, becomes processed with the error "Deletion cancelled"; every other row is unchanged |
| MessageDeletion.MarkRelated | message_deletion.py:209-237 | every related row is marked deleted and every other row is unchanged |
| MessageDeletion.RelatedCount | message_deletion.py:219-223 | the rows selected are pending ones, so they number at most the pending rows |
| MessageDeletion.MarkRelatedPending | message_deletion.py:219-230 | deleting the related messages lowers the pending count by exactly the number selected |
| MessageDeletion.PendingFor | message_deletion.py:637-640 | exactly the user's undeleted rows, oldest first |
| MessageDeletion.KeepLastN | message_deletion.py:637-643 | for N ≥ 0 the newest N undeleted messages are kept and all the rest are targets, each older than every kept one; a negative N targets only the oldest -N |
| MessageDeletion.CleanupTargetsPending | message_deletion.py:637-643 | every target is an undeleted row of the user |
| MessageDeletion.ApplyCleanup | message_deletion.py:645-651 | exactly the targets Telegram deleted are marked |
| MessageDeletion.MarkTargets | message_deletion.py:645-651 | the deletion loop computes `ApplyCleanup` |
| MessageDeletion.CleanupStep | message_deletion.py:645-651 | one more target marks its row when its message is deleted |
| MessageDeletion.FinishRow | message_deletion.py:275-324 | only the task's row changes: deleted at now on success, the attempt time and the error on failure with the flag kept, nothing when cancelled |
| MessageDeletion.FinishLeavesPending | message_deletion.py:275-324 | a finished task lowers the pending count by one exactly when its pending row was deleted |
| MessageDeletion.DeletionService.constructor | message_deletion.py:66-75 | not running, no tasks, no rows, and `Valid()`: row ids below the counter and unique, tasks naming handed-out ids |
| MessageDeletion.DeletionService.Start | message_deletion.py:66-75 | the service is running afterwards |
| MessageDeletion.DeletionService.Stop | message_deletion.py:77-87 | the service stops and forgets every task |
| MessageDeletion.DeletionService.GetStats | message_deletion.py:402-426 | deleted plus pending equals total, and the task count and flag are reported |
| MessageDeletion.DeletionService.TrackMessage | message_deletion.py:89-176 | stored plan → one new row, and a task under its key iff the delay is positive; refused, permanent or store error → nothing changes |
| MessageDeletion.DeletionService.TrackForDeletion | message_deletion.py:538-582 | tracks under the resolved type as `TrackMessage` does |
| MessageDeletion.DeletionService.CancelDeletion | message_deletion.py:239-273 | the task key is removed, and the message's first row is marked cancelled |
| MessageDeletion.DeletionService.FinishScheduledDeletion | message_deletion.py:275-324 | the row records the outcome, and the task drops its own key |
| MessageDeletion.DeletionService.DeleteRelatedMessages | message_deletion.py:209-237 | all related rows are marked and the number the success log line reports is their count, or nothing changes and 0 is given when a deletion is refused or the commit fails |
| MessageDeletion.DeletionService.CleanupConversation | message_deletion.py:622-661 | the rows become `ApplyCleanup` over the keep-last-N targets, or stay unchanged on a store error |
| Common.IntRoundTrip | referral_system.py:75-78 | `int(str(n)) == n` |
| Common.DecimalOfInt | main.py:2576 | `float(str(n)) == n` |

## Left out

- Telegram I/O is not modelled: sending, editing and deleting messages, notifications to the owner and the channel, and keyboards. Only their effect on the tables is kept, and deletion success is a parameter.
- The `asyncio` timers, sleeps and task scheduling are not modelled, nor is the periodic cleanup loop of message_deletion.py (lines 349-400). Only the task map and the row updates at each step's end are kept.
- Concurrency is not modelled: the source has no locking, and each operation is modelled as one sequential step.
- IEEE floating point is not modelled: credits are exact reals. So `0.05 * words` and `int(amount * rate)` carry no rounding.
- Message texts and formatting are not modelled: replies are datatypes, and the rendering of numbers into messages is left out.
- `float()` with exponents, `inf`, `nan` or `_` separators, and `int()` with `_` separators, are not accepted by `ParseDecimal`/`ParseInt`. Neither accepts non-ASCII decimal digits either, which Python's `int()` and `float()` do (`int("१००") == 100`). The inputs here are typed by users, and the model treats those forms as invalid.
- `IsSpace` covers the Latin-1 whitespace of `str.isspace()` only, and `Lower` lower-cases ASCII letters only.
- `update_user_info` and every handler outside the named branches are not modelled: broadcast, statistics, backups, channel posts, reactivation.
- GetSetting: a database error returns the default (database.py:180-182); the model reads the stored table.
- UpdateSetting: a database error at the query or the commit returns False (database.py:220-227); that path is not modelled.
- CreateTables: the fallback `create_all` when the first one fails (database.py:258-266) and the rollback returning False when the defaults' commit fails (database.py:341-348) are not modelled. `CreateTables` takes the schema creation as the flag `tablesCreated`.
- The `get_stats` error path and the global-service `None` check of `track_message_for_deletion` are not modelled.
- The QR-code display and the voice and language choice of the TTS branch are not modelled. The stored request always records language `hi`, as the code does.
- Handlers.PurchaseDescription: the description text is exact only for amounts with no fractional part (`₹50.0`). A fractional amount's float rendering is not modelled.
- FreeCredit.OnFreeCreditButton: an error whose text contains "does not exist" is answered with a second setup message (free_credit.py:218-219); the model answers every commit error with the technical-error message.
- FreeCredit.GetUserCreditStats: when the balance query of the error path fails as well, the balance reported is 0.0 (free_credit.py:380-384); the model reports the stored balance.
- MessageDeletion.DeletionService.TrackMessage: a new task replaces the one under the same key without cancelling the old timer. Only the map entry is modelled.
- `call_shortener_api` (free_credit.py:12-134) is the oracle `shorten`.
- keyboards.py, web_server.py, tts_service.py, migrate_db.py and transaction_history.py are not part of this model. They are UI construction, HTTP endpoints, a wrapper over synthesis libraries, schema migration and read-only reports.
- main.py:2808-2823 uses names that are undefined in `handle_text` and is not modelled.
- Handlers.StartCommand: the ordinary welcome and QR flow after the routing of `start_command` are not modelled.

## Findings

| source | as written | input that shows it | evidently intended | confidence | as-written member | corrected member |
|---|---|---|---|---|---|---|
| credit_history.py:93-100 | the new summary row is built without totals; the zero column defaults apply only at insert and the session does not autoflush, so `total_transactions += 1` raises on `None` and the call rolls back | the first `log_credit_history` call for any user on an empty history database | the row starts from zero and the entry is stored | not executed | CreditHistory.AsWrittenNeverLogs | CreditHistory.CreditHistoryDb.LogCreditHistoryZeroed |
| database.py:117, referral_system.py:133-142 | `referral_code` is unique, but every referral made through the referrer's link stores the same `ref_<referrer>` code, so a referrer's second referral fails at commit with "Error processing referral" | user 1 refers user 2 with `ref_1`, then user 3 uses `ref_1` | unlimited referrals per referrer, as main.py:1023 and main.py:1538 promise | not executed | Referral.SecondReferralFailsAsWritten | Referral.ReferralsUnlimited |
