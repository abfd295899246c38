# Wallet wagering engine: verified model

A Dafny model of the transactional wagering service: wallets, wager transactions
(BET, WIN, LOSS, REFUND, ROLLBACK), an append-only ledger, an inbox, an outbox and
work items for operations whose reference has not arrived yet. `dafny verify
dfyconfig.toml` checks the whole project.

## How it is built

One committed SQL transaction is one step. `Engine` gives every step as a function
of the database before it, and `Run` plays any sequence of steps from the empty
database: opening wallets, submitting over HTTP or SQS (with a possibly stale inbox
read), re-evaluating dependents, claiming work and processing it with any claimed copy.

| files | content |
|---|---|
| Wrappers, Failures, Int64, Money, Canonical | results, codes, int64 words, money, canonical JSON |
| Domain, Tables, Engine | rules of the domain, the tables and their queries, the steps |
| Invariant, Sums, Settling, Resting, Opening, Steps | the database invariant and its preservation by every step |
| History, Guarantees, Frame, ExactlyOnce | what holds of every run |
| Decisions, Treatments | what Submit, OpenWallet, a worker and a re-evaluation decide, told by fields alone |
| Refinement | resuming against submitting inline |
| Waiting, Settlement | which parked operations settle, and after how many passes |
| Races, Scenario | the finer model in which resumes work from stale row copies, and two concrete races |
| Store, Bookkeeping, Accepting, Resuming, Service, Delivery | the service as it is written: statements that may fail, in-place updates, loops, commits; proved against the steps |
| Base64, LedgerReads | cursor coding, reconciliation and cursor pages |
| Outbox, Publishing, Broadcast | the outbox protocol, the publisher's loop, and both together with the engine |

The imperative part lets any statement fail and any answer to COMMIT get lost. The
constant `reliable` switches these faults off, so that each operation has two
contracts: with faults it commits nothing or the whole step, without faults it
commits the step.

## What the proofs found

* **Terminal states under stale copies.** A resume does not look at its row again after
  taking the wallet lock. In serial runs decided rows never change
  (`Guarantees.TerminalIsForever`). A resume from a copy read before the row was decided
  can change the outcome in both directions: a REFUND that one worker PROCESSED is
  overwritten as REJECTED with ALREADY_REVERSED (`Scenario.OutcomeIsOverturned`), and one
  that a worker gave up as REFERENCE_NOT_FOUND is PROCESSED after all once its BET is there,
  with a new ledger entry (`Scenario.RejectedIsRevived`). `Races.LateOverturnsIff` says, for
  every run and any number of transactions in between, exactly when the outcome changes and
  exactly when money moves. What survives in all of them is that no transaction has two
  entries and every balance is the sum of its ledger (`Races.MoneySurvivesRaces`).
* **Waiting without limit.** Only a missing reference has a TTL and an attempt limit; a
  reference that is itself parked is waited for forever. An operation that names itself
  is accepted and never settles (`Settlement.SelfReferenceParks`,
  `Settlement.CyclicWaitsForever`); everything else settles
  (`Settlement.SettlesIffAcyclic`).
* **The error budget is spent by one error only.** A failed statement aborts the
  transaction, so its retry bookkeeping cannot commit. In a sound database the one
  error that reaches it with a live transaction is a credit overflow
  (`Steps.ResumedKeepsInv`).

Where code and comments differ the model follows the code: a referenced WIN must equal
the BET's amount; dependents of other wallets are resumed in the same transaction and
not left to the worker; reference retries always use the first backoff step; the replay
of a FAILED transaction is reported as pending.

## Model

| member | source | states |
|---|---|---|
| Guarantees.Conservation | internal/wagering/accept.go:387-499 | After any run of opens, submissions, redeliveries, resumes and re-evaluations, each balance is the opening amount plus unreversed PROCESSED WINs minus unreversed PROCESSED BETs, and lies in 0..MaxInt64 |
| Guarantees.ConservationFromOpening | internal/wagering/wallet.go:15-98 | The same sum, from the text the wallet was opened with, at every later point of every run |
| Guarantees.ReversalMarksAreExact | internal/wagering/work.go:246-253 | `t` carries the mark of `r` if and only if `r` is a PROCESSED, unreversed REFUND or ROLLBACK resolved to `t` |
| Guarantees.OneLiveReversal | internal/domain/reversal.go:48-51 | No target has two live reversals |
| Guarantees.VoidingFreesItsOwnMark | internal/wagering/accept.go:483-492 | In every run a committed transaction takes a mark from a row if and only if it reverses the reversal the mark names; then that is a REFUND of a BET voided by a ROLLBACK, and the slot is free or names a new live reversal |
| Guarantees.NoStakeBackPlusPrize | internal/domain/reversal.go:48-54 | While an unreversed PROCESSED WIN resolves to a BET, the BET is unmarked and has no live reversal, whatever the order of WINs, REFUNDs, ROLLBACKs and releases |
| Guarantees.ReferencesAgree | internal/domain/reversal.go:83-103 | A PROCESSED row with a resolved reference names another PROCESSED row of the same provider, player, wallet, currency, round and amount, of a kind the matrix allows |
| Guarantees.TerminalIsForever | internal/domain/transaction.go:111-121 | A decided row never changes again, apart from its reversal columns |
| Guarantees.StatesFollowTheMachine | internal/domain/transaction.go:111-121 | Along any run every row moves only along CanTransition, starting from PENDING, although the service assigns states directly |
| Guarantees.WorkRowIffParked | internal/wagering/accept.go:370-385 | A work row exists if and only if its transaction is PENDING_REFERENCE |
| Guarantees.OneEntryPerMovement | migrations/00003_wallet_ledger.sql:2-20 | A moving transaction has exactly one ledger entry and any other none; the entry agrees with the row in wallet, amount, direction, balance and version |
| Guarantees.EventsMirrorState | internal/wagering/events.go:34-105 | Balance events are the ledger entries in ledger order; each PROCESSED row has one processed event, each REJECTED row one rejected event, any other state neither; every event reports its row |
| Guarantees.EventsCarryTheRow | internal/wagering/events.go:34-105 | Every event repeats kind, provider, external id, player, money, outcome, balance, version and reference of its transaction |
| Guarantees.BalanceEventsTellEntries | internal/wagering/events.go:56-66 | The k-th balance event tells the k-th ledger entry, field by field |
| Guarantees.LedgerIsAChain | internal/domain/wallet.go:85-127 | Each wallet's entries run without gap from zero to the stored balance, with consecutive versions ending at the wallet version and every balance in range |
| Guarantees.NetSplits | internal/wagering/accept.go:387-499 | The per-row bookkeeping sum is the opening amount plus live WINs minus live BETs |
| Steps.RunHasInv | internal/wagering/accept.go:166-245 | The invariant behind all of these holds in every reachable database |
| Steps.NextKeepsInv | internal/wagering/accept.go:132-245 | Every committed transaction keeps it |
| Steps.SubmittedKeepsInv | internal/wagering/accept.go:132-235 | Submit keeps it, for every input and whether or not the inbox read was stale |
| Steps.AppliedKeepsInv | internal/wagering/accept.go:294-499 | applyOperation keeps it for every admissible row |
| Steps.JudgedGrounds | internal/wagering/accept.go:387-499 | A new operation moves money only with an affordable amount and a reference the matrix allows |
| Steps.AgainstGrounds | internal/wagering/work.go:169-255 | Against a PROCESSED reference: agreement, matrix, no earlier reversal, no live WIN on a reversed BET, and the direction that undoes the target |
| Steps.ResumedKeepsInv | internal/wagering/work.go:109-165 | Resuming a parked row keeps the invariant; the only error it can meet is a credit overflow |
| Steps.WorkedKeepsInv | internal/wagering/work.go:58-105 | processWorkItem and noteInfra keep it, with any claimed copy of the work item |
| Steps.ReevaluatedKeepsInv | internal/wagering/work.go:16-33 | ReevaluateDependents keeps it, for any list of rows |
| Steps.WaitingHasNoEntry | migrations/00003_wallet_ledger.sql:13-13 | A transaction that still waits has no ledger entry, so serial resumes never hit the unique constraint |
| Opening.OpenedKeepsInv | internal/wagering/wallet.go:15-98 | OpenWallet keeps the invariant, for zero and positive openings |
| Settling.MovedKeepsCore | internal/wagering/work.go:259-286 | Settling a row with a movement keeps every part of the invariant, including marks, conservation, chain and events |
| Settling.RewrittenNet | internal/wagering/accept.go:479-492 | The movement, the mark and the freed slot together change the live sum by exactly the signed amount |
| Settling.RewrittenMarks | internal/wagering/accept.go:483-492 | Marking the target and freeing the BET of a voided REFUND keep marks exact |
| Settling.RewrittenNoOverpayment | internal/domain/reversal.go:48-54 | They also keep the ban on stake back plus prize |
| Resting.RefusedKeepsCore | internal/wagering/work.go:290-309 | Rejecting a row keeps every part of the invariant |
| Resting.ParkedKeepsCore | internal/wagering/accept.go:370-385 | So does parking it with its work item and pending event |
| Resting.ExhaustedKeepsCore | internal/wagering/work.go:85-101 | So does giving it up as FAILED, without an event |
| History.RunEvolves | internal/adapters/postgres/tx_repo.go:95-122 | Over any run input columns are fixed, rows and inbox entries stay, ledger and outbox only grow |
| Decisions.BadInputsAreRefused | internal/wagering/accept.go:133-155 | A bad input is refused with the first thing wrong with it, in the order of the source, and nothing is written; any other passes with its amount; a LOSS passes at zero only, every other kind above zero only |
| Decisions.PoisonIff | internal/wagering/accept.go:169-177 | Poison if and only if the message is on record with other content |
| Decisions.StrangersAreRefused | internal/wagering/accept.go:181-193 | An unknown wallet, another player and another currency are refused, in this order, and nothing is written |
| Decisions.FreeWinDecision | internal/wagering/accept.go:400-408 | A new WIN without reference is PROCESSED with balance plus amount if and only if that fits int64; otherwise an overflow error writes nothing |
| Decisions.BetDecision | internal/wagering/accept.go:388-398 | A new BET is PROCESSED with balance minus amount if and only if the balance covers it, else REJECTED with INSUFFICIENT_BALANCE |
| Decisions.LossDecision | internal/wagering/accept.go:422-433 | A new LOSS, at zero, is PROCESSED without money, version, entry or work |
| Decisions.UnresolvedWaits | internal/wagering/accept.go:510-521 | A referring operation whose reference is missing or waits itself is parked, announced, and due after 200 ms |
| Decisions.DeadReferenceRejects | internal/wagering/accept.go:525-527 | One whose reference was REJECTED or FAILED is REJECTED with REFERENCE_NOT_PROCESSED |
| Decisions.WinDecision | internal/wagering/accept.go:409-420 | A new WIN on a PROCESSED reference is REJECTED with the first of: not a BET, reversed, another provider, player, wallet, currency, round or amount; else credited, or an overflow; row and reply carry the code |
| Decisions.ReversalDecision | internal/wagering/accept.go:436-494 | A new REFUND or ROLLBACK of a PROCESSED reference is REJECTED with the first of: a differing field, a pair the matrix forbids, an earlier reversal, a live WIN; else a stake is credited, a prize or refund debited if covered, with the code in row and reply |
| Decisions.OpeningDecision | internal/wagering/wallet.go:15-98 | Opening conflicts if and only if the id is taken or a wallet has both this player and this currency; else the wallet has the parsed amount at version 1, with OPENING row, entry and events exactly for a positive amount |
| Decisions.WinVerdict | internal/wagering/work.go:170-190 | The verdict on a WIN, inline or resumed, by the fields of row, reference and wallet |
| Decisions.ReversalVerdict | internal/wagering/work.go:191-239 | The verdict on a REFUND or ROLLBACK, likewise |
| Treatments.MissingReference | internal/wagering/work.go:143-152 | A parked row whose reference no row has is REJECTED with REFERENCE_NOT_FOUND if and only if its work item is older than 60 s or this is the fifth attempt; else one attempt is counted, errors are reset and the lease is cleared |
| Treatments.WaitingReference | internal/wagering/work.go:154-156 | A parked row whose reference is parked waits on, whatever its age and attempts |
| Treatments.DeadReference | internal/wagering/work.go:159-164 | A parked row whose reference was REJECTED or FAILED is REJECTED with REFERENCE_NOT_PROCESSED |
| Treatments.ParkedWin | internal/wagering/work.go:170-190 | A parked WIN on a PROCESSED reference: refused with the first thing wrong, credited, or one error counted and FAILED at the tenth |
| Treatments.ParkedReversal | internal/wagering/work.go:191-255 | A parked REFUND or ROLLBACK of a PROCESSED reference, likewise, with the debit refused when not covered |
| Treatments.NothingToTreat | internal/wagering/work.go:66-69 | A work item of a decided or absent row is dropped and nothing else happens |
| Treatments.NudgedAsWorked | internal/wagering/work.go:22-30 | A re-evaluated dependent is treated as by a worker, except that an error, which is exactly a due credit beyond int64, is not counted |
| Treatments.ReevaluatedInTurn | internal/wagering/work.go:22-30 | Dependents are treated one after the other, each on what its predecessors left |
| Treatments.ReevaluationDecides | internal/wagering/work.go:16-33 | Every parked dependent whose reference is decided is decided by the re-evaluation, unless it is due a credit beyond int64 when its turn comes |
| Treatments.ClaimLeases | internal/adapters/postgres/aux_repo.go:163-168 | A claim sets the lease of the chosen rows and changes nothing else |
| Treatments.ClaimedRest | internal/adapters/postgres/aux_repo.go:153-160 | A claimed row is due again exactly from 30 s later on |
| ExactlyOnce.OneRowPerOperation | migrations/00002_wager_transactions.sql:50-55 | At most one transaction per (provider, key) and per (provider, external id) |
| ExactlyOnce.RepeatWritesNothing | internal/wagering/accept.go:195-213 | A submission whose key or external id is taken writes nothing, whatever its content |
| ExactlyOnce.ReplayAnswersFromTheRow | internal/wagering/accept.go:166-213 | A repeat of a row's content, under any key and over either channel, changes nothing and is answered from the row; the reply is given for every input: malformed, poison, answered, or conflict exactly when another row holds the key |
| ExactlyOnce.BothHandlersMeet | internal/wagering/accept.go:195-213 | The lookups by key and by external id lead to the same row, unless another row holds the key, and that row has another hash |
| ExactlyOnce.DivergentIsRefused | internal/wagering/accept.go:195-213 | Divergent content under a taken key or a taken external id moves nothing and is a conflict, unless the input is refused before |
| ExactlyOnce.EveryRepeatGetsTheFirstAnswer | internal/wagering/accept.go:259-282 | At any later point of any run a repeat of an answered operation, under any key, changes nothing, is answered if and only if it is answerable, names the same transaction, and repeats a decision's balance, version and code |
| ExactlyOnce.DecidedRepeats | internal/wagering/accept.go:259-276 | From the moment a transaction is PROCESSED or REJECTED, inline or by a resume, every answerable repeat returns its id with the balance, version and code it was decided with |
| ExactlyOnce.UndecidedReplaysAsPending | internal/wagering/accept.go:277-279 | In every run a repeat of a parked or FAILED transaction changes nothing and, if and only if answerable, is answered as pending with its id and no balance |
| Delivery.Consumer.Handle | internal/adapters/sqs/consumer.go:114-166 | An answered message is deleted and reported handled, a poison or malformed one also goes to the dead letters, any other is an error and stays; whatever fails, a message leaves only when its outcome is durable, and a redelivery of what is on record changes nothing |
| Delivery.RepeatedSubmission | internal/adapters/sqs/consumer.go:145-150 | A whole Submit, follow-up included, of an operation on record leaves the database as it is |
| Delivery.SubmissionIsOnRecord | internal/adapters/sqs/consumer.go:145-150 | An answered Submit is on record, also after the follow-up |
| Frame.SubmitConfined | internal/wagering/accept.go:180-235 | Everything Submit writes belongs to the wallet its input names: balances, rows, marks, entries, events and work rows |
| Frame.WorkConfined | internal/wagering/work.go:109-255 | Everything a worker step writes belongs to the wallet of its transaction, the target's mark and the freed BET included |
| Refinement.ResumeRefinesInline | internal/wagering/work.go:109-309 | With the reference decided, resuming a parked row and applying the same operation inline give the same wallets, entry, events, marks, state, code, balance and version up to the row id, and stop at the same overflow |
| Refinement.ResumeRefinesSubmit | internal/wagering/accept.go:409-494 | The same, stated against a whole submission under fresh identifiers |
| Settlement.SettlesIffAcyclic | internal/wagering/work.go:85-165 | With no new submissions, after as many passes as the attempts left add up to, a transaction is PROCESSED, REJECTED or FAILED if and only if the parked references leading from it have no cycle |
| Settlement.CyclicWaitsForever | internal/wagering/work.go:154-156 | A transaction whose references lead into a cycle stays parked through any continuation: worker steps with any copies, submissions and new wallets |
| Settlement.SelfReferenceParks | internal/wagering/accept.go:510-521 | An operation that names itself is accepted and parks on its own row |
| Settlement.SelfReferenceIsCyclic | internal/wagering/work.go:154-156 | Such a row is a cycle |
| Settlement.PassLightens | internal/wagering/work.go:40-81 | A pass that starts with a grounded parked row reduces the total weight |
| Settlement.ResumedTreats | internal/wagering/work.go:109-165 | What one resume does to the waiting graph: settle, count one reference attempt below the limit, or wait |
| Settlement.WorkedTreats | internal/wagering/work.go:58-105 | A worker step also counts infrastructure errors up to their limit |
| Waiting.TreatsLightens | internal/wagering/work.go:143-156 | No treatment makes a row heavier or changes which rows can settle; a counted one makes a ready row lighter |
| Waiting.GroundedIffAcyclic | internal/wagering/work.go:154-156 | A chain of parked references ends if and only if it never returns to a row |
| Waiting.GroundedReachesReady | internal/wagering/work.go:139-165 | A parked row whose chain ends leads to a row with a missing or decided reference |
| Races.MoneySurvivesRaces | internal/wagering/work.go:58-81 | When resumes work from row copies of any age, in any run: no transaction has two entries, every balance is the sum and chain of its wallet's entries, and every entry is announced once |
| Races.MovedKeepsSound | migrations/00003_wallet_ledger.sql:13-13 | A movement that passes the unique constraint keeps the money sound even from a stale copy |
| Races.FineRunIsSound | internal/wagering/work.go:16-33 | The same for whole runs, with re-evaluations rolled back by a violated constraint |
| Races.LateIsSerialWhileParked | internal/wagering/work.go:61-79 | A late resume of a row that is still parked is the serial step |
| Races.LateOverturnsIff | internal/wagering/work.go:62-74 | In every run of the finer model a resume from an old copy of a decided row changes its outcome if and only if it now refuses a row that is not REJECTED, finds a movement due and no entry, or fails with the budget spent on a row that is not FAILED; money moves if and only if a movement is due and there is no entry, and then by exactly that entry |
| Races.LateReevaluationOverturnsIff | internal/wagering/work.go:22-31 | The same for a late re-evaluation of a dependent, whose errors count for nothing |
| Races.LateResumption | internal/wagering/work.go:109-165 | What a resume of a decided row does, case by case of what it finds under the lock |
| Scenario.OutcomeIsOverturned | internal/wagering/work.go:58-81 | A concrete run: a parked REFUND is PROCESSED by one worker and then REJECTED as already reversed by another with an older copy, while its one ledger entry and the balance stand |
| Scenario.RejectedIsRevived | internal/wagering/work.go:143-158 | A concrete run: a REFUND given up as REFERENCE_NOT_FOUND is PROCESSED by a worker with an older copy once its BET is there; the balance goes from 900 to 1000 with one new entry |
| Scenario.SerialIsRun | internal/wagering/work.go:16-81 | Without old copies the finer model and the serial one run alike, re-evaluations of distinct dependents included |
| Store.Session.Statement | internal/adapters/postgres/db.go:32-37 | A failed statement aborts the transaction and an aborted transaction fails every later statement |
| Store.Session.LockForUpdate | internal/adapters/postgres/wallet_repo.go:15-27 | The wallet row, or none |
| Store.Session.InsertWallet | internal/adapters/postgres/wallet_repo.go:45-50 | The row is added unless id or (player, currency) is taken |
| Store.Session.UpdateBalance | internal/adapters/postgres/wallet_repo.go:54-59 | Balance and version change, identity columns do not |
| Store.Session.InsertTx | internal/adapters/postgres/tx_repo.go:28-41 | The row is added unless its key, external id or opening is taken |
| Store.Session.GetTx | internal/adapters/postgres/tx_repo.go:45-54 | The row, or none |
| Store.Session.FindKey | internal/adapters/postgres/tx_repo.go:57-66 | The row holding a provider's key |
| Store.Session.FindExternal | internal/adapters/postgres/tx_repo.go:69-78 | The row holding a provider's external id |
| Store.Session.FindDependents | internal/adapters/postgres/tx_repo.go:82-93 | Exactly the rows naming the reference, each once |
| Store.Session.UpdateState | internal/adapters/postgres/tx_repo.go:97-106 | The outcome columns change, inputs and marks do not |
| Store.Session.MarkTx | internal/adapters/postgres/tx_repo.go:109-114 | The target's mark is set, nothing else |
| Store.Session.ClearTx | internal/adapters/postgres/tx_repo.go:117-122 | The target's mark is cleared, nothing else |
| Store.Session.CountActiveWins | internal/adapters/postgres/tx_repo.go:127-135 | Whether a PROCESSED, unreversed WIN resolves to the BET |
| Store.Session.Append | internal/adapters/postgres/ledger_repo.go:12-19 | The entry is added unless the transaction has one or the amounts do not add up |
| Store.Session.EnqueueOutbox | internal/adapters/postgres/aux_repo.go:44-49 | The event is added |
| Store.Session.EnqueueWork | internal/adapters/postgres/aux_repo.go:124-130 | The work row is added unless there is one |
| Store.Session.GetWork | internal/adapters/postgres/aux_repo.go:133-147 | The work row, or none |
| Store.Session.ClaimWork | internal/adapters/postgres/aux_repo.go:152-182 | A claim leases exactly the due, unleased rows it returns, earliest first, up to the limit |
| Store.SelectDue | internal/adapters/postgres/aux_repo.go:158-162 | The selection is due, without repeats, in time order, and leaves a row out only when the limit is reached by rows not later |
| Store.Session.TouchWork | internal/adapters/postgres/aux_repo.go:186-196 | Attempts and time change, the lease only on request |
| Store.Session.DeleteWork | internal/adapters/postgres/aux_repo.go:199-201 | The work row is gone |
| Store.Session.FindInbox | internal/adapters/postgres/aux_repo.go:30-39 | The stored hash of a message, or none |
| Store.Session.InsertInbox | internal/adapters/postgres/aux_repo.go:15-19 | The message is recorded unless it is already |
| Bookkeeping.NewLedgerEntry | internal/domain/transaction.go:243-277 | An entry is built if and only if the wallet is named, the amount is positive, the currencies agree, the balances are non-negative and they add up |
| Bookkeeping.EmitProcessed | internal/wagering/events.go:34-67 | One processed event with party, money, balance and version, and one balance event exactly when money moved |
| Bookkeeping.EmitRejected | internal/wagering/events.go:70-86 | One rejected event with party, money, code, balance and version |
| Bookkeeping.EmitPendingRef | internal/wagering/events.go:89-105 | One pending event with party, reference and version |
| Bookkeeping.CheckReversal | internal/wagering/work.go:192-219 | The reversal checks in their order, with the live-WIN guard read only for a BET |
| Bookkeeping.MoveReversal | internal/wagering/work.go:220-242 | A stake is credited back, a prize or a refund is debited |
| Accepting.Prepare | internal/wagering/accept.go:133-152 | The input errors, in their order |
| Accepting.Accept | internal/wagering/accept.go:180-233 | An answered business transaction wrote exactly the step; without faults the answer is the step's |
| Accepting.ApplyOperation | internal/wagering/accept.go:294-499 | Unless a statement failed, applyOperation writes and answers the step of its verdict, whole |
| Accepting.ApplyBet | internal/wagering/accept.go:388-398 | The same for a BET |
| Accepting.ApplyFreeWin | internal/wagering/accept.go:401-408 | The same for a WIN without reference |
| Accepting.ApplyWin | internal/wagering/accept.go:409-420 | The same for a WIN on a PROCESSED reference |
| Accepting.ApplyReversal | internal/wagering/accept.go:436-494 | The same for a REFUND or ROLLBACK of a PROCESSED reference |
| Accepting.ApplyWithReference | internal/wagering/accept.go:503-529 | Missing or waiting references park, PROCESSED ones are judged, others reject |
| Accepting.RecordProcessed | internal/wagering/accept.go:335-355 | Row, entry, balance and events of a processed operation |
| Accepting.RecordRejected | internal/wagering/accept.go:357-368 | Row and event of a rejection, with the balance it was judged against |
| Accepting.ParkReference | internal/wagering/accept.go:370-385 | Row, event and work item of a parked operation |
| Accepting.RecordLoss | internal/wagering/accept.go:422-433 | A LOSS is PROCESSED without entry, balance event or version |
| Resuming.ResumeOne | internal/wagering/work.go:109-165 | Unless a statement failed, resumeOne leaves the step of the row it read, whole, or an error with nothing written |
| Resuming.ResumeWin | internal/wagering/work.go:170-190 | The same for a WIN |
| Resuming.ResumeReversal | internal/wagering/work.go:191-255 | The same for a REFUND or ROLLBACK |
| Resuming.ResumeMissing | internal/wagering/work.go:143-153 | A missing reference is given up after TTL or attempts, otherwise tried again |
| Resuming.Postpone | internal/wagering/work.go:155-156 | One more reference attempt, error count reset, lease cleared |
| Resuming.SettleProcessedExisting | internal/wagering/work.go:259-286 | The processed settlement without marks, and only if the row had no entry |
| Resuming.SettleReversal | internal/wagering/work.go:243-254 | The settlement with the target marked and the voided REFUND's BET freed |
| Resuming.SettleRejectedExisting | internal/wagering/work.go:290-309 | The rejection of a parked row |
| Resuming.NoteInfra | internal/wagering/work.go:85-105 | One more error counted, or FAILED; nothing after a failed statement |
| Service.Wagering.Finish | internal/adapters/postgres/db.go:33-37 | An error or an aborted transaction commits nothing; a lost answer leaves nothing or everything |
| Service.Wagering.OpenWallet | internal/wagering/wallet.go:15-98 | What is committed is nothing or the whole opening; an answer means it is durable |
| Service.Wagering.AcceptOnce | internal/wagering/accept.go:132-235 | Nothing or the whole step of Submit, whatever fails; an answer is exact and durable |
| Service.Wagering.Submit | internal/wagering/accept.go:132-245 | Nothing or the whole submission, whatever fails; without faults a processed BET, and no other reply, is followed by the re-evaluation of exactly the rows of its provider that refer to it |
| Service.Wagering.ReevaluateDependents | internal/wagering/work.go:16-33 | Nothing or the whole re-evaluation of exactly the dependents, although errors are swallowed; row copies read up front stay current |
| Service.Wagering.ProcessWorkItem | internal/wagering/work.go:58-81 | Nothing or the whole worker step, although retry bookkeeping runs after an error |
| Service.Wagering.Claim | internal/adapters/postgres/aux_repo.go:152-182 | A claim commits as one worker step that leases the rows for 30 s |
| Service.Wagering.ProcessDueWork | internal/wagering/work.go:40-56 | What is committed is a run of worker steps; without faults every claimed row is treated, the count is that of the claimed rows now PROCESSED or REJECTED, and it is a full pass when all rows are due and fit the limit |
| Service.RecordOpening | internal/wagering/wallet.go:42-91 | OPENING row, credit entry and two events, all at version 1 |
| LedgerReads.Reconcile | internal/wagering/reconcile.go:102-156 | The difference is stored balance minus ledger sum, consistent means equal, all entries are counted; errors as the replay meets them |
| LedgerReads.ReconciliationNeverDiverges | internal/wagering/reconcile.go:102-156 | In every reachable database reconciliation succeeds with difference zero and the full entry count |
| LedgerReads.ChainReplays | internal/wagering/reconcile.go:120-140 | A chain replays to its last balance without leaving the int64 range |
| LedgerReads.ReplaySucceedsIff | internal/wagering/reconcile.go:120-140 | The replay succeeds if and only if every entry is in the wallet's currency and every running balance is an int64 |
| LedgerReads.OrderKeepsAscending | internal/adapters/postgres/ledger_repo.go:35-42 | The ordered query leaves an ascending ledger as it is |
| LedgerReads.OrderSorts | internal/adapters/postgres/ledger_repo.go:35-42 | The ordered query yields the same entries in order of their versions |
| LedgerReads.DecodeCursor | internal/wagering/reconcile.go:34-47 | A cursor decodes to a non-negative int64 or is an invalid request |
| LedgerReads.CursorIsAcceptedIff | internal/wagering/reconcile.go:34-47 | A non-empty cursor is accepted as v if and only if it is base64 of an optionally signed decimal spelling of v and v is a non-negative int64 |
| Base64.DigitsAreAcceptedIff | internal/wagering/reconcile.go:38-41 | Base64 is decoded if and only if it has only alphabet characters and no single one left over |
| LedgerReads.CursorRoundTrip | internal/wagering/reconcile.go:29-47 | Decoding an encoded version gives it back, for every non-negative int64 |
| Base64.RoundTrip | internal/wagering/reconcile.go:30-41 | Decoding encoded bytes gives them back, for all bytes |
| LedgerReads.PageLedger | internal/wagering/reconcile.go:51-75 | A page is the next entries after the cursor, up to the clamped limit, with a cursor to its last entry if and only if more remain |
| LedgerReads.Clamped | internal/wagering/reconcile.go:56-61 | No limit means 50, more than 200 means 200, any other is kept |
| LedgerReads.PagesAreTheLedger | internal/wagering/reconcile.go:51-75 | Following cursors with any limits and appends in between yields a prefix of the ledger, and all of it as of the last read once no cursor comes |
| LedgerReads.PagesDuringARun | internal/adapters/postgres/ledger_repo.go:21-32 | Whatever commits between the reads of a paging client, it ends with exactly the wallet's entries as of its last read |
| LedgerReads.ReadsAlongARun | internal/adapters/postgres/ledger_repo.go:25-32 | Reads of a wallet along a run see ledgers that continue each other, numbered upwards from 1 |
| Outbox.NothingIsLost | internal/adapters/postgres/aux_repo.go:44-49 | The rows are the enqueued events, in order and unaltered, whatever publishers and crashes do |
| Outbox.PublishedWasSent | internal/adapters/sqs/publisher.go:57-74 | A published event was sent under its id with its content, and nothing else was ever sent |
| Outbox.PublishedIsNeverClaimed | internal/adapters/postgres/aux_repo.go:81-83 | A row that is claimed was never published before |
| Outbox.ClaimsAreSpaced | internal/adapters/postgres/aux_repo.go:75-104 | Two claims of a row without a nack between them are at least the lease TTL apart |
| Outbox.UnpublishedIsClaimableLater | internal/adapters/postgres/aux_repo.go:81-83 | An unpublished row is claimable after a lease and its send time, so no crash strands it |
| Outbox.NewIsClaimable | internal/adapters/postgres/aux_repo.go:44-49 | A new event is claimable at once |
| Outbox.NackedIsClaimableIff | internal/adapters/postgres/aux_repo.go:116-121 | A nacked, unpublished row is claimable exactly from its new send time on, with its attempts counted |
| Outbox.NackDelaysClaims | internal/adapters/postgres/aux_repo.go:81-83 | After a nack no run claims the row before the send time the nack set |
| Outbox.RunIsHonest | internal/adapters/sqs/publisher.go:57-74 | Copies, messages and marks always name original rows, and no lease outlives the TTL |
| Broadcast.MessagesReportState | internal/adapters/sqs/publisher.go:49-76 | In every interleaving of business transactions and publishers, outbox rows are the engine's events, a published one was sent, and every message sent reports the state its transaction has |
| Broadcast.OutboxIsEnqueued | internal/wagering/events.go:34-105 | What publishers see enqueued is what the engine announced, in the same order |
| Publishing.SelectClaimable | internal/adapters/postgres/aux_repo.go:81-83 | Claimable rows, without repeats, earliest first, complete up to the limit |
| Publishing.LeaseAll | internal/adapters/postgres/aux_repo.go:86-97 | Exactly the selected rows get the lease, and the copies are theirs |
| Publishing.Publisher.ClaimOutbox | internal/adapters/postgres/aux_repo.go:75-104 | A claim is one step of the protocol or nothing |
| Publishing.Publisher.Publish | internal/adapters/sqs/publisher.go:30-42 | The broker got the message or not; success means it did |
| Publishing.Publisher.MarkOutboxPublished | internal/adapters/postgres/aux_repo.go:107-112 | The row is marked and its lease cleared |
| Publishing.Publisher.NackOutbox | internal/adapters/postgres/aux_repo.go:116-121 | Attempts and send time change, the lease is cleared |
| Publishing.Publisher.Treat | internal/adapters/sqs/publisher.go:57-74 | One row's treatment is a legal run of the protocol, whatever fails; without error the row ends published, or nacked with one more attempt and its retry time |
| Publishing.Publisher.PublishDueOutbox | internal/adapters/sqs/publisher.go:49-76 | So is the whole pass; without error every claimed row ends published or nacked, and without faults all are published and counted |
| Domain.ValidateReferenceAgreement | internal/domain/reversal.go:83-103 | Accepts if and only if all fields agree; each code if and only if its field is the first to differ, in the order provider, player, wallet, currency, round, amount |
| Domain.ValidateWinReference | internal/domain/reversal.go:109-123 | Accepts if and only if the reference is a PROCESSED, unreversed BET that agrees, amount included; each code if and only if its check is the first to fail |
| Domain.ValidateReversalTarget | internal/domain/reversal.go:26-56 | Accepts if and only if the matrix allows the pair, the target is PROCESSED and unreversed, and no live WIN stands on a BET; each code if and only if its check is the first to fail |
| Domain.Credited | internal/domain/wallet.go:70-100 | The error of a credit, by the first of party, currency, amount and range that fails |
| Domain.Debited | internal/domain/wallet.go:70-127 | The error of a debit, likewise, with the balance last |
| Domain.Wallet.constructor | internal/domain/wallet.go:56-68 | The aggregate holds the stored row |
| Domain.Wallet.Credit | internal/domain/wallet.go:85-100 | Balance and version after a credit, or an error and no change |
| Domain.Wallet.Debit | internal/domain/wallet.go:104-127 | Balance and version after a debit, or an error and no change |
| Tables.FindByProviderExternal | internal/adapters/postgres/tx_repo.go:69-78 | A found row has the external id; none found means none has it |
| Tables.FindByProviderKey | internal/adapters/postgres/tx_repo.go:57-66 | A found row has the key; none found means none has it |
| Int64.SignOfXorAndXor | internal/domain/money.go:155-155 | The sign of the xor test is decided by the signs of its operands |
| Money.Add | internal/domain/money.go:149-159 | Succeeds if and only if the sum fits int64, and is then the sum |
| Money.Sub | internal/domain/money.go:162-171 | Succeeds if and only if the difference fits int64, and is then the difference |
| Money.ParseMoney | internal/domain/money.go:58-99 | Accepts exactly digits, dot, two digits with a value up to MaxInt64, and yields that value |
| Money.ParsedIff | internal/domain/money.go:58-99 | Accepted, as its value, if and only if it is digits, a dot and two digits within int64 in a well-formed currency; an overflow if and only if it is such a text beyond int64 |
| Money.ParseInt | internal/domain/money.go:86-93 | The value of a digit string, or a range error |
| Money.RenderThenParse | internal/domain/money.go:122-135 | Printing then parsing is the identity on non-negative money |
| Money.NegativePrints | internal/domain/money.go:122-135 | A negative amount prints as a minus sign before its absolute value, the least int64 included |
| Money.ParseThenRender | internal/domain/money.go:58-135 | Parsing then printing only strips leading zeros |
| Canonical.EmitIsUnique | internal/wagering/hash.go:37-72 | Canonical text determines the tree, also when text follows it |
| Canonical.CanonicalString | internal/wagering/hash.go:76-86 | The quoted, escaped string |
| Canonical.StringReadsBack | internal/wagering/hash.go:76-86 | A JSON string reader gets back exactly the string written, and what follows it |
| Canonical.OnlyNeededEscapes | internal/wagering/hash.go:79-86 | Only quotes, backslashes, controls and the two line separators are escaped |
| Canonical.SortedKeys | internal/wagering/hash.go:40-44 | The keys in order, however the map yields them |
| Canonical.CanonicalValue | internal/wagering/hash.go:37-72 | The canonical text of the tree, independent of map order |
| Canonical.HashPayload | internal/wagering/hash.go:89-106 | The hashed text of a payload |
| Canonical.DocumentNames | internal/wagering/hash.go:90-105 | The document by its field names, with the reference left out when empty |
| Canonical.PayloadHashIsInjective | internal/wagering/hash.go:89-106 | Two payloads share a hash if and only if all ten fields are equal, an absent reference included |

## Left out

- HTTP handlers, middleware, status mapping, metrics, logging and tracing: no state of their own.
- OIDC and JWT validation, roles, configuration, composition, health checks and the migration runner: outside the engine.
- SHA-256: the hash is the canonical text itself, so that equal hashes mean equal text.
- The byte form of strings: strings are sequences of Unicode characters without invalid encodings; only cursors are coded from bytes.
- Key order of RFC 8785 (UTF-16 code units): the model sorts by character as the code sorts by byte; the two differ only outside the field names used.
- UUID text forms: row and entry ids are table positions, never empty, and wallet ids are given, so reads of malformed ids are absent.
- The decoding of SQS envelopes: a queue message is a parsed input or malformed.
- Dead-letter guarantees: a failed send to the dead-letter queue is only logged by the code, so nothing is promised for malformed or poison messages.
- Backoff values: a retry time is an arbitrary offset from the clock, and the clock is read once per transaction.
- Isolation levels: a transaction is one atomic step, except that resumes may work from earlier row copies.
- int64 wrap-around of wallet versions: versions are unbounded except where a cursor encodes them.
- Timestamps, correlation ids, event ids other than the position, and the JSON form of events: an event is a record of its business fields, with amounts in minor units where the code prints the submitted or rebuilt text.
- The mutators of the domain transaction object, Negate, Cmp and the JSON methods of money: the service does not drive its state through them.
- LedgerReads.ReadsAlongARun: requires the wallet version to fit int64, as the column does; so does LedgerReads.PagesDuringARun.
- Settlement.SettlesIffAcyclic: a pass is any order of worker steps that processes every work row present at its start from copies with the current error count; that polling eventually yields such passes is not modelled.
- Service.Wagering.ReevaluateDependents: runs against the rows it read in the same transaction; copies made stale by other transactions are the subject of Races.
