# Bank gateway: a verified model

This project models the money-moving core of the lending bank gateway in Dafny and proves what its
transactions guarantee together, over every interleaving, crash and retry.

The centre is the order protocol. One order row per (tenant, bizSeqNo) is written by five independent
parties: transaction 1 of a submit, transaction 2 of a submit, transaction 2 of a reversal (which may also
flip the original order), the wedap callback and the status query. Each locked transaction is one function
from tables to tables (`Ledger`), and one imperative method on a class that holds the tables (`Store`); the
methods are proved to compute the functions. `Protocol` lets any number of requests, callbacks, queries and
dispatchers go from transaction to transaction in any order, crash between any two of them, and be answered
anything by wedap. `ProtocolInv` and `ProtocolSteps` prove one invariant of that machine, and `Guarantees`
draws the results from it: money is called for at most once, responses replay, the audit log is the history,
terminal statuses are forwarded exactly once and always backed by evidence, processed callbacks stay honoured.
`Confluence` says exactly when the arrival order of verdicts matters, and `Realization` builds runs of the service
that show it, and with them every history the one-order machine allows. `Service` closes the circle: the request
handlers written as plain code are runs of that machine. `Writes` and `Outcomes` say, from the requests and the HTTP
responses as they come in, what every operation leaves in each column and what its caller is told.

Around it stand the outbox with competing dispatchers (`Outbox`, `Dispatcher`, `Dispatching`), the per-tenant
audit hash chain (`AuditChain`), the typed responses (`WedapReply`, `MoneyWrite`), the token-locked collection
of import results (`ResultCollection`), the landing of reconciliation files (`ReconFile`, `ReconLanding`,
`ReconIngest`) and the paths they are archived under (`ArchivePath`, `ReconArchive`), decimal guards and sums
(`Amounts`, `DetailSum`) and the call-graph walk of the contract scanner (`CallGraphWalk`).

## Reading guide

| file | content |
|---|---|
| `Prelude.dfy`, `States.dfy` | shared datatypes; order statuses and their transition table |
| `WedapReply.dfy`, `MoneyWrite.dfy` | what a wedap answer is evidence for, and what a response may say |
| `AuditChain.dfy`, `Outbox.dfy`, `Dispatcher.dfy` | the hash chain; one outbox row as an automaton; many dispatchers |
| `Ledger.dfy`, `Confluence.dfy`, `Verdicts.dfy` | transactions on tables; one order as a machine over verdicts; the link between them |
| `Protocol.dfy`, `ProtocolInv.dfy`, `ProtocolSteps.dfy`, `Guarantees.dfy` | the whole service, its invariant, the main results |
| `Realization.dfy` | runs of the service with given properties: every legal history of an order, and the failures below |
| `Store.dfy`, `Dispatching.dfy`, `Service.dfy` | the same as code that updates tables in place |
| `Writes.dfy`, `Outcomes.dfy` | what each transaction writes and each operation answers, spelled out |
| `ResultCollection.dfy` | result collection under a token lock with a timeout |
| `ReconFile.dfy`, `ReconLanding.dfy`, `ReconIngest.dfy` | workbook rows, landing by many workers, the worker as code |
| `ArchivePath.dfy`, `ReconArchive.dfy` | archive paths as text and as files; when the right file lands |
| `Amounts.dfy`, `DetailSum.dfy` | the capacity guard; scale checks and exact sums |
| `CallGraphWalk.dfy` | the bounded depth-first walk |

Conventions: fields named as histories (`trail`, `calls`, `inputs`, `feeds`, `hist`, `posts`, `answer`, `posted`,
`markings`, `got`, `landings`, `cut`) exist only for stating properties; the code has no such data. `RETRY` is
the outbox status stored as FAILED. Every other name follows the repository.

## What turned out not to hold

Each of these is stated with an input or a reachable state in which it fails, and with the exact condition under
which the code does what is expected.

- An accepted reversal does not always flip its original (a reachable world:
  `Realization.ReversalCanMissItsOriginal`); it does exactly when the original was REVERSED already or its own CAS
  applied and the table lets the original go there (`Guarantees.ReversalFlipsIff`).
- A reversal that names itself as its original ends REVERSED with an unknown outcome
  (`Guarantees.SelfReversal`, and `Realization.SelfReversalHappens` from the first request on).
- The order of arrival matters: verdicts that conflict lead to different ends in two reachable worlds
  (`Realization.ConflictHappens`), and only those do (`Realization.ServiceConfluentIff`).
- The scale check rounds to 28 digits before it looks, so some amounts with more significant digits
  (`DetailSum.LongAmountSlips`) or below the least exponent of the context (`DetailSum.TinyAmountSlips`) pass with
  decimals no currency has. It accepts the good amounts and those that slip this way, and nothing else
  (`DetailSum.AcceptsGoodAmounts`); no amount of at most 28 significant digits slips (`DetailSum.ShortNeverSlips`).
- The scanner can miss a function two calls away (`CallGraphWalk.ShortcutExists`; the whole family is
  `CallGraphWalk.NearbyCodesMissed`). On graphs whose simple call chains fit the limit it is complete
  (`CallGraphWalk.ShallowIsComplete`), and those are exactly the graphs on which it never refuses a function,
  however their calls are ordered (`CallGraphWalk.ShallowIffNeverCut`). For completeness in every order of calls
  the condition is one way: a refused function may be visited another way in every order, as when the handler calls
  it itself (`CallGraphWalk.DeepOnesCalledIsComplete`). For a given order, the scan is complete exactly when every
  function it refused was visited another way (`CallGraphWalk.CompleteIffCutsSeen`).
- The archive name of a reconciliation file has no tenant in it, and the number in it is taken from the request id
  as it is, slashes included. In general the right file lands in all runs exactly when no two workers reach one file
  for two rows (`ReconArchive.FaithfulIffSeparate`). For numbers without a slash that means separate archive
  directories (`ReconArchive.FaithfulIffOwnDirectories`), or one tenant (`ReconArchive.OneTenantMaySharePaths`). For
  all numbers a notification accepts it means separate hosts (`ReconArchive.AnyNumberIffOwnHosts`): `R` and `./R`
  of one tenant are one file (`ReconArchive.DotMixesFiles`), and so are `R` and `../1/R` in neighbouring directories
  (`ReconArchive.ParentMixesFiles`).
- The module docstring of `app/core/openapi_status_scan.py` suggests that six levels of calls are followed from
  every handler; the code does not re-enter a function first seen at the limit, and the model follows the code.

## Model

| member | source | states |
|---|---|---|
| `Guarantees.CalledAtMostOnce` | app/services/submit.py:133-187 | over every interleaving, crash and retry of submits and reversals, no money call is made twice for a (tenant, bizSeqNo), and none for an order that was not registered first |
| `Guarantees.KeyReuseRefused` | app/services/submit.py:161-167 | in every reachable world a bizSeqNo registered under one business scope is refused under every other, and no table changes |
| `Guarantees.RetryIsReplay` | app/services/idempotency.py:146-220 | once a response is recorded, after any continuation every retry with an equal fingerprint is given that response, every other one is rejected, and neither changes a table; nothing is assumed of fingerprints |
| `Guarantees.PayloadDecidesRetry` | app/services/idempotency.py:146-194 | when fingerprints tell payloads apart: after a first registration and any continuation, a retry is rejected exactly when its payload differs; an equal one gets the recorded response, or, without one, is told in all fields that the request is pending |
| `Guarantees.RunKeepsAnswered` | app/services/idempotency.py:197-220 | a recorded response and its fingerprint survive every continuation of every run |
| `Guarantees.AuditLogIsHistory` | app/services/order_finalize.py:75-90 | in every reachable world the ORDER_* audit rows of an order, in chain order, are exactly the path it took from ACCEPTED through the table, each status once, ending in its current status; orders that do not exist have none |
| `Guarantees.NothingIsTakenBack` | app/domain/states.py:124-185 | over every continuation of every run: FAILED and REVERSED stay, SUCCEEDED is left only for REVERSED, a finalization time never changes, and no history or audit log loses a row |
| `Guarantees.ForwardedExactlyOnce` | app/services/order_finalize.py:54-98 | an order ever entered a terminal status exactly when one outbox row, and only one, has its key, and that row carries the order, its business action and that status |
| `Guarantees.FinalizedIffTerminal` | app/services/order_finalize.py:71-75 | in every reachable world an order has a finalization time exactly while its status is terminal |
| `Guarantees.OutboxGuarantees` | app/services/outbox.py:230-316 | for every outbox row in every reachable world, with any number of dispatchers: attempts are within budget and count the write-backs, all claims are accounted for, the one post for the last claim of a SENT row was answered below 300, and every write-back after any other answer left the row to be sent again or DEAD |
| `Guarantees.HeadsPinLogs` | app/services/audit.py:37-105 | two reachable databases whose chain heads for a tenant agree hold the same audit rows for it, or exhibit a digest collision or a preimage of the genesis value |
| `Guarantees.TerminalNeedsEvidence` | app/services/order_status_reconcile.py:88-106 | no order ever entered a terminal status without an answer, callback, accepted reversal or identity-checked query result that states it |
| `Guarantees.FreshSubmitResponse` | app/services/submit.py:293-363 | in every reachable world a submit that commits: a skipped CAS means the order is already terminal; NOT_APPLIED exactly with a FAILED order and zero-effect evidence; ACCEPTED only with an applied CAS and an acknowledgement that said so |
| `Guarantees.FreshSubmitByResponse` | app/services/submit.py:215-363 | in every reachable world a submit whose call was answered by an HTTP response says NOT_APPLIED exactly when its order ends FAILED and that response shows that no money moved |
| `Guarantees.FreshReversalResponse` | app/services/reversal.py:147-211 | the same for a reversal: its typed outcome never claims more than its own order and the evidence support |
| `Guarantees.RecordedResponsesAreTrue` | app/services/idempotency.py:197-220 | in every reachable world every recorded response is still true of its order: NOT_APPLIED only for an order that is FAILED to this day and about which wedap said that no money moved, ACCEPTED only for one that was SUBMITTED, no outcome only for one that SUCCEEDED |
| `Outcomes.SubmitOutcome` | app/services/submit.py:215-363 | in every reachable world, a submit that commits after wedap answered with an HTTP response: the columns its order, the audit log, the outbox and its idempotency row get; and its whole reply, field by field, from that response and the status the order has then |
| `Outcomes.ReversalOutcome` | app/services/reversal.py:97-211 | the same for a reversal, with what becomes of its original |
| `Outcomes.QueryOutcome` | app/services/order_status_reconcile.py:40-160 | a status query on good tables: exactly which answers count, by order number, type and status word, what they write, and what is returned; on all others nothing changes |
| `Outcomes.CallbackOutcome` | app/api/v1/callbacks.py:90-193 | a callback that says how an order ended: which body counts, to which order it is reported, what is written, and how the inbox row is left |
| `Outcomes.VagueCallbackOutcome` | app/services/callback_finalize.py:80-125 | a callback that does not say: when wedap is asked, and how the inbox row is left |
| `Outcomes.UnusableRefused` | app/services/submit.py:207 | which order numbers are usable; any other starts nothing |
| `Writes.RegisterReads` | app/services/submit.py:133-187 | transaction 1, all five ways it can end: what each answers, the pending answer in all fields, and the columns of a new order |
| `Writes.EnterWrites` | app/services/order_finalize.py:54-98 | entering a terminal status, whoever does it: the columns of the order, the one audit row and the one outbox row |
| `Writes.SubmitWrites` | app/services/submit.py:293-363 | transaction 2 of a submit, column by column |
| `Writes.ReversalWrites` | app/services/reversal.py:147-211 | transaction 2 of a reversal, over its own order and its original |
| `Writes.SettleWrites` | app/services/callback_finalize.py:126-180 | a reported terminal status on good tables: which orders take it, and what is written |
| `Guarantees.ReversalFlipsIff` | app/services/reversal.py:162-190 | the exact condition under which an accepted reversal leaves its original REVERSED: it already was, or the CAS of the reversal order applied and the table allows the move |
| `Guarantees.SelfReversal` | app/services/reversal.py:38-78 | a reversal naming itself as its original goes through SUCCEEDED to REVERSED in one transaction and reports an unknown outcome |
| `Guarantees.ProcessedMeansFinal` | app/api/v1/callbacks.py:128-191 | a PROCESSED inbox row means its order is final, now and after any continuation, crash or concurrent re-drive |
| `Guarantees.RedriveChangesNothing` | app/services/callback_finalize.py:126-180 | driving the stored terminal payload of a processed callback again, at any later time, leaves all tables as they are |
| `Guarantees.StatusIsVerdicts` | app/services/callback_finalize.py:141-177 | the status of every order is what the one-order machine makes of the verdicts committed to it, and their join when none conflict |
| `Guarantees.RunsConverge` | app/services/order_status_reconcile.py:108-160 | two runs that delivered the same verdicts about an order, in any order and multiplicity, leave it in the same status unless two of them conflict |
| `ProtocolSteps.StepOk` | app/services/submit.py:120-363 | every step of every process, with any answer of wedap, keeps the invariant of the whole service and takes nothing back |
| `ProtocolSteps.RunOk` | app/services/submit.py:190-363 | so does every run |
| `ProtocolSteps.InitialOk` | app/services/audit.py:37-66 | a fresh service on a database that may already hold other audit rows, with or without a chain head, starts in the invariant |
| `ProtocolSteps.VerdictProven` | app/services/submit.py:215-291 | the status an answer is turned into is a legal move from ACCEPTED and, when terminal, one the answer states outright |
| `ProtocolSteps.CommitPlainOk` | app/services/submit.py:293-363 | transaction 2 of a submit keeps the invariant wherever it falls |
| `ProtocolSteps.CommitReversalOk` | app/services/reversal.py:147-211 | transaction 2 of a reversal, with or without the flip of its original, keeps the invariant |
| `ProtocolSteps.SettleQueryOk` | app/services/order_status_reconcile.py:108-160 | the locked transaction after a status query keeps the invariant although the order may have moved since it was read |
| `ProtocolSteps.DriveOk` | app/services/callback_finalize.py:38-180 | driving a stored callback keeps the invariant, whichever branch it takes |
| `ProtocolSteps.MarkOk` | app/api/v1/callbacks.py:128-191 | marking the inbox row keeps the invariant, also when a slow first request falls back to RECEIVED |
| `ProtocolSteps.DispatchOk` | app/services/outbox.py:111-251 | every dispatcher step keeps the invariant of the service |
| `Ledger.RegisterEffect` | app/services/submit.py:133-167 | transaction 1 either changes nothing or adds exactly one order, ACCEPTED, with its idempotency row |
| `Ledger.RegisterKeepsTables` | app/services/idempotency.py:126-194 | registration keeps the tables good: every idempotency row has its order, one row an order |
| `Ledger.EnterKeepsTables` | app/services/order_finalize.py:54-98 | entering a terminal status by any writer keeps history, audit chain, outbox and finalization time in step |
| `Ledger.CasKeepsTables` | app/services/submit.py:309-334 | advancing an ACCEPTED order keeps the tables good; a skipped CAS changes nothing |
| `Ledger.ReverseOriginalKeepsTables` | app/services/reversal.py:38-78 | flipping an original keeps the tables good, and skips what the table forbids |
| `Ledger.CommitSubmitKeepsTables` | app/services/submit.py:293-363 | transaction 2 of a submit keeps the tables good |
| `Ledger.CommitReversalKeepsTables` | app/services/reversal.py:147-211 | transaction 2 of a reversal, over two orders, keeps the tables good |
| `Ledger.SettleEffect` | app/services/callback_finalize.py:126-180 | in good tables a locked settlement does nothing, upgrades SUCCEEDED to REVERSED, or finalizes an order that was not final; the branch for an illegal transition cannot be taken |
| `Ledger.SettleKeepsTables` | app/services/order_status_reconcile.py:108-160 | a settlement keeps the tables good |
| `Ledger.OtherAuditKeepsTables` | app/services/audit.py:14-105 | audit rows of the rest of the service leave every order history as it was |
| `Ledger.DispatchKeepsTables` | app/services/outbox.py:111-251 | delivering rows keeps keys unique and every terminal status forwarded |
| `Verdicts.CasFeeds` | app/services/submit.py:309-334 | the CAS feeds one synchronous verdict to one order and leaves every other order alone |
| `Verdicts.ReverseOriginalFeeds` | app/services/reversal.py:38-78 | the flip feeds one verdict to the original and leaves every other order alone |
| `Verdicts.SettleFeeds` | app/services/callback_finalize.py:126-180 | a settlement feeds one reported verdict to one order and leaves every other order alone |
| `Confluence.ConfluentIff` | app/services/callback_finalize.py:141-177 | the arrival order of the verdicts about an order is irrelevant exactly when no two of them conflict |
| `Confluence.FinalIsJoin` | app/services/submit.py:309-312 | verdicts that do not conflict always end in their join |
| `Confluence.ConflictDiverges` | app/services/reversal.py:57-70 | verdicts that conflict have two arrival orders with different ends |
| `Confluence.SameVerdictsSameEnd` | app/services/order_status_reconcile.py:123-153 | repeats of a verdict make no difference either |
| `Confluence.ReversalPrevails` | app/services/callback_finalize.py:141-163 | without a FAILED verdict a reported reversal always prevails |
| `Confluence.FinalWasSaid` | app/domain/states.py:17-34 | an order is never in a status nobody reported |
| `Realization.EveryHistoryHappens` | app/services/submit.py:293-363 | the converse of the above: every legal sequence of verdicts with at most one synchronous one is what some run of the service feeds an order, given a free order number for each reversal in it |
| `Realization.ServiceConfluentIff` | app/services/callback_finalize.py:126-180 | so in the service, over all reachable worlds, the arrival order of the verdicts about an order is irrelevant exactly when no two of them conflict |
| `Realization.ConflictHappens` | app/services/order_status_reconcile.py:108-160 | two reachable worlds that fed one order the same conflicting verdicts and left it in different statuses |
| `Realization.ReversalCanMissItsOriginal` | app/services/reversal.py:147-211 | a reachable world, for every two numbers of any tenant: wedap accepted the reversal and its response says SUCCEEDED, and the original is still SUCCEEDED |
| `Realization.SelfReversalHappens` | app/api/v1/bank_funds.py:426-480 | a reachable world, for every number: a reversal naming itself went ACCEPTED, SUCCEEDED, REVERSED and was answered with an unknown outcome |
| `States.PathVisitsOnce` | app/domain/states.py:124-160 | a path through the table repeats a status only by going round PROCESSING and RESULT_UNKNOWN |
| `States.TerminalIsLeftOnlyForReversal` | app/domain/states.py:124-160 | FAILED and REVERSED end a path, and SUCCEEDED is left only towards a reversal |
| `States.AbsorbingExactly` | app/domain/states.py:167-176 | the absorbing statuses are exactly those with no exit but a reversal of SUCCEEDED |
| `States.StripReads` | app/services/submit.py:91-102 | stripping takes the spaces off both ends, all of them and nothing else |
| `WedapReply.SubmitVerdictIsProved` | app/services/submit.py:215-291 | a submit ends an order in a terminal status exactly when the answer states that status |
| `WedapReply.ReversalVerdictIsProved` | app/services/reversal.py:97-145 | the same for the reversal order |
| `WedapReply.WeakAnswersProveNothing` | app/services/submit.py:233-291 | timeouts, 5xx, unknown statuses and unlisted repayment codes never end an order and never count as zero effect |
| `WedapReply.VerdictsAreLegal` | app/services/submit.py:295 | every verdict leaves ACCEPTED along the table, so the assertion before transaction 2 never fails |
| `MoneyWrite.SubmitResponseCoherent` | app/domain/money_write.py:98-176 | when a fresh submit may say NOT_APPLIED, ACCEPTED or nothing; and the override that trusts the acknowledgement again for a skipped CAS changes no field |
| `MoneyWrite.ReversalResponseCoherent` | app/domain/money_write.py:98-176 | the same for a reversal order, whose txnStatus is passed on |
| `MoneyWrite.SubmitByResponse` | app/clients/wedap.py:175-196 | the verdict of a submit from the HTTP response itself: which responses end the order SUCCEEDED, which FAILED, that a 5xx decides nothing, and which responses leave it ACCEPTED |
| `MoneyWrite.ReversalByResponse` | app/clients/wedap.py:175-196 | the same for a reversal order |
| `MoneyWrite.OutcomeByResponse` | app/services/submit.py:215-291 | from the HTTP response to the typed outcome of an undisturbed submit: exactly which responses are answered without outcome, ACCEPTED and NOT_APPLIED; for all but repayments the last depends on the HTTP status alone |
| `MoneyWrite.SubmitReply` | app/services/submit.py:64-128 | the whole answer of a committing submit from the HTTP response: of an acknowledgement the stripped, capitalized word if the contract knows it, debtSettled exactly for JSON true, two texts; of a refusal code and message; else the HTTP status; and the typed fields by the status of the order |
| `MoneyWrite.ReversalReply` | app/services/reversal.py:97-145 | the same for a reversal |
| `MoneyWrite.TimeoutReply` | app/services/submit.py:233-238 | a call that brought no response: the answer says that nothing is known |
| `AuditChain.AppendKeepsChain` | app/services/audit.py:37-105 | appending keeps the chain valid and anchored, whether the head existed or was seeded from the rows already there |
| `AuditChain.HeadDeterminesLog` | app/services/audit.py:68-105 | two valid chains under one head are equal, or hold a collision or a preimage of genesis; nothing is assumed of the digest |
| `AuditChain.TamperEvidence` | app/services/audit.py:68-105 | under an injective digest the head hash pins down every row before it |
| `AuditChain.DigestsDistinct` | app/models/audit.py:26-29 | under an injective digest the unique key on row hashes never rejects an append |
| `Outbox.DedupKeyInjective` | app/services/order_finalize.py:91-98 | for one tenant the forwarding key tells both the order and the status |
| `Outbox.ClaimAccounting` | app/services/outbox.py:167-251 | every claim of a row was written back, was reclaimed, or is still out |
| `Outbox.AttemptsCountWriteBacks` | app/services/outbox.py:275-304 | attempts count the write-backs since the last replay |
| `Outbox.AttemptsBudget` | app/services/outbox.py:275-304 | attempts are below the maximum while a row is still to be sent, equal to it when DEAD and within it when SENT |
| `Outbox.ClaimBudget` | app/services/outbox.py:167-203 | without reclaims a row is claimed at most max_attempts times between replays |
| `Outbox.WriteBackFollowsItsClaim` | app/services/outbox.py:293-306 | a write-back directly follows the claim whose token it carries |
| `Outbox.DeliveredIsFinal` | app/services/outbox.py:319-330 | SENT is never left, and DEAD only by a replay |
| `Dispatcher.StepKeepsInv` | app/services/outbox.py:89-316 | any interleaving of any number of dispatchers that stall, crash or come back late keeps rows and histories in step |
| `Dispatcher.WriteBackIsNoLostUpdate` | app/services/outbox.py:203-316 | a write-back that hits its row leaves it as its post was answered, with status, error, next time and one attempt more than it holds then, although the count was read in an earlier transaction; a late one changes no row |
| `Dispatcher.TransactionsRead` | app/services/outbox.py:89-330 | what claims, reclaims and replays do to each row, and that claims never share a token |
| `Dispatcher.WriteBackIsByTheClaimant` | app/services/outbox.py:293-306 | no other claim of any row ever used the token of a successful write-back, so the row was not reclaimed in between |
| `Dispatcher.RowGuarantees` | app/services/outbox.py:230-316 | the same for each row in every state of any dispatchers |
| `Dispatcher.SentIsNeverLeft` | app/services/outbox.py:319-330 | no step of any dispatcher changes a SENT row, nor a DEAD one unless it replays it |
| `Store.Database.WriteAudit` | app/services/audit.py:37-105 | the statement-by-statement append, with head lookup and re-seed in the log shared by all tenants, is the append to the chain of that tenant and touches no other |
| `Store.Database.FinalizeTerminalInSession` | app/services/order_finalize.py:54-98 | the in-place finalization is the finalization of the ledger: once, or again for an upgrade |
| `Store.Database.RegisterAndAcceptOrder` | app/services/submit.py:120-187 | insert, conflict and rollback together are the registration of the ledger |
| `Store.Database.AdvanceIfAccepted` | app/services/submit.py:309-334 | the locked update is the CAS of the ledger |
| `Store.Database.CommitSubmit` | app/services/submit.py:293-363 | the in-place transaction 2 computes the tables and the response of the ledger |
| `Store.Database.ReverseOriginal` | app/services/reversal.py:38-78 | the in-place flip is that of the ledger |
| `Store.Database.CommitReversal` | app/services/reversal.py:147-211 | the in-place transaction 2 of a reversal computes the tables and the response of the ledger |
| `Store.Database.Settle` | app/services/callback_finalize.py:126-180 | the locked transaction, written alike in the callback and the reconcile path, is the settlement of the ledger |
| `Dispatching.DispatchOnce` | app/services/outbox.py:89-251 | a round alone, row by row: claims older than the timeout are taken back, every PENDING or failed row past its delay is delivered once and ends SENT below 300, and DEAD or delayed otherwise, and all others stay; it returns how many were delivered |
| `Dispatching.DeliveredProgress` | app/services/outbox.py:275-304 | one undisturbed delivery uses one attempt and ends SENT exactly when answered below 300; a row to be sent again is due exactly after a back-off that doubles with each attempt |
| `Dispatching.FinalizeAfterSend` | app/services/outbox.py:254-316 | writes back exactly when the row is still owned, and then what the outcome says |
| `Dispatching.DeliveredOnce` | app/services/outbox.py:165-251 | deliveries of distinct rows do not get in each other's way |
| `Service.Submit` | app/services/submit.py:190-363 | the request handler: a request that is not fresh calls nobody, writes nothing and is given what its registration said; a fresh one calls once and replies what its retries will be given; and its effect is a run of its own process |
| `Service.SubmitIsRun` | app/services/reversal.py:81-211 | a submit or reversal that nobody interrupts is a run of one process of the state machine |
| `Service.ResolveTerminalViaStatusQuery` | app/services/order_status_reconcile.py:40-160 | the query handler computes the tables and the verdict of its specification |
| `Service.QueryIsRun` | app/services/order_status_reconcile.py:40-160 | a status query that nobody interrupts is a run of one process |
| `Service.ResolveCallbackTerminal` | app/services/callback_finalize.py:38-180 | the callback resolution computes the tables and the outcome of its specification |
| `Service.ResolveIsRun` | app/services/callback_finalize.py:38-180 | a callback resolution that nobody interrupts is a run of one process |
| `Service.WedapTransactionCallback` | app/api/v1/callbacks.py:90-193 | the endpoint drives a repeated request from the body stored first, only while it is not processed, and marks the inbox accordingly |
| `Service.CallbackIsRun` | app/api/v1/callbacks.py:90-193 | a delivered callback that nobody interrupts is a run of one process |
| `Amounts.GuardMeetsSpec` | app/core/amounts.py:48-61 | for every decimal and every column the two-stage guard accepts exactly the finite values whose half-up rounding to the scale of the column fits it, returns them unchanged, and never lets an exception of quantize escape |
| `Amounts.DropIsHalfUp` | app/core/amounts.py:57-58 | looking at the first dropped digit is rounding to the nearest, halves away from zero |
| `Amounts.TrailingZeros` | app/core/amounts.py:48-61 | two texts of one number are accepted or rejected alike |
| `DetailSum.PassedIffExact` | app/api/deps.py:236-372 | for lists of any length none of whose amounts slips, against a total that passed the capacity guard: the strict check passes exactly when all items are of one currency, positive, within scale and capacity, and the total is their exact sum in minor units |
| `DetailSum.GoodListsPass` | app/api/deps.py:236-372 | lists of good items need no condition: they pass exactly against their exact total |
| `DetailSum.SlippedListPasses` | app/api/deps.py:236-372 | the condition is needed: every amount that slips, alone in a list, passes against a total |
| `DetailSum.AcceptsGoodAmounts` | app/api/deps.py:141-186 | for every amount text: accepted exactly when it is a positive whole number of minor units within capacity, however padded with zeros, or slips; so the check is right about it if and only if it does not slip |
| `DetailSum.RefusedFor` | app/api/deps.py:141-186 | what a refused amount is refused for, in order, and that no other exception escapes |
| `DetailSum.CurrencyDecimals` | app/api/deps.py:104-139 | how many decimals each currency has, whatever its case and the spaces around it |
| `DetailSum.FixIsNearest` | app/api/deps.py:175 | rounding to the context leaves what fits it and takes anything else to the nearest number of 28 digits, or of as many as the least exponent leaves |
| `DetailSum.ShortNeverSlips` | app/api/deps.py:168-175 | no amount of at most 28 significant digits slips, whatever zeros are appended to it |
| `DetailSum.ChecksRounded` | app/api/deps.py:168-186 | in general it checks the amount rounded to the context |
| `DetailSum.LongAmountSlips` | app/api/deps.py:170-175 | one plus 10^-j passes in every currency for every j from 28 on: normalize drops the excess digits first |
| `DetailSum.TinyAmountSlips` | app/api/deps.py:170-175 | an amount below the least exponent of the context passes in every currency: normalize rounds it to zero |
| `DetailSum.SumExact` | app/api/deps.py:361-365 | a sum of column amounts in 28-digit arithmetic loses nothing up to 10^28 units, however many amounts there are and however many zeros they carry, and beyond that it stays beyond every column amount |
| `DetailSum.CollectDetailAmounts` | app/api/deps.py:189-233 | the loop collects the amounts in order or stops at the first bad item |
| `DetailSum.CollectsGoodLists` | app/api/deps.py:189-233 | a strict list none of whose amounts slips is collected exactly when all its items are good, and then as it stands |
| `DetailSum.ValidateDetailConsistency` | app/api/deps.py:236-372 | the in-order checks compute the verdict of the specification, errors included |
| `CallGraphWalk.Scan.WalkFunction` | app/core/openapi_status_scan.py:262-287 | the recursive loop over shared sets computes the walk of the specification, and terminates |
| `CallGraphWalk.Scan.ScanRoute` | app/core/openapi_status_scan.py:290-294 | a route scan returns the codes of the walk from its handler |
| `CallGraphWalk.ScanStaysNear` | app/core/openapi_status_scan.py:262-287 | only functions within MAX_CALL_DEPTH calls are visited, every call of a visited function was followed or refused, and the codes are exactly those of the visited functions |
| `CallGraphWalk.CompleteIffCutsSeen` | app/core/openapi_status_scan.py:271-273 | for every graph, whatever the order of calls: the visited set is the reachable set exactly when every function refused for its depth was visited another way |
| `CallGraphWalk.ShallowIsComplete` | app/core/openapi_status_scan.py:262-294 | when every simple chain of calls from the handler fits the depth limit, nothing is refused, exactly the reachable functions are visited, and exactly their codes are reported |
| `CallGraphWalk.ShallowIffNeverCut` | app/core/openapi_status_scan.py:271-273 | and this condition on the graph is exact: it holds if and only if no walk refuses a function for its depth, in whatever order the bodies make their calls |
| `CallGraphWalk.DeepOnesCalledIsComplete` | app/core/openapi_status_scan.py:262-294 | also complete in every order of calls: graphs on which every function that some chain of calls reaches one call too late is called by the handler itself |
| `CallGraphWalk.NearbyCodesMissed` | app/core/openapi_status_scan.py:271-274 | in every graph with a chain one longer than the limit and a shortcut taken later, a function two calls away is refused, never visited, and none of its codes is reported |
| `CallGraphWalk.ShortcutExists` | app/core/openapi_status_scan.py:271-274 | a program of eight functions whose scan misses a 409 two calls away |
| `ResultCollection.CollectedOnce` | app/services/wedap_delivery.py:424-611 | result_collected_at is set at most once; its writer had posted what it parsed, and for a FAILED import the one alert exists |
| `ResultCollection.BatchCollectedOnce` | app/services/wedap_delivery.py:70-124 | nor is a batch number of a tenant collected under two rows, however often and whenever it was enqueued |
| `ResultCollection.EnqueueKeepsInv` | app/services/wedap_delivery.py:70-124 | enqueueing beside any collectors keeps the invariant; afterwards the batch is there unless it was new and its request number was taken |
| `ResultCollection.CollectionIsFinal` | app/services/wedap_delivery.py:474-493 | once collected, over every continuation a task keeps its collection time and is never locked again, whoever comes back late |
| `ResultCollection.OnlyTheHolderCollects` | app/services/wedap_delivery.py:474-493 | only a collector holding the lock at that moment, with a successful post, collects |
| `ResultCollection.HolderIsUnique` | app/services/wedap_delivery.py:424-449 | no two collectors hold one task |
| `ResultCollection.OvertakenChangesNothing` | app/services/wedap_delivery.py:452-493 | a collector that was overtaken changes no task |
| `ResultCollection.StepKeepsInv` | app/services/wedap_delivery.py:496-580 | any interleaving of any number of collectors with each other, with new batches and with the delivery of batches keeps locks, alerts, markings and the unique keys in step |
| `ResultCollection.TasksRead` | app/services/wedap_delivery.py:70-493 | what enqueueing, claiming, marking and releasing write, each with its condition |
| `ResultCollection.CollectorsRead` | app/services/wedap_delivery.py:496-611 | a collector posts only what it parsed, alerts a FAILED import of its own batch before, marks only after a successful post, and gives its lock back after every failure |
| `ResultCollection.Collector.CollectResultsOnce` | app/services/wedap_delivery.py:496-580 | a round alone, task by task: the first delivered, uncollected tasks that are free or locked for too long, up to the limit, are collected exactly if parsed and posted and unlocked in any case; all others stay; every FAILED import among them has its alert |
| `ReconFile.CollectRows` | app/services/recon_ingest.py:123-134 | the loop returns the rows after the header that are not blank |
| `ReconFile.DropBlankCounts` | app/services/recon_ingest.py:123-134 | every row with a value is kept as often as it occurs, and no blank one |
| `ReconFile.ConvertsEachRow` | app/services/recon_ingest.py:245-320 | conversion succeeds exactly when every row does, and keeps number and order |
| `ReconFile.HeadersOkIff` | app/services/recon_ingest.py:136-151 | a workbook is taken exactly when its three sheets carry the expected headers, no column more or less |
| `ReconFile.LandsAsRead` | app/services/recon_ingest.py:228-320 | a file lands exactly as its sheets read: the rows that are not blank, in order, cell by cell into the columns of the three tables |
| `ReconFile.DiffRefused` | app/services/recon_ingest.py:88-103 | which problem a refused row of the first sheet is refused for |
| `ReconFile.LandedAmountsFit` | app/services/recon_ingest.py:88-103 | every amount that lands is finite and within its column after rounding |
| `ReconLanding.RowsGoWithStatus` | app/workers/recon_worker.py:71-157 | in every reachable state PARSED has its child rows, FAILED and unfinished tasks have none, and nothing lands twice |
| `ReconLanding.LandedStays` | app/workers/recon_worker.py:33-47 | what landed is never touched again and its task can only be superseded |
| `ReconLanding.LandingTouchesOnlyOlder` | app/services/recon_ingest.py:330-341 | a landing changes, besides its own task, exactly the status of tasks of the same tenant, the same number and a lower version; a failed one changes nothing |
| `ReconLanding.OthersStay` | app/services/recon_ingest.py:333-341 | no step of any worker changes a task of another tenant or number than the one it works on |
| `ReconLanding.NotifyReads` | app/api/v1/recon_notify.py:28-165 | which notifications add a task, and with what columns |
| `ReconLanding.LandedIsTheFile` | app/services/recon_ingest.py:214-328 | in every run whose rows lead no two workers to one file, what landed is row by row the file downloaded and verified for that task |
| `ReconArchive.FaithfulIffSeparate` | app/workers/recon_worker.py:108-118 | for every set of rows and every file system: the right file lands in all runs over these rows if and only if no two workers reach one file for two of them |
| `ReconArchive.FaithfulIffOwnDirectories` | app/workers/recon_worker.py:108 | over all plain numbers (without a slash): if and only if no two workers have one resolved archive directory on one host |
| `ReconArchive.OneTenantMaySharePaths` | app/workers/recon_worker.py:108 | with plain numbers of one tenant alone: always |
| `ReconArchive.AnyNumberIffOwnHosts` | app/api/v1/recon_notify.py:28-67 | over all numbers a notification accepts, of one tenant or of more: if and only if every worker has its own host |
| `ReconArchive.SharedFileMixes` | app/workers/recon_worker.py:97-136 | for any two workers that reach one file for two rows, a run from the empty tables on after which the first row is PARSED with the rows of the other file |
| `ReconArchive.DotMixesFiles` | app/api/v1/recon_notify.py:46-61 | such a run for the numbers R and ./R of one tenant, for any two workers with one directory |
| `ReconArchive.ParentMixesFiles` | app/api/v1/recon_notify.py:46-61 | such a run for the numbers R and ../1/R, for workers with the directories /srv/archive/1 and /srv/archive/2 |
| `ArchivePath.PlainFilesMeet` | app/workers/recon_worker.py:108 | two plain numbers lead two workers to one file exactly when number, version and resolved directory are equal: the archive name tells number and version |
| `ReconLanding.StepKeepsInv` | app/workers/recon_worker.py:50-157 | any interleaving of any number of workers keeps tasks, child rows and ownership in step |
| `ReconIngest.Tables.IngestPendingOnce` | app/workers/recon_worker.py:71-157 | a round alone, exactly: the status of every task afterwards, whatever the order of the snapshot; the rows of every task; that nothing else about tasks that were not due changes; and the count, which is of the tasks no earlier landing of the round had superseded |
| `ReconIngest.OthersKeepTheirTasks` | app/services/recon_ingest.py:333-341 | a round none of whose landings is of a task of that tenant and number leaves a task that was not due, and its rows, as they were |
| `ReconIngest.Tables.ParseAndLand` | app/services/recon_ingest.py:153-351 | the code, with its guards and failure paths, lands all or nothing |
| `ReconIngest.IngestedSettles` | app/workers/recon_worker.py:97-155 | one pass parses or fails its own task, supersedes the tasks of the same tenant and number and a lower version exactly if it parsed it, and touches no other rows |

## Left out

- Guarantees.RetryIsReplay: compares fingerprints, since SHA-256 over the canonical JSON text is a parameter here;
  Guarantees.PayloadDecidesRetry speaks of payloads for every fingerprint that tells them apart.
- Realization.EveryHistoryHappens: needs one unused order number of the tenant for each reversal in the history, as
  the service does; the same holds for Realization.ConflictHappens and Realization.ServiceConfluentIff.
- DetailSum.PassedIffExact: needs that no amount slips, see above, and a total that passed the capacity guard, as
  the totals of all callers did.
- ReconLanding.LandedIsTheFile: needs that the workers of a run reach no file for two rows; that nothing less does
  for all runs is ReconArchive.FaithfulIffSeparate.
- ReconArchive.OneTenantMaySharePaths: is about numbers without a slash; with others it fails, see above.
- ReconArchive.AnyNumberIffOwnHosts: needs archive directories at most 20 levels deep, out of which a number of 64
  characters can climb; beyond that ReconArchive.FaithfulIffSeparate decides.
- CallGraphWalk.ShallowIsComplete: is sufficient and not necessary for completeness in every order of calls, and so is
  CallGraphWalk.DeepOnesCalledIsComplete.
- Archive paths: symbolic links, file permissions, names the file system folds together and the length of a path are
  not modelled in ArchivePath; ReconArchive.FaithfulIffSeparate holds for every file system that maps a worker, a
  number and a version to one file.
- Outcomes.QueryOutcome: is a query with nobody in between, and so are Outcomes.CallbackOutcome and
  Outcomes.VagueCallbackOutcome; with others in between, Guarantees.TerminalNeedsEvidence and
  Guarantees.ProcessedMeansFinal hold.
- Store.Database.CommitSubmit: a missing order or idempotency row aborts before the first write, where the code
  writes and is rolled back; both leave the tables as they were.
- Dispatching.DispatchOnce: is one round without interference; rounds that interfere are the subject of
  Dispatcher.
- ResultCollection.Collector.CollectResultsOnce: is one round without interference from other collectors, which is
  the subject of ResultCollection.StepKeepsInv; the scan takes the first rows that qualify, where the query has no
  order.
- ReconIngest.Tables.IngestPendingOnce: is one round without interference from other workers, which is the subject of
  ReconLanding; the snapshot is taken in the order of the ids, where the query has no order. The statuses do not
  depend on it, the count does.
- AuditChain.TamperEvidence: assumes an injective digest that never yields the genesis value, which no real
  digest is; AuditChain.HeadDeterminesLog assumes nothing.
- Text: `upper` and `strip` are modelled on ASCII; JSON values other than strings and null appear as their text
  and truth value.
- Numbers: the exponent bounds of `Context(prec=...)` in the capacity guard are not modelled; those of the default
  context are, at its lower end. Addition rounds the exact sum, which is what the aligned addition of the decimal
  module amounts to.
- Database: a losing concurrent insert behaves as if it came after the winner; savepoints, snapshot isolation and
  lock waits are not modelled, so neither are deadlocks (a reversal locks its own row, then the audit head, then
  the original; a callback locks the original, then the audit head).
- Time: clocks are parameters of the transactions and need not be monotone. Fresh tokens stand for uuid4.
- Liveness: nothing is proved about workers making progress, nor about the stuck-order and overdue alerts.
- Outbox rows in SENDING without a token, left by older code.
- Statuses EXPIRED, CANCELLED, PARTIALLY_REVERSED and PROCESSING are in the table, but no modelled transaction enters
  them.
- `resubmitAllowed`, `operationId` and the status URL text of a typed response, which are constants or copies.
- The delivery of import files (`app/services/wedap_delivery.py:183-285`): its write-back is unconditional, so
  DELIVERED is not stable under overlapping claims; the collection model lets it change at any time.
- Inbox: a slow failing first request may set RECEIVED again; the model allows it and proves only what survives it.
- Reconciliation: more than one PARSED version of a number is possible when a lower version is notified late, and a
  claimed lower version can leave SUPERSEDED again; the model allows both.
- The total of a distribute request is not guarded again after summing; not modelled.
- HTTP, FastAPI, S3, presigned URLs, JWT, account guards, scripts, migrations and logging.
