# Verified model of a proof-of-work faucet

The faucet pays out mining rewards. The parts of it that handle money are protocols: tasks interleave at
every `await`, a database write can fail before or after it took effect, an acknowledgement can be lost, and
the process can end anywhere. This project models those parts in Dafny and proves what they keep over whole
runs.

How the model follows the program:

- **Protocols with several tasks** (the claim protocol, the end of a session, the mining client, the admission
  gate) are state machines: code between two awaits is one event, a database call is two (its effect and the
  resumption of the caller), and any other event may fall between them. Runs are arbitrary sequences of events.
- **Objects that change their fields** are classes whose methods have the source's branches and loops. Their
  contracts tie the new state to a function of the old one, to the machine's event, or to an invariant that a
  driver method carries through any sequence of operations. An `await` inside such a method is a call to a
  method that callers know only by its contract: anything the other tasks may do.
- **The database** is a map from session ids to rows, and one entry of the key-value store; each SQL statement is a
  guarded update of one row. `Fault` gives every write its three outcomes: acknowledged, failed without effect,
  committed with the acknowledgement lost. RPC answers, clocks, hash outcomes and random strings are arbitrary.

What it covers, by file:

| files | subject |
|---|---|
| `ClaimData`, `ClaimSession`, `ClaimSystem`, `ClaimRun`, `ClaimService`, `ClaimServing`, `ClaimStranding` | the claim protocol: durable rows, the four tasks of one claim, all sessions with the wallet's nonce, the tasks as methods, and which confirmed claims keep a task |
| `Rationals`, `OutflowLedger`, `FeeAccounting`, `FaucetOutflow`, `OutflowService`, `OutflowLag`, `OutflowRuns`, `ClaimFees` | the outflow ledger: exact rational accrual, exactly-once fees, write ownership, whole runs, and how it joins the claim protocol |
| `DynamicBudget`, `DynamicOutflow` | the dynamic outflow budget |
| `AdmissionData`, `AdmissionBound`, `AdmissionService`, `AdmissionTable`, `HandOver` | the admission ledger, its concurrency limit, the ledger beside the stored sessions, and the hand-over between them |
| `SessionEnd`, `SessionEndProof`, `SessionService` | how a session object ends: the machine, its invariant, and the object's methods |
| `MinerData`, `MinerNet`, `MinerSafety`, `MinerOrder`, `MinerFraction`, `MinerClient` | the miner's nonce protocol |
| `WorkGenerations` | the generation manager |
| `WalletLedger` | the wallet's balances and nonces |
| `KeccakSpec`, `KeccakTables`, `KeccakPermutation`, `KeccakSponge` | Keccak-256 against FIPS 202 |
| `ClaimableSum`, `CleanupSweep`, `AuthState` | the digit-wise sum, the clean-up sweep, the authentication-state store |

Properties that turned out not to hold as they are usually read, each with the input that shows it:

- A confirmed claim can be left without any task until the next restart (`LateReadStrandsClaim`): the rebroadcast
  task reads PENDING, the receipt task makes the row CONFIRMED, and the late read sets the in-memory claim back while
  the claim hooks run. A confirmed claim loses its task exactly when the rebroadcast mark resumes with an answer that
  says PENDING, a late read or a late acknowledgement, after the settling task has returned (`ServiceLostExactly`).
  A claim that keeps one can still be finalized, and one that has lost it only by a finalization already under way
  (`ServedExactlyFinishes`); without late answers no claim loses it (`AlwaysServed`).
- Outflow memory can be stale although ownership is certain (`StaleAfterForeignHook`). It starts exactly when a fee is
  unknown, the entry is not the one that ownership names, and a fee hook reads it but is stopped before its own write: the
  state before the call and the outcomes of the hook's reads decide that (`StaleStartsExactly`), and for a claiming session
  whose fee is not accounted for it takes a failed read of the session or of a marker's row (`ClaimingStartsStale`). It
  ends with any operation that writes and returns (`RecordOk`). The exactly-once property of fees survives it.
- The marker of a deleted session can come back into the outflow entry (`MarkerComesBack`): a fee write drops the marker
  of a finished session and its acknowledgement is lost, the clean-up guard reads the entry and consents, and a later
  save of the stale memory writes the marker again. A blind write leaves every marker with its row if and only if the
  books written name no cleared or deleted session (`BlindWriteOwnersExactly`); over whole runs markers lose their rows
  only in operations that put such a marker back (`RunOperations`).
- The miner keeps the order of submitted shares exactly when the hash-rate limit is a whole number (`OrderKeptExactly`).
  The configuration accepts fractional limits; under each of them a worker can overshoot the start of its own refill
  (`FractionalLimitBreaksOrder`): the first grant ends at the limit, with a fraction f; the refill at target 200 ends on
  a whole number; a report of 25 - f at target 25 is answered by a refill of length f, and the fractional nonces before
  it carry the worker past its start. That no nonce is checked twice holds for every limit.
- The restriction on a GitHub account does not count a session whose claim has FAILED. Who precedes a session and ever
  becomes claimable is counted unless by the second read its claim has failed, or its row was erased, and already by the
  first its reservation was gone (`HandOverMissesNone`, `FailedClaimUncounted`).
- The dynamic outflow restriction rounds: it is back at 1 before the debt is repaid if and only if ten thousand times
  what is still owed is less than the rate times the cut-off window (`RestrictionIsOne`, `RecoveryTime`).
- Reading the database before the ledger would miss sessions (`OppositeOrderMisses`); the source reads the
  ledger first.

## Model

| member | source | states |
|---|---|---|
| ClaimData.SlotLeqTransitive | src/db/FaucetDatabase.ts:1094-1138 | The forward order on durable rows composes over any number of statements |
| ClaimSession.CasEffectOk | src/db/FaucetDatabase.ts:1102-1128 | With any fault, a compare-and-set of a forward transition moves the row forward, and a true reply means that this very call changed it |
| ClaimSession.ResumeTransitionOk | src/eth/EthClaimManager.ts:653-699 | What transitionClaim may conclude from its last reply: true only with the new claim in the row, false or an error only when the row has moved past the expected claim or was deleted |
| ClaimSession.CleanupInv | src/db/FaucetDatabase.ts:612-771 | Clean-up of any candidate read at any earlier time keeps the session invariant and deletes only rows whose payment is decided |
| ClaimSession.RestartInv | src/eth/EthClaimManager.ts:73-149 | Rebuilding the tasks of a stored claim after a restart re-establishes the invariant |
| ClaimSession.StepInv | src/eth/EthClaimManager.ts:370-699 | Every event of every task, with any fault, keeps the invariant of the session and moves its row forward |
| ClaimSystem.DoInv | src/eth/EthClaimManager.ts:312-417 | Every event of any session, wallet reload, crash and restart keeps the system invariant: reserved and undecided transactions of different sessions have different nonces |
| ClaimSystem.RunInv | src/eth/EthClaimManager.ts:312-417 | The same over every run |
| ClaimSystem.PaidAtMostOnce | src/eth/EthClaimManager.ts:370-470 | In every run a session has at most one transaction ever handed to the network, it is the one its row holds, a claim that is not signed has none, and FINISHED follows a successful run of the claim hooks |
| ClaimSystem.DurableBeforeSent | src/eth/EthClaimManager.ts:395-418 | Before a transaction is first handed to the network the row already holds a signed claim with exactly those bytes |
| ClaimSystem.RunForward | src/db/FaucetDatabase.ts:1094-1138 | From any point of a run to any later one the row of a session only advances, keeps its signed bytes, and nothing sent is unsent |
| ClaimSystem.UndecidedNoncesDiffer | src/eth/EthWalletManager.ts:414-453 | Two sessions whose payouts are both undecided never share a nonce |
| ClaimSystem.SettleNeverExhausted | src/eth/EthClaimManager.ts:494-528 | While the row exists settleClaim never runs out of its three attempts and never needs the third |
| ClaimSystem.RowsCompatible | src/db/FaucetDatabase.ts:612-771 | In every run status and claim of a row fit together, and a deleted row was finished or failed with no unresolved claim |
| ClaimRun.RunInv | src/eth/EthClaimManager.ts:370-699 | Every sequence of allowed events of one session keeps the session invariant |
| ClaimRun.OthersRun | src/eth/EthClaimManager.ts:432-528 | Whatever the other tasks do during an await, a running task finds itself where it was and the row no further back |
| ClaimRun.SettleDecides | src/eth/EthClaimManager.ts:494-528 | When settleClaim returns the row is no longer undecided |
| ClaimRun.QueueWritten | src/eth/EthClaimManager.ts:403-416 | While processQueueTx writes PREPARED nobody else changes the row, so success means the row holds it and its funds are reserved |
| ClaimService.ClaimTask.CompareAndSetClaim | src/db/FaucetDatabase.ts:1102-1128 | The guarded update and its three-way reply are the machine's |
| ClaimService.ClaimTask.TransitionClaim | src/eth/EthClaimManager.ts:653-699 | The retry loop, with any events of other tasks in its awaits, reaches the machine's verdict and takes over what the last reply told |
| ClaimService.ClaimTask.ReconcileObservedTerminal | src/eth/EthClaimManager.ts:705-718 | Dictionaries, queue and completion task after an observed terminal claim |
| ClaimService.ClaimTask.SettleClaim | src/eth/EthClaimManager.ts:494-528 | The three-attempt loop: when it returns the payment is decided, and it gives up only after clean-up deleted the row |
| ClaimService.ClaimTask.AwaitTxReceipt | src/eth/EthClaimManager.ts:472-492 | The watch loop ends only when the payment is decided or the claim is off the list |
| ClaimService.ClaimTask.RebroadcastClaim | src/eth/EthClaimManager.ts:439-470 | The same signed bytes are sent until acknowledged; every stretch is a machine event, so whatever is sent is durable |
| ClaimService.ClaimTask.ProcessQueueTx | src/eth/EthClaimManager.ts:370-416 | Success means PREPARED is durable and in memory, its funds are reserved, and both tasks are started |
| ClaimService.ClaimTask.WritePrepared | src/eth/EthClaimManager.ts:395-416 | Without success the reservation is cancelled |
| ClaimService.ClaimTask.FailQueuedClaim | src/eth/EthClaimManager.ts:418-430 | A queued claim ends as FAILED without a transaction |
| ClaimService.ClaimTask.CompleteConfirmedClaim | src/eth/EthClaimManager.ts:579-612 | Success means FINISHED with a CONFIRMED claim whose hooks have run, with nothing left listed or reserved |
| ClaimService.ClaimTask.FinalizeConfirmedClaim | src/eth/EthClaimManager.ts:614-651 | The finalization loop with its read after an unclear write reaches that state or gives up |
| ClaimService.ClaimTask.Initialize | src/eth/EthClaimManager.ts:73-142 | A new process rebuilds one stored session as the machine does, whatever run had stored it: undecided claims are listed, signed ones reserved and pending |
| ClaimServing.ServiceLostExactly | src/eth/EthClaimManager.ts:455-456 | In every reachable state an event takes a confirmed claim from having a task that will finalize it to having none exactly when it resumes the rebroadcast mark with an answer that says PENDING and the settling task has returned |
| ClaimServing.ServedFromTheStart | src/eth/EthClaimManager.ts:494-528 | A claim has such a task when it becomes confirmed and when a new process finds it confirmed |
| ClaimServing.AlwaysServed | src/eth/EthClaimManager.ts:579-612 | In a run without such late answers every confirmed claim of a running process has one |
| ClaimServing.UnservedNeverFinished | src/eth/EthClaimManager.ts:571-612 | Without one, and without a finalization under way, no run of this process finalizes the claim |
| ClaimServing.ServedExactlyFinishes | src/eth/EthClaimManager.ts:579-651 | From every reachable state a claim that has one can be finalized by this process, and one that has none, and is not being finalized, cannot |
| ClaimStranding.LateReadStrandsClaim | src/eth/EthClaimManager.ts:677-692 | A run after which a CONFIRMED claim, its hooks run, has no task left and memory says PENDING, until the process ends |
| Rationals.GcdCombines | src/modules/faucet-outflow/FaucetOutflowModule.ts:731-738 | The Euclidean algorithm yields a combination of its arguments |
| Rationals.LowestUnique | src/modules/faucet-outflow/FaucetOutflowModule.ts:718-729 | Equal values in lowest terms are identical pairs |
| OutflowLedger.SettleValue | src/modules/faucet-outflow/FaucetOutflowModule.ts:607-622 | Settling adds exactly rate times elapsed time to the value of the balance |
| OutflowLedger.DebitValue | src/modules/faucet-outflow/FaucetOutflowModule.ts:333-353 | A debit takes exactly the amount off the value |
| OutflowLedger.AccrueCanonical | src/modules/faucet-outflow/FaucetOutflowModule.ts:607-634 | Settling and clamping keep a positive denominator and lowest terms |
| OutflowLedger.PathIndependent | src/modules/faucet-outflow/FaucetOutflowModule.ts:607-660 | Settling and clamping at t1 and again at t2 gives the identical numerator, denominator and time as at t2 alone |
| OutflowLedger.ReadsChangeNothing | src/modules/faucet-outflow/FaucetOutflowModule.ts:644-660 | Any number of reads of the restriction leaves every later balance as if none had happened |
| OutflowLedger.Conservation | src/modules/faucet-outflow/FaucetOutflowModule.ts:333-353 | Over any reads, rewards and claim fees: rewards + the fees of the sessions that have paid = start + rate * elapsed - balance - amount lost to the upper clamp |
| FeeAccounting.StatementsAreMoves | src/db/FaucetDatabase.ts:1029-1138 | Each session statement, used as the system uses it, is one of the moves that other tasks may make during an await |
| FeeAccounting.EnvironmentKeepsAccounts | src/modules/faucet-outflow/FaucetOutflowModule.ts:69-94 | Inserts, claim transitions, finalizations after the hook and guarded deletions keep every fee accounted for exactly once |
| FeeAccounting.FeeWriteKeepsAccounts | src/modules/faucet-outflow/FaucetOutflowModule.ts:395-423 | Setting a marker and debiting in one compare-and-set accounts for that session once and changes no other, within the marker bound |
| FeeAccounting.BlindWriteKeepsAccounts | src/modules/faucet-outflow/FaucetOutflowModule.ts:284-331 | A blind write of lagging books loses the debit and the marker of a fee together, so each fee still counts exactly once |
| FeeAccounting.JsonTellsBooks | src/modules/faucet-outflow/FaucetOutflowModule.ts:766-776 | The stored text, which does not say who has paid, equals the text of books about to be written over it only if both are the same, even when a fee was lost in between |
| FeeAccounting.OwnedExactly | src/modules/faucet-outflow/FaucetOutflowModule.ts:69-94 | Every marker has its session row if and only if none names a session cleared for deletion or deleted |
| FeeAccounting.BlindWriteOwnersExactly | src/modules/faucet-outflow/FaucetOutflowModule.ts:284-331 | After a blind write that is so if and only if the books written name no such session, whatever the entry held before |
| FeeAccounting.HookKeepsAccounts | src/modules/faucet-outflow/FaucetOutflowModule.ts:355-362 | A hook that returned leaves its session marked or finished |
| FeeAccounting.ClearKeepsAccounts | src/modules/faucet-outflow/FaucetOutflowModule.ts:459-484 | The clean-up guard clears a finished session only when its marker is gone |
| FaucetOutflow.ReaderKeepsConsistent | src/modules/faucet-outflow/FaucetOutflowModule.ts:644-660 | A reader of the restriction in any await keeps the relation between memory and store |
| FaucetOutflow.RestrictionRange | src/modules/faucet-outflow/FaucetOutflowModule.ts:644-660 | The restriction is full from a balance of zero up, 0 at or below the lower limit, and strictly partial in between |
| OutflowService.FaucetOutflowModule.GreatestCommonDivisor | src/modules/faucet-outflow/FaucetOutflowModule.ts:731-738 | The loop computes the greatest common divisor |
| OutflowService.FaucetOutflowModule.NormalizeBalance | src/modules/faucet-outflow/FaucetOutflowModule.ts:718-729 | The balance is brought to lowest terms in place |
| OutflowService.FaucetOutflowModule.SettleBalance | src/modules/faucet-outflow/FaucetOutflowModule.ts:607-622 | Accrual in place, refused while a write is unresolved |
| OutflowService.FaucetOutflowModule.GetOutflowRestriction | src/modules/faucet-outflow/FaucetOutflowModule.ts:644-660 | 0 while a write or a fee is uncertain, otherwise the restriction of the accrued balance |
| OutflowService.FaucetOutflowModule.ReconcileWriteOwnership | src/modules/faucet-outflow/FaucetOutflowModule.ts:756-782 | A successful read ends the uncertainty with the runtime that belongs to what is stored; a failed one leaves it |
| OutflowService.FaucetOutflowModule.PersistOutflowState | src/modules/faucet-outflow/FaucetOutflowModule.ts:284-331 | Success means the store holds what memory held; failure with certain ownership means it is unchanged; nothing is written while a fee commit is unknown |
| OutflowService.FaucetOutflowModule.SaveOutflowState | src/modules/faucet-outflow/FaucetOutflowModule.ts:268-282 | The periodic save keeps ownership consistent under every fault, writes only markers that memory had, and keeps those of deleted sessions |
| OutflowService.FaucetOutflowModule.UpdateState | src/modules/faucet-outflow/FaucetOutflowModule.ts:333-353 | A reward is debited and stored, or memory is put back, or ownership is uncertain |
| OutflowService.FaucetOutflowModule.AccountConfirmedNativeClaimFee | src/modules/faucet-outflow/FaucetOutflowModule.ts:364-448 | When the hook returns normally its session carries a marker or is finished, under any faults and any other turns; when it fails before its own write, memory lags exactly if it did or an unknown fee was in the entry it read; whether it reaches that write is decided by the state before and the outcomes of its reads |
| OutflowService.FaucetOutflowModule.PruneFinalizedClaimFees | src/modules/faucet-outflow/FaucetOutflowModule.ts:450-457 | Only markers of durably finalized claims are dropped, and none of a deleted session |
| OutflowService.FaucetOutflowModule.CanCleanupSession | src/modules/faucet-outflow/FaucetOutflowModule.ts:459-484 | Permission is given only when the marker of the finished session is gone |
| OutflowService.FaucetOutflowModule.OnConfigReload | src/modules/faucet-outflow/FaucetOutflowModule.ts:213-228 | A new policy is stored with its rate, or memory is put back, or ownership is uncertain |
| OutflowService.FaucetOutflowModule.StartModule | src/modules/faucet-outflow/FaucetOutflowModule.ts:154-198 | Loading or creating the state establishes consistent ownership |
| OutflowRuns.OwnersAfter | src/modules/faucet-outflow/FaucetOutflowModule.ts:268-457 | From markers that all have their rows an operation leads to one without a row if and only if it puts a marker back that memory held and that names a cleared session |
| OutflowRuns.PerformReward | src/modules/faucet-outflow/FaucetOutflowModule.ts:333-353 | A stored reward leaves every marker with its row if and only if before it memory named no cleared session |
| OutflowRuns.PerformSave | src/modules/faucet-outflow/FaucetOutflowModule.ts:268-282 | A save does if memory named none, and does not if it named a deleted one |
| OutflowRuns.StaleStartsExactly | src/modules/faucet-outflow/FaucetOutflowModule.ts:372-407 | Memory comes to be trusted while behind the entry exactly when a fee is unknown, the entry is not the one that ownership names, and a fee hook can read it but meets the marker of another session, a row that cannot be read or is deleted, or a marker whose row pruning cannot read; for hooks of claims that their row has confirmed, unless it is finished and may be deleted meanwhile |
| OutflowRuns.ClaimingStartsStale | src/modules/faucet-outflow/FaucetOutflowModule.ts:372-407 | For a hook of a claiming session whose fee is not accounted for: exactly when besides it reads the entry and fails to read the session or a marker's row |
| OutflowRuns.Perform | src/modules/faucet-outflow/FaucetOutflowModule.ts:268-484 | For every operation under every fault: exactly when trusted memory is behind the entry afterwards, and exactly when a marker loses its row |
| OutflowRuns.RunOperations | src/modules/faucet-outflow/FaucetOutflowModule.ts:154-484 | Any operations, faults and restarts: every fee stays accounted for exactly once within the marker bound, every operation is as Perform says, and markers keep their rows as long as no operation puts back one of a cleared session |
| OutflowLag.BehindExactly | src/modules/faucet-outflow/FaucetOutflowModule.ts:519-526 | With certain ownership memory follows the store unless it lags, or a fee is unknown and the entry is not the one that ownership names |
| OutflowLag.StaleAfterForeignHook | src/modules/faucet-outflow/FaucetOutflowModule.ts:423-448 | From any consistent state ready to charge a fee, three faults leave memory stale with certain ownership, and the next blind save takes fee and marker out together |
| OutflowLag.StaleStart | src/modules/faucet-outflow/FaucetOutflowModule.ts:423-448 | A concrete state from which this happens |
| OutflowLag.MarkerComesBack | src/modules/faucet-outflow/FaucetOutflowModule.ts:450-474 | A run from a consistent state with every marker owned: a lost fee write drops the marker of a finished session, the guard consents, the row is deleted, and a save of the stale memory writes the marker back for good |
| ClaimFees.EventIsMove | src/eth/EthClaimManager.ts:579-651 | Every event of a claim, with its hooks returning only after the fee hook and deletions only after the guard, is a move that the fee accounts allow to others |
| ClaimFees.FinishedOnceEach | src/eth/EthClaimManager.ts:579-612 | A finished claim has sent one transaction at most, the one its row holds, and its fee has been debited exactly once |
| ClaimFees.FinishedOnceInEveryRun | src/eth/EthClaimManager.ts:579-651 | In every interleaving of the events of a claim with moves of other sessions, fee writes, blind writes of lagging books, returning hooks and consents of the guard, from accounts in order: a finished claim has sent one transaction at most and its fee is debited exactly once from then on; an unfinished one exactly if its marker is in the entry |
| DynamicBudget.AccrueKeeps | src/modules/dynamic-outflow/DynamicOutflowModule.ts:227-242 | Accrual keeps budget = credit - debits - forfeits with forfeits growing, and credit within the highest rate times the time |
| DynamicBudget.AccrueTwice | src/modules/dynamic-outflow/DynamicOutflowModule.ts:227-242 | At a constant rate accruing in two steps is accruing once |
| DynamicBudget.RestoreKeeps | src/modules/dynamic-outflow/DynamicOutflowModule.ts:108-130 | A restart credits nothing, loses no debit, and leaves no more than was stored and never a surplus |
| DynamicBudget.RestrictionIsOne | src/modules/dynamic-outflow/DynamicOutflowModule.ts:287-305 | The restriction is 1 if and only if the debt is repaid or rounds away |
| DynamicBudget.RepaidAfter | src/modules/dynamic-outflow/DynamicOutflowModule.ts:264-269 | From a debt D at rate R the budget is back at zero after exactly ceil(D / R) seconds |
| DynamicBudget.RecoveryTime | src/modules/dynamic-outflow/DynamicOutflowModule.ts:287-305 | From then on the restriction is 1; it is not 1 any earlier if and only if what was owed one second before did not round away |
| DynamicBudget.RoundsAwayEarly | src/modules/dynamic-outflow/DynamicOutflowModule.ts:300-304 | A debt of 25 at rate 1 with a cut-off of three hours: the restriction is 1 one second too early |
| DynamicOutflow.JsonTellsDebits | src/modules/dynamic-outflow/DynamicOutflowModule.ts:347-352 | The stored text of the state before a debit never equals the text after it |
| DynamicOutflow.DynamicOutflowModule.UpdateOutflowBudget | src/modules/dynamic-outflow/DynamicOutflowModule.ts:227-242 | Accrual and burst clamp in place, refused while a write is unresolved |
| DynamicOutflow.DynamicOutflowModule.GetOutflowRestriction | src/modules/dynamic-outflow/DynamicOutflowModule.ts:287-305 | 0 while a write is unresolved, before the first rate and when the rate is stale; otherwise the restriction of the accrued budget |
| DynamicOutflow.DynamicOutflowModule.ReconcileWriteOwnership | src/modules/dynamic-outflow/DynamicOutflowModule.ts:319-345 | A read that succeeds always resolves the write, with the matching runtime |
| DynamicOutflow.DynamicOutflowModule.LoadOutflowState | src/modules/dynamic-outflow/DynamicOutflowModule.ts:108-130 | A stored debt is taken over and a stored surplus is not |
| DynamicOutflow.DynamicOutflowModule.PersistOutflowState | src/modules/dynamic-outflow/DynamicOutflowModule.ts:136-181 | Success means the debit is stored, a resolved failure means nothing changed, an unresolved one means either |
| DynamicOutflow.DynamicOutflowModule.ProcessSessionRewarded | src/modules/dynamic-outflow/DynamicOutflowModule.ts:256-279 | A reward succeeds only with its debit stored and debits nothing when it fails with the write resolved |
| DynamicOutflow.DynamicOutflowModule.ComputeOutflowRate | src/modules/dynamic-outflow/DynamicOutflowModule.ts:192-220 | The new rate is the highest that does not drain the free balance before the target time; a failed refresh keeps the old one |
| DynamicOutflow.RunOperations | src/modules/dynamic-outflow/DynamicOutflowModule.ts:108-370 | Over any rewards, refreshes, failed writes, reloads, crashes and restarts: no acknowledged reward is lost, and the stored budget plus all acknowledged rewards never exceeds the highest rate the balances allow times the time |
| AdmissionBound.BindAllKeeps | src/session/AdmissionLedger.ts:109-126 | Binding keeps the subject index equal to the per-session bindings, orders unique and temporal |
| AdmissionBound.EffectKeeps | src/session/AdmissionLedger.ts:86-253 | Every operation of the ledger does, and none changes the order of a binding that stays |
| AdmissionBound.ReleaseKeeps | src/session/AdmissionLedger.ts:227-234 | A release removes every trace of the session from the index |
| AdmissionBound.StepKeepsGate | src/modules/concurrency-limit/ConcurrencyLimitModule.ts:82-130 | Every operation keeps: who passed the check of a subject and still holds it was bound after fewer than N others still bound |
| AdmissionBound.AdmissionNeverExceeds | src/modules/concurrency-limit/ConcurrencyLimitModule.ts:82-130 | In every run of begins, binds, checks, phases, releases and moves, at most N unreleased sessions of a subject have passed its check |
| AdmissionService.AdmissionLedger.Begin | src/session/AdmissionLedger.ts:86-107 | A new reservation with its bindings, refused for a session that has one |
| AdmissionService.AdmissionLedger.MarkRunning | src/session/AdmissionLedger.ts:184-189 | A reserved session with a settled amount becomes running; any other is refused without a change |
| AdmissionService.AdmissionLedger.MarkCommitting | src/session/AdmissionLedger.ts:191-193 | A reserved session becomes committing; an unknown one is refused |
| AdmissionService.AdmissionLedger.SetClaimCeiling | src/session/AdmissionLedger.ts:195-200 | The amount of a reserved session is settled at the given one |
| AdmissionService.AdmissionLedger.ReserveClaimCeiling | src/session/AdmissionLedger.ts:202-207 | The amount of a reserved session only rises |
| AdmissionService.AdmissionLedger.Bind | src/session/AdmissionLedger.ts:109-126 | The loop binds each new subject with the next order and updates both maps alike |
| AdmissionService.AdmissionLedger.GetPriorUsage | src/session/AdmissionLedger.ts:128-182 | Exactly the sessions bound before on any of the subjects, within the window and not excluded, each once, with their claim ceilings |
| AdmissionService.AdmissionLedger.PrepareMove | src/session/AdmissionLedger.ts:209-215 | The new subject is bound while the old one stays bound |
| AdmissionService.AdmissionLedger.CommitMove | src/session/AdmissionLedger.ts:217-220 | The old binding goes |
| AdmissionService.AdmissionLedger.AbortMove | src/session/AdmissionLedger.ts:222-225 | The new binding goes unless it was there before |
| AdmissionService.AdmissionLedger.Release | src/session/AdmissionLedger.ts:227-234 | Reservation and index entries go, and empty index entries with them |
| AdmissionService.CheckLimit | src/modules/concurrency-limit/ConcurrencyLimitModule.ts:82-130 | The running maximum passes exactly when every checked subject is bound and has fewer than the limit of earlier sessions |
| AdmissionService.ExcludeCommittedUsage | src/session/AdmissionLedger.ts:58-75 | Count, sum and provisional flag over exactly the uncommitted ids |
| HandOver.CheckRestriction | src/modules/github/GithubModule.ts:483-523 | Allowed exactly when the union of stored and uncommitted sessions is below both limits and no amount is provisional |
| AdmissionTable.TurnKeeps | src/session/FaucetSession.ts:786-839 | Begin, identify, store, hook, commit, fail, release, claim outcome and erasure keep: counted rows are committed ones linked to their account, committed rows stay until their claim fails or they expire, and live sessions are bound to their account |
| AdmissionTable.RunKeeps | src/session/FaucetSession.ts:786-839 | The same over every run |
| HandOver.SelectedExactly | src/modules/github/GithubDB.ts:105-112 | The query returns a session of the account exactly when it started in the window, has become claimable, its claim has not failed and its row is not erased |
| HandOver.HandOverCountsOnce | src/modules/github/GithubModule.ts:218-232 | Ledger first, database second, whatever lies between: the counted sessions are those of either read, a stored one at what it was granted and any other at its ceiling |
| HandOver.HandOverMissesNone | src/modules/github/GithubModule.ts:218-232 | Over every run between the reads and after them: who precedes the session, started in the window and is live at the second read is counted; who ever becomes claimable is counted unless its claim has failed or its row was erased by the second read and it was released before the first |
| HandOver.HandOverInEveryRun | src/modules/github/GithubModule.ts:215-232 | The same from the empty table on, over every run before, between and after the steps of the check, for everybody who identified itself with the account before the session did |
| HandOver.HandOverCountsNoOther | src/modules/github/GithubModule.ts:218-232 | Who precedes it is counted only if live at the first read or committed and not failed at the second |
| HandOver.FailedClaimUncounted | src/modules/github/GithubDB.ts:105-112 | A claim that fails between the reads takes a released session out of the count, and nothing else does in that state |
| HandOver.IdentifiedBeforePrecedes | src/modules/github/GithubModule.ts:215-226 | Who identified itself with the account before the session did precedes it from then on |
| HandOver.OppositeOrderMisses | src/modules/github/GithubModule.ts:218-232 | In the opposite order a session that commits and is released in between is counted nowhere |
| SessionEndProof.ExecuteKeeps | src/db/FaucetDatabase.ts:1029-1092 | A session write with any fault keeps the invariant of the session object and moves its row forward |
| SessionEndProof.SaveResumes | src/session/FaucetSession.ts:282-343 | The save chain keeps it after every answer, with reconciliation of an uncertain insert |
| SessionEndProof.FailResumes | src/session/FaucetSession.ts:516-572 | So does persisting a failure |
| SessionEndProof.ActResumes | src/session/FaucetSession.ts:764-849 | So do finishing and timing out |
| SessionEndProof.StepKeeps | src/session/FaucetSession.ts:282-638 | Every event of the session and of others keeps it |
| SessionEndProof.SessionEndsWell | src/session/FaucetSession.ts:516-638 | In every run: a disposed object has a status its row has held, or FAILED without a row ever; its admission is released; start rollbacks ran at most once and only when the end is a failure |
| SessionService.OthersRun | src/session/FaucetSession.ts:259-267 | Whatever others do during an await, a saving or ending task finds itself where it was |
| SessionService.FaucetSession.ExecuteStatement | src/db/FaucetDatabase.ts:1029-1092 | The guarded insert, update, transition and timeout with their three outcomes |
| SessionService.FaucetSession.constructor | src/session/FaucetSession.ts:115-120 | A new object is at the start of the machine |
| SessionService.FaucetSession.Restore | src/session/FaucetSession.ts:209-230 | A restored one is at the start for a running row |
| SessionService.FaucetSession.PersistRunningSession | src/session/FaucetSession.ts:282-321 | Nothing happens exactly when there is nothing to save; otherwise the last answer decides: saved, with a new row known to be stored, or the terminal end of others taken over with the admission released, or an error |
| SessionService.FaucetSession.PersistSession | src/session/FaucetSession.ts:269-280 | A turn of the save chain is a run of the machine after which no save is in flight, whether a failure is pending, complete or there is none |
| SessionService.FaucetSession.PersistFailedSession | src/session/FaucetSession.ts:516-572 | Persisting a failure, reading back when unclear, and the rollbacks after it are a run of the machine; afterwards the session is over or its failure still to be persisted |
| SessionService.FaucetSession.RunStartRollbacks | src/session/FaucetSession.ts:583-615 | Rollbacks run, are kept, or are forgotten as the machine has it |
| SessionService.FaucetSession.SynchronizeTerminalState | src/session/FaucetSession.ts:617-638 | An observed terminal row is taken over, the admission released and the object disposed |
| SessionService.FaucetSession.FinishFailedSession | src/session/FaucetSession.ts:438-514 | The failure is prepared, fixed after the hooks and persisted once no save is running |
| SessionService.FaucetSession.FinishSession | src/session/FaucetSession.ts:764-849 | A finishing session ends, or its failure is being persisted, or it waits for the save chain |
| SessionService.FaucetSession.Commit | src/session/FaucetSession.ts:827-839 | A committed session is CLAIMABLE, released and disposed |
| SessionService.FaucetSession.TryApplyTimeout | src/session/FaucetSession.ts:376-436 | True means that the row has become FAILED and the session is over or its failure waits to be persisted; false that the last answer of save, transition or read says that no timeout took place |
| SessionService.FaucetSession.EndsWell | src/session/FaucetSession.ts:574-638 | At any time a disposed object has a status its row has held, or FAILED without a row, its admission is released, and rollbacks ran at most once |
| MinerSafety.StepKeepsBase | faucet-client/src/pow/PoWMiner.ts:221-443 | Every message, start, stop and parameter change, under any delays, keeps granted ranges disjoint and every worker inside its own |
| MinerSafety.FrontIsNew | faucet-client/src/worker/PoWWorker.ts:196-227 | The nonce a worker checks next has never been checked and belongs to that worker |
| MinerOrder.NeverCheckedTwice | faucet-client/src/pow/PoWSession.ts:152-156 | In every run, whatever the limit, no nonce is checked twice and the ranges handed out are disjoint |
| MinerOrder.SafeToSubmit | faucet-client/src/pow/PoWMiner.ts:354-391 | A queued nonce at or below the watermark precedes everything any worker may still report |
| MinerOrder.SharesIncrease | faucet-client/src/pow/PoWMiner.ts:354-391 | With a whole-number limit, in every run, shares are submitted and sent with strictly increasing nonces, each found under the parameters it carries |
| MinerFraction.FractionalLimitBreaksOrder | faucet-client/src/pow/PoWMiner.ts:393-443 | For every positive fractional limit, a session and a run of the client's own turns, checks in batches of eight and the target falling only by the statistics timer, in which a lower nonce is submitted after a higher one |
| MinerFraction.OrderKeptExactly | faucet-client/src/pow/PoWMiner.ts:354-411 | For the limits that configuration accepts: every run of every session submits increasing shares if and only if the limit is a whole number |
| MinerClient.PoWWorker.CheckNext | faucet-client/src/worker/PoWWorker.ts:196-227 | One check: the next nonce in order, a found one is posted, an exhausted range leaves the list |
| MinerClient.PoWWorker.OnControlMessage | faucet-client/src/worker/PoWWorker.ts:44-101 | New work replaces the ranges and the next nonce, a further range is appended and sets the next nonce only if it is the only one, parameters change nothing else |
| MinerClient.PoWWorker.WorkLoop | faucet-client/src/worker/PoWWorker.ts:186-194 | One turn is eight checks one after another |
| MinerClient.ChecksAreWork | faucet-client/src/worker/PoWWorker.ts:186-194 | A batch in the whole client is such a turn for its worker and leaves the others alone |
| MinerClient.PoWSession.GetNonceRange | faucet-client/src/pow/PoWSession.ts:152-156 | The range starts where the one before ended |
| MinerClient.PoWSession.DropParams | faucet-client/src/pow/PoWSession.ts:107-119 | Exactly the queued shares with the rejected parameters go, the others keep their order |
| MinerClient.PoWMiner.OnWorkerInit | faucet-client/src/pow/PoWMiner.ts:306-333 | A worker that is ready gets a range of at least one nonce from the counter, and its watermark is the start of it |
| MinerClient.PoWMiner.OnWorkerNonce | faucet-client/src/pow/PoWMiner.ts:335-352 | A nonce found under old parameters is ignored, any other goes to its place in the queue before the watermark is applied |
| MinerClient.PoWMiner.OnWorkerStats | faucet-client/src/pow/PoWMiner.ts:413-443 | The report moves the worker's watermark and refills under the limit |
| MinerClient.PoWMiner.GenerateMinerStats | faucet-client/src/pow/PoWMiner.ts:445-469 | The target becomes the nonces of four seconds for each worker, rounded up and at least 20, and stays without a rate |
| MinerClient.PoWMiner.ProcessNonceQueue | faucet-client/src/pow/PoWMiner.ts:354-391 | Exactly the queued nonces at or below the lowest watermark are submitted, in order |
| MinerClient.PoWMiner.LowestNonce | faucet-client/src/pow/PoWMiner.ts:354-372 | The minimum of lastNonce over ready workers, none if there is none |
| MinerClient.PoWMiner.SetPoWParams | faucet-client/src/pow/PoWMiner.ts:135-164 | Unchanged parameters do nothing, new ones empty the queue, a new algorithm replaces the workers |
| WorkGenerations.BoundedAsyncWork.Run | src/utils/BoundedAsyncWork.ts:83-153 | An operation starts only in the current, accepting generation with free capacity |
| WorkGenerations.BoundedAsyncWork.GetInflightCount | src/utils/BoundedAsyncWork.ts:173-175 | The unsettled operations of the current generation, never more than its capacity |
| WorkGenerations.BoundedAsyncWork.Deliver | src/utils/BoundedAsyncWork.ts:341-350 | A result is handed over only by the current accepting generation |
| WorkGenerations.BoundedAsyncWork.Drain | src/utils/BoundedAsyncWork.ts:277-304 | Afterwards no operation of the generation is unsettled, and success leaves no current generation |
| WorkGenerations.BoundedAsyncWork.ReplaceGeneration | src/utils/BoundedAsyncWork.ts:195-243 | The replacement accepts work only after the previous generation has drained and was disposed once; otherwise it is disposed or kept as failed |
| WorkGenerations.BoundedAsyncWork.Stop | src/utils/BoundedAsyncWork.ts:166-171 | Success leaves every runtime disposed exactly once |
| WorkGenerations.RunOperations | src/utils/BoundedAsyncWork.ts:69-328 | After any sequence of calls: capacity holds with timed-out operations counted, one accepting generation at most with all others drained, each runtime disposed at most once |
| WalletLedger.EthWalletManager.LoadWalletState | src/eth/EthWalletManager.ts:257-301 | A reload takes the RPC balance less all live reservations; a failed one clears the balances |
| WalletLedger.EthWalletManager.PrepareNonce | src/eth/EthWalletManager.ts:414-428 | The nonce to sign with is above that of every live reservation |
| WalletLedger.EthWalletManager.CanReserveClaimTx | src/eth/EthWalletManager.ts:430-436 | True exactly when a reservation at maximum cost leaves the spare funds and no native debt |
| WalletLedger.EthWalletManager.ReserveClaimTx | src/eth/EthWalletManager.ts:443-453 | A reservation at maximum cost; repeating it changes nothing |
| WalletLedger.EthWalletManager.CancelClaimTx | src/eth/EthWalletManager.ts:455-463 | Undoes the reservation; the nonce stays used |
| WalletLedger.EthWalletManager.ReleaseClaimTx | src/eth/EthWalletManager.ts:465-486 | Maximum cost is replaced by actual cost; a second release changes nothing |
| WalletLedger.RunOperations | src/eth/EthWalletManager.ts:257-486 | After any operations, while ready: balance and native balance = last loaded - live reservations - settled costs since, each in its currency; without a token the two never part |
| KeccakTables.RhoTable | faucet-wasm/nickminer/miner/keccak256.c:48-50 | The rotation table is Algorithm 2 of FIPS 202 |
| KeccakTables.PiTable | faucet-wasm/nickminer/miner/keccak256.c:44-46 | The pi table is section 3.2.3 of FIPS 202 |
| KeccakTables.RoundTable | faucet-wasm/nickminer/miner/keccak256.c:38-42 | The round information is the output of the shift register of section 3.2.5 of FIPS 202 |
| KeccakPermutation.ThetaInPlace | faucet-wasm/nickminer/miner/keccak256.c:86-105 | In place equals theta of FIPS 202 |
| KeccakPermutation.PiInPlace | faucet-wasm/nickminer/miner/keccak256.c:107-122 | The chain of moves equals pi |
| KeccakPermutation.ChiInPlace | faucet-wasm/nickminer/miner/keccak256.c:124-134 | Row by row with two saved lanes equals chi |
| KeccakPermutation.GetRoundConstant | faucet-wasm/nickminer/miner/keccak256.c:61-75 | The packed bits give the round constant of FIPS 202 |
| KeccakPermutation.Permute | faucet-wasm/nickminer/miner/keccak256.c:136-160 | 24 rounds in place are Keccak-p[1600, 24] |
| KeccakSponge.AbsorbedConcat | faucet-wasm/nickminer/miner/keccak256.c:182-225 | Absorbing a message in two parts continues from what the first left over |
| KeccakSponge.DigestIs | faucet-wasm/nickminer/miner/keccak256.c:227-245 | Blocks, last block and padding bytes give the sponge of the whole string with pad10*1 at rate 1088 bits |
| KeccakSponge.Sha3Ctx.ProcessBlock | faucet-wasm/nickminer/miner/keccak256.c:162-169 | One block is xored in lane by lane and permuted |
| KeccakSponge.Sha3Ctx.Update | faucet-wasm/nickminer/miner/keccak256.c:182-225 | Any chunk, aligned or not, extends what was fed, with rest below 136 |
| KeccakSponge.Sha3Ctx.Final | faucet-wasm/nickminer/miner/keccak256.c:227-245 | The 32 bytes are the digest of everything fed |
| KeccakSponge.HashChunks | faucet-wasm/nickminer/miner/keccak256.c:182-245 | For every split into chunks the digest is Keccak-256 of the whole string |
| ClaimableSum.ToText | src/db/FaucetDatabase.ts:1140-1190 | A sum cast to text is a decimal string of that value |
| ClaimableSum.CombineDigitSums | src/db/FaucetDatabase.ts:1225-1247 | The place-value loop accepts exactly the contiguous positions from 1 with decimal sums, and gives their value; oversized and invalid amounts are told apart |
| ClaimableSum.PositionalIsSum | src/db/FaucetDatabase.ts:1140-1190 | Digit sums at their place values add up to the sum of the numbers, leading zeros allowed |
| ClaimableSum.RowsArePositional | src/db/FaucetDatabase.ts:1140-1190 | The query's positions are contiguous from 1 |
| ClaimableSum.GetClaimableAmount | src/db/FaucetDatabase.ts:1140-1248 | The sum of all claimable amounts of up to 50 digits; any other claimable amount is an error |
| ClaimableSum.SumIgnoresOrder | src/db/FaucetDatabase.ts:1140-1190 | The sum depends only on the multiset of amounts |
| CleanupSweep.SessionRows.SelectBatch | src/db/FaucetDatabase.ts:580-610 | The first rows behind the cursor in key order |
| CleanupSweep.Sweeper.CleanStoreBounded | src/db/FaucetDatabase.ts:528-578 | A run visits rows in key order, each once and at most the limit, and skips none that had ended before; the next run goes on where it stopped or starts over |
| CleanupSweep.SweepCycle | src/db/FaucetDatabase.ts:512-578 | Repeated runs visit or delete every row that had ended at the start, or make full progress: rows that a guard keeps cannot starve later ones |
| AuthState.ConsumedOncePerIssue | src/modules/github/GithubAuthState.ts:163-190 | Between two accepted consumptions of a state lies another issue |
| AuthState.CollectedOncePerIssue | src/modules/github/GithubAuthState.ts:216-238 | So it does between two results handed out |
| AuthState.ResultFollowsConsumption | src/modules/github/GithubAuthState.ts:163-238 | A result handed out was put in by complete after a consumption for the issuing owner, in this order under one cross-origin issue |
| AuthState.GithubAuthStateStore.Issue | src/modules/github/GithubAuthState.ts:114-161 | Succeeds exactly with valid arguments, room in both capacities after pruning, and a free draw; adds one state |
| AuthState.GithubAuthStateStore.Consume | src/modules/github/GithubAuthState.ts:163-190 | Accepted exactly for a live issued state with its context and binding |
| AuthState.GithubAuthStateStore.Complete | src/modules/github/GithubAuthState.ts:192-214 | Succeeds exactly for a live state being processed |
| AuthState.GithubAuthStateStore.ConsumeResult | src/modules/github/GithubAuthState.ts:216-238 | Hands the stored result out exactly once for a completed live state, which is forgotten |
| AuthState.GithubAuthStateStore.PruneExpired | src/modules/github/GithubAuthState.ts:252-257 | Exactly the unexpired states stay, with the per-owner counts equal to the stored states |
| AuthState.GithubAuthStateStore.Delete | src/modules/github/GithubAuthState.ts:259-270 | The count of the owner follows, and an owner without states has no entry |
| AuthState.GithubAuthStateStore.Clear | src/modules/github/GithubAuthState.ts:240-243 | No state and no count is left |

## Left out

- HTTP and WebSocket servers, the user interface, configuration loading, logging, statistics, captcha, ENS, passports and stake look-ups.
- Signing, parsing, RLP and ABI encoding, the SHA-256 of browser bindings: a transaction is its hash, bytes and nonce, and a digest is an arbitrary function.
- SQL text and driver differences; rows and entries are compared as values, where the code compares their JSON text, so the order of keys in it is not modelled. The history of debited sessions in the outflow entry is not compared.
- In the claim and outflow machines a write in flight when the process ends takes effect before the next process starts or not at all; one that lands after the new process has read is not modelled.
- Legacy claim rows and their quarantine, migration of old outflow states, the insert path of updateSession.
- The order of the claim queue by index, notifications, the history list and its timers, and the messages of errors.
- In ClaimSession the dictionaries claimTxDict and pendingTxQueue are represented by the entry of one session, and a graceful shutdown by the same event as a crash.
- The methods of ClaimService follow a task for a given number of retries and stop there; createSessionClaim appears only as events of the machine.
- Restoring all claims at start is one step of the machine; the program serves requests only after it.
- A refill transaction of the wallet only raises the nonce.
- Claims paid in a token have no native fee and are not part of FeeAccounting; the marker limit is fixed during a run.
- In SessionEnd the columns of a session besides its status are one number, rewards and their serialisation are not computed, and clean-up happens only when the object is disposed with no call in flight; in SessionService the await of the save chain is a method known by its contract.
- MinerOrder.SharesIncrease: states the order for whole-number limits, outside of which it does not hold.
- The miner's hash function, difficulty masks, verification workers, settings, and the computation of the hash rate, which is any number; its clocks, so a worker may report between any two batches and a message may wait for any time; a change of algorithm is stop and start events.
- The admission limit N is fixed during a run, and sessions restored at start are not checked again.
- AdmissionTable models the GitHub account as the reader of both sides; the Zupass, Authenticatoor and recurring limits combine the same two reads with their own queries. Restoring sessions at start is part of the state a run starts from, and a session's first save comes before its completion hooks, as startSession awaits it.
- In ClaimFees one claim at a time is joined to the accounts; the other rows move as the accounts allow.
- Timeouts of single operations in WorkGenerations: an expired operation counts until it settles; its abort signal is not modelled.
- The wallet's status messages, RPC pools and receipt polling.
- Sponge input is a sequence of bytes in memory; chunk sizes are below 65536 as the 16-bit parameter demands.
- A clock that reports an invalid time, which makes the authentication-state store throw without a change.
- The clean-up cut-off is fixed during a sweep; invalid index keys, which end a run like any other error, and the clean-up of module tables are not modelled.
