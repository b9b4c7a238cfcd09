# RouteSmith in Dafny

A model of the stateful core of the RouteSmith gateway, and proofs about it. `dafny verify dfyconfig.toml` checks the project.

The gateway admits local work through a one-permit scheduler, accounts for spend in a ledger, translates between chat
protocols, keeps accounts, approvals, credentials and API keys in documents shared by several instances, resolves model
names through aliases, and counts traffic in a bounded number of series. Each part is modelled in the form the code has:
state behind a lock becomes a class whose methods are proved against functions of the old state, pure code becomes
functions, and a protocol or a set of instances becomes a transition system whose every run is covered.

- `SchedulerState`, `SchedulerProtocol`, `SchedulerSafety`, `SchedulerWakeup`, `SchedulerStall`: the local scheduler. One
  action per locked region, permit operation, notification and wait of `acquire` and of the lease's drop.
- `LedgerState`, `LedgerMemory`, `LedgerRuns`, `LedgerConservation`, `LedgerBudget`, `LedgerSweep`: the in-memory budget
  ledger, its runs whatever overflows, its books tenant by tenant, and the reconcile pass.
- `Exchange`, `ExchangeLoops`, `ExchangeFidelity`, `ExchangeMeaning`: OpenAI chat request to exchange form to Anthropic
  request and back.
- `AuthState`, `AuthStore`, `AuthSoundness`, `AuthReplicas`, `AuthLogin`, `AuthBackup`: administrator accounts.
- `GovernancePolicy`, `GovernanceState`, `GovernanceStore`, `GovernanceRuns`, `GovernanceRepeats`: project policies
  under dual approval.
- `CredentialState`, `CredentialStore`, `CredentialRuns`, `CredentialFairness`: provider credential pools.
- `ApiKeyState`, `ApiKeyStore`, `ApiKeyRuns`: API keys, teams and the hash index.
- `Resolution`, `ResolutionChecks`: model resolution and the checks that make it total.
- `Metrics`: bounded message series.
- `Common`, `RoutingPolicy`, `Versioned` (the compare-and-swap document), `KeyOrder` (ordered maps), `Sums`, `Text`, `Json`:
  shared.

Assumptions, all of them parameters or hypotheses in the text: clocks are monotone where the ledger needs it; generated
ids, tokens and key hashes are fresh; password verification, hashing, byte lengths, URL classification, environment
lookups and JSON text are functions supplied from outside, with nothing assumed about them; a save either commits at the
expected revision or not, and an error leaves open which.

Some expectations hold only under a condition. Each has a lemma at a failing input and one that gives the exact condition:

- a waiting caller that is cancelled can strand a free permit (`CancelledHeadStalls`, `NothingSleepsOnAFreePermit`);
- settlement is not rolled back when the balance leaves the 64-bit range (`OverflowIsReachable`, `ConservesExactlyWhenItFits`);
- a reconcile pass stops half-way if a release takes a balance below i64::MIN (`SweepStopsHalfWay`, `SweepDiscipline`);
- a limit of i64::MAX refuses nothing because the limit test saturates (`AdmittedBeyondAvailable`, `RefusedExactlyBeyondAvailable`);
- a blank text or call id is rendered but does not read back (`BlankTextDoesNotReadBack`, `RoundTrip`);
- a full table can forget a name's failed logins (`FiveFailuresForgotten`, `FifthFailureLocksExactlyWhen`);
- an approved request can be applied twice (`AppliedTwice`, `AppliedOnceExactlyWhen`);
- an index lookup agrees with a scan only while hashes are unique (`SharedHashDisagrees`, `LookupIsScanExactlyWhen`);
- a series cap below two is exceeded, and one below four mixes traffic classes (`ExceededBelowTwo`, `InexactBelowFour`, `BoundedExactlyWhen`,
  `ExactPerClassExactlyWhen`).

## Model

| member | source | states |
|---|---|---|
| `SchedulerWakeup.NoWakeupIsLost` | src/governance.rs:768-873 | in every interleaving without cancellation, while the permit is free and somebody is queued, the overall head is awake, has a stored wakeup, or some thread is about to send it one |
| `SchedulerWakeup.NothingSleepsOnAFreePermit` | src/governance.rs:768-903 | in every interleaving, cancellation included, once nothing can move: the permit is taken iff a lease is out, and with a free permit somebody is queued iff the head's caller was cancelled |
| `SchedulerStall.CancelledHeadStalls` | src/governance.rs:768-809 | a concrete reachable run in which a cancelled waiting caller leaves a free permit, a non-empty queue and no thread that can move: the wakeup guarantee needs its hypothesis |
| `SchedulerWakeup.CancelledFrontBlocksItsClass` | src/governance.rs:768-859 | a request cancelled at the head of its class stays there in every later state, and nobody of that class is ever admitted from the queue again |
| `SchedulerWakeup.WakeupThroughout` | src/governance.rs:768-903 | every run from a safe state keeps the invariant that the head is covered by a wakeup or its caller has gone |
| `SchedulerWakeup.FrontIsHead` | src/governance.rs:824-840 | in a safe state a queued request passes the front check iff it is the overall head, interactive before batch, and its user may start |
| `SchedulerWakeup.InternalRunsAreBounded` | src/governance.rs:691-903 | the number of steps the scheduler can take by itself is bounded by a potential, however the threads interleave |
| `SchedulerWakeup.PotentialFalls` | src/governance.rs:691-903 | every internal step lowers the potential |
| `SchedulerSafety.MutualExclusion` | src/governance.rs:698-792 | in every interleaving at most one lease is out, the running total is exactly the leases and never above the permits taken, per-user limits hold, and the fast-path refusal is unreachable when the limit is at least 1 |
| `SchedulerSafety.QueueDiscipline` | src/governance.rs:725-859 | in every reachable state the per-user counters equal the true numbers of queued requests, all queue bounds hold, and queued requests of one class took the permit in id order |
| `SchedulerSafety.StrictStaysLocal` | src/governance.rs:717-809 | a local-strict call, or one without a cloud route, never ends as overflow to the cloud |
| `SchedulerSafety.SafeThroughout` | src/governance.rs:691-903 | the whole safety invariant (permit, running counts, queues, counters, fronts, admissions) is kept by every run |
| `SchedulerState.Scheduler.TryFastStart` | src/governance.rs:698-715 | the fast path counts the user exactly if it is below its limit |
| `SchedulerState.Scheduler.EstimateWait` | src/governance.rs:811-817 | the wait estimate is service time times everything ahead, clipped at 64 bits |
| `SchedulerState.Scheduler.Enqueue` | src/governance.rs:725-766 | a request joins the end of its class under a new id unless the user or the class is full |
| `SchedulerState.Scheduler.CheckFront` | src/governance.rs:824-840 | the front check |
| `SchedulerState.Scheduler.RemoveQueued` | src/governance.rs:842-859 | the first occurrence of the id leaves its queue and the user's counter goes down |
| `SchedulerState.Scheduler.NextToWake` | src/governance.rs:861-873 | the wakeup target is the interactive head, otherwise the batch head |
| `SchedulerState.Scheduler.FinishLease` | src/governance.rs:876-903 | the lease's end lowers the user's count and moves the service-time average |
| `LedgerConservation.ConservationAndReplay` | src/enterprise_ledger.rs:998-1055 | in every run in which a tenant's balances fit in i64, whatever happens to the other tenants, its reserved and settled balances equal the totals over its reservations plus adjustments, equal the replay of the event log, and are non-negative |
| `LedgerConservation.ConservesExactlyWhenItFits` | src/enterprise_ledger.rs:3169-3264 | whatever state the other tenants are in, an operation conserves a tenant's books iff its new balance fits in i64, a condition on the state before the call |
| `LedgerConservation.EndLoggedExactlyOnce` | src/enterprise_ledger.rs:3181-3227 | in every run in which the tenant's balances fit, each of its ended attempts has exactly one ending event |
| `LedgerRuns.ExactlyOnceSettlement` | src/enterprise_ledger.rs:991-1055 | in every run, overflowing or not: attempts and reservations have the same keys, an attempt is open iff its reservation is, each has one creation event and at most one ending event, none while open |
| `LedgerRuns.EndedForGood` | src/enterprise_ledger.rs:1168-1190 | in any run, overflowing or not, an ended attempt and its reservation never change again |
| `LedgerSweep.SweepDiscipline` | src/enterprise_ledger.rs:1489-1519 | in every run, a reconcile pass leaves no expired record open and reaps no attempt while its own request lives on iff every reserved balance can bear the release of its expired attempts without leaving i64, or all but the attempt that comes last can be released and no request is due |
| `LedgerSweep.MeetsNoErrorExactlyWhen` | src/enterprise_ledger.rs:1495-1507 | in every run and whatever the order, a pass meets no budget error iff no reserved balance minus the amounts of its expired attempts falls below i64::MIN; otherwise it answers with the underflow error |
| `LedgerSweep.OnlyExpiredAreTouched` | src/enterprise_ledger.rs:1489-1519 | in every run and for every pass, with or without an error, records that have not expired are unchanged, and a reaped attempt belongs to a request that has ended or has itself expired |
| `LedgerSweep.SweepStopsHalfWay` | src/enterprise_ledger.rs:1495-1507 | a concrete run from the empty ledger after which a pass answers with the underflow error, having ended three attempts while their expired request is still open |
| `LedgerSweep.FittingTenantsRelease` | src/enterprise_ledger.rs:1495-1507 | a tenant whose balances have fitted so far has reserved all that its expired attempts hold, so it never stops a pass |
| `LedgerRuns.SoundThroughout` | src/enterprise_ledger.rs:959-1519 | the life of attempts, one request per tenant and idempotency key, and the lease order between attempts and requests are kept by every run, overflowing or not |
| `LedgerRuns.LifecycleKept` | src/enterprise_ledger.rs:959-1519 | every operation, with or without an error half-way, keeps attempts, reservations and events in step |
| `LedgerRuns.RenewKeepsLeases` | src/enterprise_ledger.rs:1410-1440 | renewing extends the request and its open attempts together, so no open attempt expires before its open request |
| `LedgerRuns.KeyStandsForOneRequest` | src/enterprise_ledger.rs:788-802 | in every run, overflowing or not, an idempotency key stands for one request of its tenant: reuse is refused, changes nothing, and reports the original's body and state |
| `LedgerConservation.BeginAttemptConserves` | src/enterprise_ledger.rs:998-1055 | a reservation conserves a tenant's books iff it is not its own, is not admitted, or the reserved sum fits in i64, all read off the state before |
| `LedgerConservation.FinalizeConserves` | src/enterprise_ledger.rs:3169-3216 | settling conserves a tenant's books iff the attempt is not its own, is not open, or the settled sum fits; and then it meets no budget error |
| `LedgerConservation.HalfSettled` | src/enterprise_ledger.rs:3194-3201 | if the settled sum does not fit, settling answers with the overflow error after the attempt has ended, its reservation counts as settled and the reserved balance is lowered, with the settled balance and the log unchanged: the books are no longer conserved |
| `LedgerConservation.OverflowIsReachable` | src/enterprise_ledger.rs:3194-3201 | a concrete run from the empty ledger that ends there |
| `LedgerConservation.ReapConserves` | src/enterprise_ledger.rs:1495-1507 | a pass of releases, however far it gets, conserves the books of every tenant whose books were conserved |
| `LedgerConservation.AdjustConserves` | src/enterprise_ledger.rs:2927-2940 | an adjustment is refused iff it would make the settled balance negative or overflow, changes balance and log together otherwise, and always conserves |
| `LedgerBudget.RefusedExactlyBeyondAvailable` | src/enterprise_ledger.rs:1005-1019 | in every run, overflowing or not, a reservation is refused iff it exceeds the available balance the account report shows, and this equivalence holds iff the limit is below i64::MAX or the sum fits |
| `LedgerBudget.NothingRefusedAtMax` | src/enterprise_ledger.rs:1005-1011 | at the limit i64::MAX the saturating sum never exceeds the limit, so nothing is refused whatever the report shows |
| `LedgerBudget.AdmittedBeyondAvailable` | src/enterprise_ledger.rs:1005-1011 | a concrete run after which the report shows nothing available and a reservation is admitted |
| `LedgerBudget.AdmittedWithinLimit` | src/enterprise_ledger.rs:1005-1019 | in every run an admitted reservation leaves settled plus reserved within a limit below i64::MAX |
| `LedgerBudget.StaysWithinExactlyWhen` | src/enterprise_ledger.rs:2883-2935 | from an account within its limit, an operation leaves it within iff a condition on the operation holds that can be checked before it |
| `LedgerBudget.CapThroughout` | src/enterprise_ledger.rs:3194-3201 | from any ledger whose account is within a limit below i64::MAX, every run in which the tenant's limit is not lowered, its adjustments are not positive and its attempts do not settle above their reservations stays within the limit, whatever else overflows |
| `LedgerBudget.CapFromAdmission` | src/enterprise_ledger.rs:1005-1019 | after any run at all, an admitted reservation starts such a stretch |
| `LedgerBudget.InRangeThroughout` | src/enterprise_ledger.rs:1015-1019 | in every run the settled balance is an amount and the reserved one a 64-bit number |
| `LedgerBudget.HardLimitFlag` | src/enterprise_ledger.rs:4005-4037 | the report's hard-limit flag for every limit including zero: raised iff something is consumed and the limit used up, or the balance is so far negative that the utilisation is not representable |
| `LedgerBudget.HardLimitFlagOfAmounts` | src/enterprise_ledger.rs:4005-4037 | on balances that are not negative it is raised iff the limit is used up and limit or consumption is positive |
| `LedgerMemory.MemoryLedger.constructor` | src/enterprise_ledger.rs:653-663 | an empty ledger |
| `LedgerMemory.MemoryLedger.OpenRequest` | src/enterprise_ledger.rs:788-838 | a request is recorded, or refused as a conflict if its idempotency key is in use, as a function of the old ledger |
| `LedgerMemory.MemoryLedger.EndRequest` | src/enterprise_ledger.rs:1263-1286 | a scoped request is finalised, again and again if asked to, as a function of the old ledger |
| `LedgerMemory.MemoryLedger.OpenAttempt` | src/enterprise_ledger.rs:978-1055 | scope and duplicate checks, the saturating limit test, then attempt, reservation and event together, as a function of the old ledger |
| `LedgerMemory.MemoryLedger.SettleBudget` | src/enterprise_ledger.rs:3169-3216 | settlement with checked arithmetic and no rollback, as a function of the old ledger |
| `LedgerMemory.MemoryLedger.ReleaseBudget` | src/enterprise_ledger.rs:3218-3264 | release of an open reservation, as a function of the old ledger |
| `LedgerMemory.MemoryLedger.EndAttempt` | src/enterprise_ledger.rs:1168-1190 | finalising an attempt once, then settling, as a function of the old ledger |
| `LedgerMemory.MemoryLedger.SetLimit` | src/enterprise_ledger.rs:2873-2885 | the limit and version change, as a function of the old ledger |
| `LedgerMemory.MemoryLedger.Adjust` | src/enterprise_ledger.rs:2916-2941 | the settled balance and the event log change together, as a function of the old ledger |
| `LedgerMemory.MemoryLedger.Renew` | src/enterprise_ledger.rs:1410-1440 | the loop over the request's open attempts extends exactly those, as a function of the old ledger |
| `LedgerMemory.MemoryLedger.Sweep` | src/enterprise_ledger.rs:1489-1519 | the two reconcile loops, for whichever order the map yields, as a function of the old ledger |
| `ExchangeFidelity.RoundTrip` | src/exchange.rs:124-183 | for every accepted request, whatever the JSON library does: the Anthropic body is produced iff every tool call carries a JSON object, reads back iff no text and no call id is blank, and what reads back is the normal form |
| `ExchangeFidelity.BlankTextDoesNotReadBack` | src/exchange.rs:1009-1075 | an accepted request with a one-space text whose body is produced and is refused when read back |
| `ExchangeMeaning.MeaningKeptExactlyWhen` | src/exchange.rs:369-417 | translation keeps the meaning (turns, tool calls and results in order, usable tools, choice, parameters) iff instructions come first, the JSON library reads back the calls it prints, no parameter is set that Anthropic lacks and no usable tool is strict; how that relates to the fidelity check |
| `ExchangeMeaning.ReadBackMeansTheSameExactlyWhen` | src/exchange.rs:369-417 | for an accepted request without blank texts or ids whose calls carry objects, the rendered body reads back, and what is read back has the original's meaning iff those conditions hold |
| `ExchangeMeaning.OutlineKeptExactlyWhen` | src/exchange.rs:482-563 | the conversation, turn by turn, survives iff instructions come first and the printed tool calls read back |
| `ExchangeMeaning.ToolsKeptExactlyWhen` | src/exchange.rs:595-612 | the tools survive iff none is strict |
| `ExchangeMeaning.ParametersKeptExactlyWhen` | src/exchange.rs:583-594 | the sampling parameters survive iff none is set that Anthropic lacks, and stop sequences always do |
| `ExchangeFidelity.AcceptedIsParsed` | src/exchange.rs:185-267 | every accepted Chat Completions request has the shape the translation relies on |
| `ExchangeFidelity.ContentRoundTrip` | src/exchange.rs:1009-1075 | message content rendered and parsed back is its normal form |
| `ExchangeLoops.ReadTextBlocks` | src/exchange.rs:1250-1280 | text blocks are concatenated or refused, by the loop of the code and equal to its recursive specification |
| `ExchangeLoops.ReadOpenAiText` | src/exchange.rs:1250-1280 | string or block content becomes text, by the loop of the code and equal to its recursive specification |
| `ExchangeLoops.ReadCalls` | src/exchange.rs:939-1000 | the tool call loop keeps order and refuses malformed calls, by the loop of the code and equal to its recursive specification |
| `ExchangeLoops.ReadOpenAiMessage` | src/exchange.rs:881-1007 | one OpenAI message, by the loop of the code and equal to its recursive specification |
| `ExchangeLoops.ReadAnthropicText` | src/exchange.rs:1282-1311 | Anthropic text content, by the loop of the code and equal to its recursive specification |
| `ExchangeLoops.ReadAnthropicBlocks` | src/exchange.rs:1031-1075 | Anthropic blocks in order, by the loop of the code and equal to its recursive specification |
| `ExchangeLoops.ReadAnthropicMessages` | src/exchange.rs:124-135 | system text first, then the messages, by the loop of the code and equal to its recursive specification |
| `ExchangeLoops.RenderConversation` | src/exchange.rs:482-563 | instructions collected, other messages rendered in order, by the loop of the code and equal to its recursive specification |
| `ExchangeLoops.BuildAnthropicRequest` | src/exchange.rs:482-638 | the whole Anthropic body, by the loop of the code and equal to its recursive specification |
| `AuthReplicas.NoLostUpdates` | src/auth.rs:856-883 | in every run of any number of instances from the empty document, with saves failing and failing ambiguously, each instance's users are the document at its own revision and every committed revision was computed from its immediate predecessor |
| `AuthReplicas.AccountsThroughout` | src/auth.rs:265-761 | in every such run, user names are unique up to ASCII case, each identity is bound once, an active administrator remains, and every stored session belongs to an existing active user, in every serving instance and, for the users, every committed revision |
| `AuthReplicas.RegionOk` | src/auth.rs:265-761 | every locked region, with any data remembered from an earlier region, keeps all account invariants whether its save succeeds or is rolled back |
| `AuthReplicas.BehindForGood` | src/auth.rs:1727-1763 | an instance that fell behind, for example by a save whose answer was lost, commits nothing and keeps its users until it is restarted |
| `AuthReplicas.FirstUsersOk` | src/auth.rs:792-854 | the bootstrapped owners satisfy the account invariants |
| `AuthSoundness.LoginOk` | src/auth.rs:307-364 | the second region of a password login is sound for any candidate |
| `AuthSoundness.FederatedFirstOk` | src/auth.rs:369-439 | the first region of a federated login is sound, including the refusal that restores nothing |
| `AuthSoundness.FederatedSecondOk` | src/auth.rs:448-477 | the second region repeats its checks, so a race creates no second account for a name or identity |
| `AuthSoundness.CreateOk` | src/auth.rs:612-650 | creating a user keeps names unique |
| `AuthSoundness.UpdateOk` | src/auth.rs:652-728 | an update cannot remove the last active administrator and ends sessions of inactive users |
| `AuthSoundness.DeleteOk` | src/auth.rs:730-761 | a deletion cannot remove the last active administrator or leave sessions behind |
| `AuthSoundness.FailedLoginOk` | src/auth.rs:1137-1157 | the table of failed logins stays within its bound |
| `AuthLogin.LoginChecksTheCurrentPassword` | src/auth.rs:272-351 | whatever happened between the two regions, a login that goes through is for a user who at commit exists, is active, has that name, whose current hash verifies, and whose name is not locked |
| `AuthLogin.LoginGoesThroughExactlyWhen` | src/auth.rs:265-351 | without a race, login goes through iff the name is not locked and its user accepts the password |
| `AuthLogin.FiveFailuresLock` | src/auth.rs:1137-1157 | on the real table, with other names failing, expiring and being evicted in between, the fifth failure of a name locks it for fifteen minutes, if its record was not dropped on the way |
| `AuthLogin.FifthFailureLocksExactlyWhen` | src/auth.rs:1137-1167 | the fifth failure of a name locks it for fifteen minutes iff no step before it dropped the name's record while it counted failures |
| `AuthLogin.FiveFailuresForgotten` | src/auth.rs:1146-1157 | for every name, a run from the empty table in which others fill it up, the record is evicted after four failures, and the fifth failure locks nothing |
| `AuthLogin.RecordCountsOwnFailures` | src/auth.rs:1137-1167 | a record that is not dropped counts the name's own failures and nothing else |
| `AuthLogin.RegionsStepTheTable` | src/auth.rs:265-364 | every region changes the table of failures by one of those steps, whether or not its save goes through |
| `AuthLogin.FederatedSignsInTheOwner` | src/auth.rs:369-424 | a federated login signs in only the bound user, or the one ordinary unbound active user with the verified email, who then holds the identity; no other user changes |
| `AuthLogin.OwnerIsSignedIn` | src/auth.rs:369-424 | and it does sign in whoever is the owner in that sense |
| `AuthLogin.SessionsEnd` | src/auth.rs:652-761 | a new password, a deactivation or a deletion leaves no session of the user |
| `AuthBackup.Validate` | src/auth.rs:945-1002 | the document check, with its sets and counters, accepts exactly the acceptable documents |
| `AuthBackup.AcceptedDocumentIsSound` | src/auth.rs:945-1002 | an accepted document with users loads into unique names and identities with an active administrator |
| `AuthStore.Store.constructor` | src/auth.rs:221-247 | loading takes the current revision |
| `AuthStore.Store.Bootstrap` | src/auth.rs:792-854 | a store with users is left as it is; a missing backup in enterprise mode or owners sharing a name or address are refused with nothing saved; otherwise it is the bootstrap step of the run model |
| `AuthStore.Store.Save` | src/auth.rs:868-883 | the revision advances and the degraded flag clears iff the save was answered |
| `AuthStore.Store.SaveOrRestore` | src/auth.rs:856-866 | what was saved stays, otherwise the state before the change comes back |
| `AuthStore.Store.RequireSession` | src/auth.rs:520-543 | a user is returned iff the session is live and its user exists and is active |
| `AuthStore.Store.OldestAttempt` | src/auth.rs:1149-1153 | the record with the oldest attempt |
| `AuthStore.Store.RecordFailedLogin` | src/auth.rs:1146-1157 | a full table drops its oldest record, then the failure is counted |
| `AuthStore.Store.StartLogin` | src/auth.rs:271-290 | prune, refuse a locked name, otherwise some user of that name |
| `AuthStore.Store.FinishLogin` | src/auth.rs:307-351 | the second login region |
| `AuthStore.Store.BoundUserId` | src/auth.rs:926-943 | nobody, the one bound user, or a duplicate binding |
| `AuthStore.Store.EmailMatches` | src/auth.rs:390-398 | nobody, the one match, or several |
| `AuthStore.Store.FinishFederatedLogin` | src/auth.rs:479-518 | sign-in with restore, or a refusal before any change |
| `AuthStore.Store.StartFederated` | src/auth.rs:369-439 | the first federated region |
| `AuthStore.Store.FinishProvisioning` | src/auth.rs:448-477 | the second federated region |
| `AuthStore.Store.Create` | src/auth.rs:634-650 | user creation |
| `AuthStore.Store.CountActiveAdmins` | src/auth.rs:743-747 | the number of active administrators |
| `AuthStore.Store.CountAdminsAfter` | src/auth.rs:687-697 | the number of active administrators the update would leave |
| `AuthStore.Store.Update` | src/auth.rs:652-728 | user update, refused if no active administrator would be left |
| `AuthStore.Store.Delete` | src/auth.rs:730-761 | user deletion |
| `Versioned.Document.CompareAndSwap` | src/storage.rs:171-212 | a save commits iff the expected revision is current, and may fail to say so |
| `GovernanceRuns.DualApproval` | src/governance.rs:371-526 | in every committed document of every run, an applied request has two or more approvals by distinct administrators, the first its requester, and its own payload's hash; every policy in force is the valid payload of such a request |
| `GovernanceRuns.RequestsOnlyGrow` | src/governance.rs:408-497 | across all revisions of a run, what was asked never changes, approvals are only added, and an applied request stays applied |
| `GovernanceRuns.WriteNeverMisses` | src/governance.rs:514-524 | in every reachable state the second region of applying a policy finds its request, so the refusal that leaves an unsaved policy behind cannot happen |
| `GovernanceRuns.NoUnapprovedEgress` | src/governance.rs:202-213 | on every instance in every run a tenant is routed by its own policy or the fail-closed one, and unknown or sensitive data and cloud-disabled tenants never reach a cloud attempt |
| `GovernanceRuns.VerifiesExactlyWhen` | src/governance.rs:461-479 | in every run verification passes iff two administrators approved the request, it is not yet applied, and action, target and payload hash agree |
| `GovernanceRuns.VerifiedIsWhatWasApproved` | src/governance.rs:461-479 | unless this payload's hash collides with that of the stored one, what passes is exactly the payload two administrators approved |
| `GovernanceRepeats.AppliedOnceExactlyWhen` | src/governance.rs:499-526 | in every run a request is applied by at most one revision iff no write lands while its instance already shows the request as applied |
| `GovernanceRepeats.AppliedTwice` | src/governance.rs:499-526 | for every hash, decoder and valid policy change that decodes, a run with two checks before two writes in which the one request is applied by two revisions |
| `GovernancePolicy.EgressExactlyWhen` | src/governance.rs:202-213 | under a valid policy the mode is refused iff it asks for more than the maximum, and cloud attempts are reached iff the data is not forced local and the mode is not strict |
| `GovernancePolicy.KeysDiffer` | src/governance.rs:1021-1023 | no two valid tenants share a policy key |
| `GovernancePolicy.OrderingKeepsExactly` | src/governance.rs:905-923 | ordering drops exactly the cloud attempts of strict mode and otherwise permutes |
| `GovernancePolicy.OrderKept` | src/governance.rs:905-923 | each side keeps the order in which its attempts were given |
| `GovernancePolicy.OrderAttempts` | src/governance.rs:905-923 | the push loop computes that order |
| `GovernancePolicy.ValidatePolicy` | src/governance.rs:985-1019 | the policy check accepts exactly the valid policies |
| `GovernancePolicy.EnforceAttempt` | src/governance.rs:215-251 | an attempt is permitted iff cloud is enabled where needed and every non-empty list has a matching rule |
| `GovernancePolicy.Matches` | src/governance.rs:1036-1044 | a list matches iff one rule is the name, a star, or a matching prefix |
| `GovernanceStore.Store.constructor` | src/governance.rs:308-320 | loading takes the current revision |
| `GovernanceStore.Store.SaveOrRestore` | src/governance.rs:528-548 | what was saved stays, otherwise the document before the change comes back |
| `GovernanceStore.Store.CreateRequest` | src/governance.rs:371-406 | a valid request is stored with its requester's approval |
| `GovernanceStore.Store.ApproveRequest` | src/governance.rs:408-444 | a second administrator's approval, refused for the same actor and after application |
| `GovernanceStore.Store.ApprovedChange` | src/governance.rs:446-459 | the request iff it is approved twice |
| `GovernanceStore.Store.VerifyApprovedChange` | src/governance.rs:461-479 | action, target and payload hash agree with an approved request |
| `GovernanceStore.Store.MarkChangeApplied` | src/governance.rs:481-497 | an approved request becomes applied |
| `GovernanceStore.Store.ReadApprovedPolicy` | src/governance.rs:504-512 | the first region of applying a policy |
| `GovernanceStore.Store.WriteApprovedPolicy` | src/governance.rs:513-525 | the second region, with its early return |
| `GovernanceStore.Store.PolicyFor` | src/governance.rs:337-348 | the tenant's policy or the fail-closed one |
| `CredentialRuns.PoolsStayConsistent` | src/control.rs:1360-1519 | in every run of any number of instances with failing and rolled-back writes, on every instance and in every revision, a provider has an active credential iff it has an enabled one, and the active one exists and is enabled |
| `CredentialRuns.UpsertOk` | src/control.rs:1360-1413 | storing a credential, enabled or disabled, keeps every pool consistent |
| `CredentialRuns.DeleteOk` | src/control.rs:1466-1519 | so does deleting one |
| `CredentialRuns.SelectOk` | src/control.rs:2719-2766 | so does selecting one in any mode |
| `CredentialRuns.RotateOk` | src/control.rs:2833-2864 | so does rotating |
| `CredentialRuns.DeleteProviderOk` | src/control.rs:1266-1291 | so does deleting the provider |
| `CredentialRuns.OutcomeOk` | src/control.rs:1881-1928 | so does recording an outcome |
| `CredentialFairness.RoundRobinIsFair` | src/control.rs:2724-2793 | with the same n usable credentials, any n consecutive selections return each exactly once, whatever was active before |
| `CredentialFairness.SelectionsGoRound` | src/control.rs:2724-2765 | the k-th selection is k places round the circle from the first |
| `CredentialFairness.RoundRobinIsCircular` | src/control.rs:2775-2793 | the iterator chain picks the credential after the current one, wrapping, and the first if the current one is not in the list |
| `CredentialStore.Store.UpsertCredential` | src/control.rs:1360-1413 | credential and active id after an upsert |
| `CredentialStore.Store.SetPoolMode` | src/control.rs:1415-1433 | the mode, the default one by absence |
| `CredentialStore.Store.SetActiveCredential` | src/control.rs:1435-1464 | refused for a missing or disabled credential |
| `CredentialStore.Store.DropCredential` | src/control.rs:1466-1519 | deletion with replacement of the active one |
| `CredentialStore.Store.DropProvider` | src/control.rs:1266-1291 | everything about the provider goes |
| `CredentialStore.Store.SelectCredential` | src/control.rs:2719-2766 | the chosen credential becomes active, unsaved |
| `CredentialStore.Store.RotateCredential` | src/control.rs:2833-2864 | the next other usable credential becomes active |
| `CredentialStore.Store.RecordOutcome` | src/control.rs:1881-1928 | cooldown, rotation and an optional save |
| `CredentialStore.Store.SaveOrRestore` | src/control.rs:2521-2532 | what was saved stays, otherwise everything comes back |
| `CredentialStore.FindEnabled` | src/control.rs:2866-2876 | the first enabled credential in key order other than the excluded one |
| `CredentialStore.CollectUsable` | src/control.rs:2809-2822 | the usable credentials in key order |
| `KeyOrder.ListingOk` | src/control.rs:2726-2733 | iteration over an ordered map visits every key once, in increasing order |
| `ApiKeyRuns.LookupAlwaysIsScan` | src/control.rs:1967-1972 | in every run with fresh hashes, across committed, failed and ambiguous writes, a hash lookup on any instance finds exactly the key a scan finds |
| `ApiKeyRuns.LookupIsScanExactlyWhen` | src/control.rs:3121-3127 | a lookup in a rebuilt index finds what the scan finds iff no two keys share the hash |
| `ApiKeyRuns.SharedHashDisagrees` | src/control.rs:3121-3127 | two keys with one hash: the index answers with the later id, the scan with the earlier |
| `ApiKeyRuns.TeamReferencesHold` | src/control.rs:1700-1760 | in every instance and revision each key's team exists, its cached team name is the current one, and team slugs are unique |
| `ApiKeyRuns.AdmittedExactlyWhen` | src/control.rs:1955-1999 | in every run a token is admitted as a key iff that key has its hash, is active, unexpired and its team is active; it is unknown iff no key has the hash |
| `ApiKeyRuns.UpsertTeamOk` | src/control.rs:1668-1740 | renaming a team renames it in every key and keeps slugs unique |
| `ApiKeyRuns.DeleteTeamOk` | src/control.rs:1742-1760 | a team in use is not deleted |
| `ApiKeyRuns.CreateKeyOk` | src/control.rs:2198-2235 | a new key names an existing team by its current name |
| `ApiKeyRuns.UpdateKeyOk` | src/control.rs:2256-2354 | so does an updated one |
| `ApiKeyStore.BuildIndex` | src/control.rs:3121-3127 | the index built in key order, a later id replacing an earlier one |
| `ApiKeyStore.Store.SaveOrRestore` | src/control.rs:2521-2532 | tables and rebuilt index stay if saved, otherwise both come back |
| `ApiKeyStore.Store.CheckSlug` | src/control.rs:1700-1708 | whether another team has the slug |
| `ApiKeyStore.Store.RenameInKeys` | src/control.rs:1733-1737 | the team's name is written into exactly the keys that refer to it |
| `ApiKeyStore.Store.PutTeam` | src/control.rs:1699-1739 | team upsert |
| `ApiKeyStore.Store.CountReferences` | src/control.rs:1744-1749 | positive iff some key refers to the team |
| `ApiKeyStore.Store.DropTeam` | src/control.rs:1742-1760 | team deletion |
| `ApiKeyStore.Store.AddKey` | src/control.rs:2199-2235 | key creation |
| `ApiKeyStore.Store.Revoke` | src/control.rs:2242-2254 | key revocation |
| `ApiKeyStore.Store.Amend` | src/control.rs:2256-2354 | key update |
| `ApiKeyStore.Store.DropKey` | src/control.rs:2379-2387 | key deletion |
| `ApiKeyStore.Store.DropUser` | src/control.rs:2389-2399 | all keys of a user are revoked |
| `ApiKeyStore.Store.SignIn` | src/control.rs:1955-2000 | admission by the index, revoking an expired key on the way |
| `Resolution.AgreesExactlyUpToEightHops` | src/config.rs:909-998 | on every alias map, cyclic or not: if the unbounded alias walk ends after at most eight hops the bounded one agrees with it, and otherwise the result is the depth error, iff |
| `Resolution.FewAliasesAreExact` | src/config.rs:909-927 | with at most eight aliases the depth error means exactly that the walk is endless |
| `Resolution.CycleIsTooDeep` | src/config.rs:914-918 | a name that leads back to itself is reported as too deep |
| `Resolution.PassesOnce` | src/config.rs:966-998 | a walk that ends passes no alias twice |
| `ResolutionChecks.TotalExactlyWhen` | src/config.rs:729-731 | every model name resolves iff the default provider exists and every alias that can be requested resolves; whatever resolves names a configured provider |
| `ResolutionChecks.NoIssuesMeansTotal` | src/config.rs:834-891 | a configuration in which the routing checks find nothing resolves every model name to a configured provider |
| `ResolutionChecks.ValidationIssues` | src/config.rs:818-891 | the routing errors found, for whichever order the aliases are visited in |
| `ResolutionChecks.CheckAliases` | src/config.rs:875-891 | the alias loop |
| `ResolutionChecks.ListedModelsGoToTheirProvider` | src/config.rs:1049-1061 | a plain name that some provider lists goes unchanged to the first such provider in the routing order |
| `ResolutionChecks.PrefixedModelsGoToTheirProvider` | src/config.rs:1063-1075 | a plain name that nobody lists goes unchanged to the first provider in the order with a matching prefix |
| `ResolutionChecks.QualifiedNamesResolveToThemselves` | src/config.rs:1022-1027 | a name written provider:model resolves to that provider and model, whatever the aliases say |
| `Metrics.BoundedExactlyWhen` | src/metrics.rs:166-184 | over at most three traffic classes the number of series respects the cap in every run iff the cap is at least two |
| `Metrics.ExactPerClassExactlyWhen` | src/metrics.rs:172-178 | requests are exact per traffic class in every countable run iff the cap is at least four |
| `Metrics.NothingLostExactlyWhen` | src/metrics.rs:414-431 | the series' requests add up to the calls iff no series counted more calls than its counter can hold |
| `Metrics.CountsAddUp` | src/metrics.rs:153-185 | for up to 2^64 - 1 calls the requests add up to the calls, whatever the cap |
| `Metrics.CountersAreClippedTallies` | src/metrics.rs:414-445 | requests, outcomes, duration and the four token counters are each the exact total over the series' calls clipped at 64 bits, and the cost is the total of the non-negative estimates |
| `Metrics.Recorder.RecordMessage` | src/metrics.rs:153-185 | one call is counted in its own series or the overflow series |

## Left out

- ResolutionChecks.ValidationIssues: only the routing errors of the checks; authentication, provider, URL, environment and smart-routing issues are not part of this model.
- LedgerMemory.MemoryLedger.OpenRequest: the checks of path, traffic class and metadata that precede the lock are not modelled, nor are the descriptive fields of a request.
- AuthStore.Store.Create: input validation and password hashing happen before the lock and are not modelled; the user arrives built.
- AuthStore.Store.StartLogin: the name arrives normalised; the length checks on name and password that precede the lock are not modelled.
- ApiKeyStore.Store.SignIn: resetting expired quotas on the way is not modelled.
- AuthStore.Store.Bootstrap: the environment variables and the checks of their text are not modelled; the accounts arrive built, with distinct ids.
- AuthReplicas.NoLostUpdates: restoring a backup, which overwrites the document on purpose, is not one of the steps; `AcceptedDocumentIsSound` says what such a document establishes.
- GovernancePolicy.EnforceAttempt: whether a host is local, its region and its API version are given with the attempt; parsing the URL is not modelled.
- CredentialStore.Store.RecordOutcome: the failure kind, the cooldown length and the provider's own health record are supplied or left out.
- ApiKeyStore.Store.Amend: spend limits, address rules and model and provider scopes of a key are not modelled, nor are quotas.
- CredentialRuns.PoolsStayConsistent: the first load's write of the default document is not a step.
- Metrics.Recorder.RecordMessage: the cost total is a real number, so floating-point rounding is not modelled; neither are the other counters of routes, rejections and ledger operations.
- The PostgreSQL paths of the ledger and the stores: SQL text and transactions.
- Dashboards, log queries and usage reports over the ledger: aggregation without state of its own.
- The Anthropic to OpenAI response translation and streaming: field copying.
- Smart routing, pricing, provider failure guidance and URL policy: tables and single-branch checks.
- `finalization.rs`, the command line, deployment and database set-up: no rule beyond what the runtime promises.
