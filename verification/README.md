# The budget ledger and delegation authority of the Mandate control plane, verified

This project models, in Dafny, how the control plane lets software agents spend money under
mandates, and proves that the money adds up.

A *mandate* has a spend limit and two counters: what is *committed* and what is *reserved*. A
financial *operation* passes the policy engine, reserves its amount with one conditional update,
is dispatched to the payment gateway, and is later settled: committed or released. Gateway
execution, payment verification, the captured and failed webhooks, and the reconciliation sweep
all write the same two counters. Mandates form a delegation forest whose parents carve budget out
for their children, and a rate limiter guards each agent.

## How the model is laid out

| file | content |
|---|---|
| `Domain.dfy`, `Sums.dfy` | entities as values; sums over tables |
| `Lifecycle.dfy` | the transition matrix, its closure and its height |
| `Forest.dfy` | ancestry, delegation checks, the breadth-first cascade, reactivation |
| `Policy.dfy` | the nine rules, the walk up the parents, the fold into one decision |
| `Ledger.dfy` | the state, and the effect of each database transaction |
| `Books.dfy` | the conservation laws and the one argument by which every transaction keeps them |
| `Settlement.dfy`, `Sweep.dfy`, `Webhooks.dfy` | settlement in any order, by sweep and by webhook |
| `Machine.dfy`, `Safety.dfy`, `EventLog.dfy`, `TreeBudget.dfy`, `Headroom.dfy`, `Burst.dfy` | the transition system and the theorems over all its runs |
| `Decisions.dfy`, `Requests.dfy`, `Grants.dfy`, `Deliveries.dfy`, `Reconciliation.dfy` | what the policy, each endpoint, each handler and the sweep do, stated on the rows before and after |
| `Interleaving.dfy`, `Accounts.dfy`, `ExactlyOnce.dfy`, `Overspend.dfy`, `Contention.dfy` | reads and writes as separate steps of concurrent workers, and what then holds exactly when |
| `Admission.dfy`, `RateLimiter.dfy` | bursts of reservations; the deque, the Redis set and the full history |
| `Store.dfy` | the class whose methods change the tables statement by statement |
| `Witnesses.dfy` | concrete runs that show where the theorems stop |

`Store.ControlPlane` has the tables as fields and one method per endpoint, handler and worker
loop. Each method is proved to have the effect that `Ledger` states for its transaction; `Machine`
strings these effects into runs, and the theorems are about every state that a run can reach. Five
modules state what each step does a second time, on the bare fields of the rows and without the
functions of `Forest`, `Policy` and `Ledger` that compute it.
A database transaction is one atomic step, except in `Interleaving`. The clock, the rate limiter's
answer, gateway answers, fresh keys and signature validity are inputs of the steps.

Operations are keyed by their idempotency key and transaction rows by their operation; both are
unique (`packages/core/models.py:192`; a row is inserted only by gateway execution, which
`Safety.SettledOnce` shows to happen at most once). Each operation carries a `Book` that counts
its reservations, dispatches, commits, releases and refunds and lists its statuses. The program
keeps no such record. The model advances it at exactly the statements that move the amount, call
the gateway or change the status, and `Safety.MovementsAddUp` ties it back to the real counters.

## Assumptions on the environment

`Machine.Fair` states them for runs of atomic transactions.

- Payment verification is called for operations in flight. The code does not check this:
  `Safety.VerifyExact` shows that verification keeps the reserve equal to the operations in flight
  exactly when the operation is in flight, `Safety.VerifyKeepsTotal` that committed plus reserved
  never changes in that step, and `Witnesses.SecondVerificationBreaks` gives a run that ends with a
  negative reserve.
- A refund event is for no more than is left of the operation that it is credited to. That is the
  operation whose transaction row carries the payment. After a sweep, which records no payment
  reference, this can be a smaller refund operation of the control plane, so a gateway that never
  refunds more than it captured can still send an event beyond the bound. The two conservation
  equations hold for refund events of any amount (`Safety.ConservationUnderAnyRefunds`); the sign
  of committed spend and the limit need the bound.

`Interleaving` and the modules that build on it do not make these assumptions part of the model: there
requests, approvals and settlements read first and write later, and verification of any operation
and refunds of any amount are actions. The theorems name the actions that they exclude, and
`ExactlyOnce.ExactlyOnce` and `Overspend.LimitExact` give the exact conditions.

## Where the code and its documentation differ

- The documentation promises that an operation is committed exactly once or released exactly once.
  That holds when each transaction is atomic and verification fair (`Safety.SettledOnce`). When
  reads and writes interleave and verification is unrestricted, it holds, together with the
  conservation of both counters and a lawful history, exactly when no approver writes on an
  operation that no longer awaits approval (other than to reject a rejected one) and no payment
  verification, webhook handler or sweep settles an operation that is not in flight
  (`ExactlyOnce.ExactlyOnce`; a handler that would release a failed operation again but finds the
  reserve too small changes nothing and does not count). For the counts and counters alone the
  exact condition on approvers is a little weaker (`ExactlyOnce.CountsExact`). Two stale approvers
  of a refund commit it twice (`ExactlyOnce.TwoApproversTakeTwice`); a stale approver overrides a
  rejection (`ExactlyOnce.RejectionIsOverwritten`); two overlapping deliveries for one order, such
  as payment.captured and order.paid, commit it twice (`Overspend.TwoDeliveriesCommitTwice`).
- Committed plus reserved stays within a mandate's limit in every interleaving in which only
  operations in flight are settled and refunds are fair (`Accounts.NoOverspend`). In general
  it stays there exactly when no captured handler finds a reserve that is too small and a limit
  without room for the amount, and no refund event takes back more than there is room for
  (`Overspend.LimitExact`). Both a verification out of flight and two overlapping deliveries lead
  beyond the limit from reachable states (`Witnesses.StrayVerificationIsReal`,
  `Witnesses.OverlappingDeliveriesAreReal`).
- The state machine's matrix has no entry from INITIATED to RESERVED, which the pipeline uses.
  Histories lie in the transitive closure (`Safety.LifecycleRefinesMatrix`).
- The sweep and the captured webhook agree on the ledger but not on the payment reference. A refund
  event after a sweep has no effect (`Sweep.SweptPaymentsMissRefunds`).
- A refund that the control plane dispatches puts the refunded payment on a second row, after which
  refund events for that payment raise (`Webhooks.DispatchedRefundsShadowPayments`).
- The reservation does not count delegated shares, so a tree can spend more than its root's limit;
  the bound per level is attained (`Witnesses.TreeBoundIsTight`). A tree stays within its root's
  limit exactly when its headrooms do not sum below zero (`TreeBudget.TreeWithinLimitExact`), and
  always would if a reservation looked at the headroom of its mandate
  (`Headroom.GuardedTreesStayWithinLimits`).
- The two rate limiters prune differently: the deque pops from its front, Redis removes every stale
  score. They agree as long as the clock does not step back (`RateLimiter.LimitersAgree`,
  `RateLimiter.ClockStepsBack`); beyond cost one they store differently (`RateLimiter.StoresAgree`).

## Model

| member | source | states |
|---|---|---|
| Safety.Conservation | apps/api/routes/operations.py:177-331 | in every reachable state a mandate's reserve is the sum of its RESERVED and EXECUTING operations, committed plus refunds is the sum of its SUCCEEDED ones, both are non-negative and together within the limit |
| Safety.ConservationUnderAnyRefunds | apps/api/routes/webhooks.py:269-298 | the two conservation equations, and the cover of each operation in flight, hold for refund events of any amount |
| Safety.MovementsAddUp | apps/api/routes/webhooks.py:185-205 | the counters equal the sums of all recorded reservations, commits, releases and refunds |
| Safety.ShortfallIsUnreachable | apps/api/routes/webhooks.py:186-205 | whenever an operation is in flight its mandate reserves at least its amount, so the shortfall branches are dead |
| Safety.SettledOnce | README.md:252-254 | at most one reservation, committed once or released once and never both; at most one dispatch, only when reserved, none while rejected or awaiting approval |
| Safety.NextContinues | apps/api/routes/webhooks.py:170-180 | any fair step keeps each operation, extends its history, and leaves settled and rejected operations alone except for refunds |
| Safety.RunContinues | services/worker/main.py:64-69 | the same over any fair run: nothing reopens or resettles an operation |
| Safety.LifecycleRefinesMatrix | packages/core/state_machine.py:46-80 | no status history repeats a status, each entry is reached from all earlier ones in the transitive closure of the matrix, and there are at most four changes |
| Safety.ReplayIsIdle | apps/api/routes/operations.py:100-108 | replaying an idempotency key changes nothing in any later state of a run, whatever the replayed request says |
| Safety.ReplaysLeaveNoTrace | apps/api/routes/operations.py:100-108 | all replays of a taken key can be dropped from a run without changing its end |
| Safety.VerifyKeepsTotal | apps/api/routes/operations.py:430-438 | payment verification never changes committed plus reserved, for any status |
| Safety.VerifyExact | apps/api/routes/operations.py:429-458 | verification keeps the reserve equal to the operations in flight if and only if the operation is in flight |
| Safety.AuthorityIsUpwardClosed | apps/api/routes/mandates.py:287-295 | in every reachable state an ACTIVE mandate has only ACTIVE ancestors, and the decision without the parent walk equals the decision with it |
| Safety.NoEscalation | apps/api/routes/mandates.py:92-150 | what the policy does not deny on a mandate respects every ancestor's ceiling, expiry, currency and whitelist |
| Lifecycle.MovesInto | packages/core/state_machine.py:46-87 | which statuses may move to each target |
| Lifecycle.ClosureExact | packages/core/state_machine.py:46-80 | the transitive closure of the matrix is exactly the tabulated relation |
| Lifecycle.ReservedIsReachable | packages/core/state_machine.py:47-63 | INITIATED to RESERVED is in the closure though no single entry allows it |
| Lifecycle.ReachesLowers | packages/core/state_machine.py:75-80 | the closure strictly lowers a height, so it is a partial order and terminal statuses absorb |
| Lifecycle.PathIsShort | packages/core/state_machine.py:46-80 | a walk through the matrix is bounded by the heights of its ends |
| Lifecycle.ChainIsShort | packages/core/state_machine.py:46-80 | a status history has at most four changes, never returns to a status, and the closure leads from each entry to all later ones |
| Books.CountersCover | apps/api/routes/webhooks.py:187-205 | balanced books imply a non-negative reserve that covers each operation in flight, and within bounds a non-negative committed spend |
| Books.OneMove | packages/core/concurrency.py:12-20 | a transaction that rewrites one operation and moves the counters by the change in its shares keeps the conservation laws |
| Books.ReserveKeeps | packages/core/concurrency.py:10-23 | a successful conditional reservation keeps them |
| Books.ExecuteKeeps | apps/api/routes/operations.py:219-331 | gateway execution keeps them for every operation type and gateway answer |
| Books.CaptureKeeps | apps/api/routes/webhooks.py:180-196 | the settlement by a captured payment keeps them |
| Books.FailPaymentKeeps | apps/api/routes/webhooks.py:241-254 | the settlement by a failed payment keeps them |
| Books.CreditRefundKeeps | apps/api/routes/webhooks.py:289-298 | a refund of any amount keeps the equations, and one within what was captured keeps the bounds as well |
| Machine.NextKeepsInv | apps/api/routes/operations.py:68-209 | every step of every endpoint, handler and worker keeps the equations if verification is fair, and the whole invariant if refunds are fair too |
| Machine.RunKeepsInv | apps/api/routes/webhooks.py:114-147 | so does every fair run |
| Machine.RequestKeepsInv | apps/api/routes/operations.py:68-209 | the request pipeline keeps the invariant |
| Machine.ApproveKeepsInv | apps/api/routes/operations.py:335-400 | human approval keeps the invariant |
| Machine.DelegateKeepsInv | apps/api/routes/mandates.py:156-203 | delegation keeps the invariant |
| Machine.DeliverKeepsInv | apps/api/routes/webhooks.py:84-147 | a webhook delivery keeps the equations, and the invariant if its refund is fair |
| Machine.SweepKeepsInv | services/worker/main.py:63-186 | a sweep keeps the invariant |
| Forest.CascadeStatus | apps/api/routes/mandates.py:325-363 | the queue loop sets the status on exactly the root and its descendants, bumps each version once, writes one audit event for each, and ends on any single-parent graph |
| Forest.CascadeKeepsForest | apps/api/routes/mandates.py:325-363 | a cascade to an inactive status keeps the forest sound |
| Forest.ActivateKeepsForest | apps/api/routes/mandates.py:287-297 | guarded reactivation keeps the forest sound |
| Forest.CreateKeepsForest | apps/api/routes/mandates.py:56-68 | issuing a root mandate keeps the forest sound |
| Forest.DelegateKeepsForest | apps/api/routes/mandates.py:182-203 | an accepted delegation keeps the forest sound, in particular delegated allocation equals the sum of the children's limits and fits the parent's |
| Forest.DelegationNarrows | apps/api/routes/mandates.py:92-150 | a child that passes the checks is narrower than its parent in currency, ceiling, expiry and whitelist |
| Forest.AncestorBounds | apps/api/routes/mandates.py:188-201 | every ancestor exists, lies k levels higher, is ACTIVE above an ACTIVE mandate, and bounds it |
| Decisions.DecisionMeans | packages/policy/engine.py:72-510 | on the raw fields: denied unless agent, mandate, validity, ancestors, currency, whitelist, ceiling, room and rate limit all permit; otherwise reviewed exactly when nobody has signed and a nonzero threshold is at or below the amount; otherwise allowed |
| Decisions.RejectionsMean | packages/policy/engine.py:486-490 | a rule is among the rejection reasons exactly when it denies |
| Decisions.ReviewsMean | packages/policy/engine.py:486-494 | a rule is among the review reasons exactly when it asks for review and no rule before it denies |
| Requests.RequestRefused | apps/api/routes/operations.py:100-127 | a replayed key, an unknown agent or an unknown mandate changes nothing |
| Requests.RequestDecides | apps/api/routes/operations.py:128-209 | a fresh request is recorded as asked for, and then reserved and executed, parked for approval, or rejected, as the raw fields of agent and mandate say |
| Requests.ReservedExactly | apps/api/routes/operations.py:150-209 | a reservation is recorded if and only if everything permits the request and no review threshold is reached; if only the threshold stands against it the operation awaits approval, undispatched, with all mandates unchanged |
| Requests.ExecutionTakes | apps/api/routes/operations.py:212-331 | by type and gateway answer: the status, the counts, both counters and the references on the transaction row |
| Requests.ApprovalRefused | apps/api/routes/operations.py:347-357 | sign-off of an operation that does not await approval changes nothing |
| Requests.ApprovalDecides | apps/api/routes/operations.py:359-399 | a granted approval reserves and executes if the amount still fits; otherwise the operation is rejected and nothing moves |
| Requests.VerificationRefused | apps/api/routes/operations.py:411-427 | an invalid signature or an unknown operation changes nothing |
| Requests.VerificationCommits | apps/api/routes/operations.py:429-458 | a valid verification moves exactly the amount, marks the operation as succeeded and records the payment |
| Grants.AgentIsSet | apps/api/routes/agents.py:94-106 | an agent takes the given status and nothing else changes |
| Grants.IssueGrants | apps/api/routes/mandates.py:27-68 | a known agent gets a root mandate on exactly the requested terms |
| Grants.DelegationGrants | apps/api/routes/mandates.py:156-203 | the child exists if and only if the three lookups and six checks pass; it has the requested agent, ceiling, limit and expiry, permits exactly the types asked for, and takes its limit from the parent's unallocated budget |
| Grants.FirstFailureIsNamed | apps/api/routes/mandates.py:92-150 | the reason is that of the first lookup or check that fails |
| Grants.CascadesFall | apps/api/routes/mandates.py:256-363 | suspension and revocation set their status, one version later, on exactly the mandates at and below the root |
| Grants.ReactivationActivates | apps/api/routes/mandates.py:278-300 | the mandate is active afterwards if it has no parent, its parent's row is missing or its parent is active; otherwise, and for everything else, nothing changes |
| Grants.SuspensionIsUndone | apps/api/routes/mandates.py:256-300 | a suspended root can reserve nothing, and reactivation gives back exactly the authority it had |
| Deliveries.DuplicateIsIgnored | apps/api/routes/webhooks.py:89-95 | a processed event is ignored |
| Deliveries.CapturedSettles | apps/api/routes/webhooks.py:150-217 | a captured payment commits the operation in flight that alone carries its order, and records the payment |
| Deliveries.CapturedTooLate | apps/api/routes/webhooks.py:170-178 | for a succeeded operation it changes nothing; for one that failed, was rejected or awaits approval it raises, and the event is not processed |
| Deliveries.FailedReleases | apps/api/routes/webhooks.py:220-266 | a failed payment releases the operation in flight that alone carries its order |
| Deliveries.FailedTooLate | apps/api/routes/webhooks.py:238-239 | for any other operation it changes nothing |
| Deliveries.UnknownOrders | apps/api/routes/webhooks.py:157-168 | an event without an order or for an unknown one changes nothing |
| Deliveries.AmbiguousOrders | apps/api/routes/webhooks.py:162-165 | an order on two rows makes both handlers raise |
| Deliveries.OtherEventsPass | apps/api/routes/webhooks.py:301-314 | events of other types change nothing |
| Deliveries.RefundCredits | apps/api/routes/webhooks.py:269-298 | a refund lowers the committed spend of its payment's mandate by exactly the event's amount and changes no reserve, no status and no other mandate |
| Deliveries.UnknownRefunds | apps/api/routes/webhooks.py:274-287 | an unknown payment changes nothing, an ambiguous one makes the handler raise |
| Deliveries.VerifiedPaymentIsRefunded | apps/api/routes/operations.py:448-456 | after a verification a refund event for that payment credits the verified operation |
| Deliveries.ConfirmedOrderIsCaptured | apps/api/routes/operations.py:221-242 | after a confirmed order a captured event for the gateway's reference settles it |
| Deliveries.RefundsAddUp | apps/api/routes/webhooks.py:289-298 | over any run the refunds recorded for a mandate grow by the amounts of the refund events that found its operations |
| Deliveries.CommittedIsCapturedLessRefunds | apps/api/routes/webhooks.py:180-298 | committed spend is the sum of the succeeded operations less the refund events that took effect |
| Reconciliation.SweepDecides | services/worker/main.py:63-186 | of the selected operations exactly those with a paid order are committed and exactly those never dispatched, or attempted or created for more than 300 seconds, released; every other operation and row is as before |
| Reconciliation.UnfetchedIsLeft | services/worker/main.py:181-184 | an order that could not be fetched keeps operation, row and reservation |
| Policy.WalkParents | packages/policy/engine.py:184-207 | the loop up the parents ends and allows exactly when every mandate on the way exists and is ACTIVE |
| Policy.EvaluateRule | packages/policy/engine.py:72-445 | each rule's branches compute its verdict |
| Policy.Evaluate | packages/policy/engine.py:462-510 | the loop over the rules computes the order-free decision, all denials in order, and the review reasons before the first denial |
| Policy.DecisionIgnoresOrder | packages/policy/engine.py:486-494 | the decision depends on which rules run, not on their order or repetition |
| Policy.WalkChangesNothing | packages/policy/engine.py:183-207 | in a sound forest the decision without the parent walk equals the decision with it |
| Policy.AllowBindsAncestors | packages/policy/engine.py:252-356 | an operation that is not denied respects every ancestor's terms and fits the mandate's own limit |
| TreeBudget.LevelFits | apps/api/routes/mandates.py:135-148 | the limits at each depth below a mandate sum to at most its limit |
| TreeBudget.TreeIdentity | apps/api/routes/mandates.py:94-98 | what a tree spends and reserves plus the headroom of its mandates (limit less committed, reserved and delegated) is its root's limit |
| TreeBudget.TreeWithinLimitExact | packages/core/concurrency.py:12-20 | a tree stays within its root's limit if and only if its headrooms do not sum below zero |
| Headroom.HeadroomIsExact | packages/core/concurrency.py:12-20 | headroom everywhere in a tree is exactly what keeps each subtree within its own root's limit when all mandates below reserve what they have left |
| Headroom.ReservationKeepsHeadroom | packages/core/concurrency.py:12-20 | a reservation keeps headroom everywhere if and only if its amount fits beyond what its mandate delegated |
| Headroom.ReservationKeepsTree | packages/core/concurrency.py:12-20 | a reservation keeps the tree above it within its root's limit if and only if the tree as a whole has the headroom |
| Headroom.StepCoversExactly | packages/core/concurrency.py:10-23 | of all steps of all endpoints exactly those use headroom up whose decision or sign-off allows, whose amount fits and stays taken, and whose amount exceeds the mandate's headroom, all known before the step |
| Headroom.GuardedTreesStayWithinLimits | apps/api/routes/mandates.py:94-98 | over every fair run whose reservations respect the headroom every tree stays within its root's limit |
| TreeBudget.TreeSpendIsBounded | apps/api/routes/mandates.py:94-98 | in every reachable state a whole subtree has committed and reserved at most (max depth - depth + 1) times the root's limit |
| Witnesses.TreeBoundIsTight | packages/core/concurrency.py:13-19 | that bound is attained by a fair run, in which a tree spends three times its root's limit |
| Witnesses.SecondVerificationBreaks | apps/api/routes/operations.py:429-458 | a fair run after which a second verification makes the reserve negative |
| Settlement.Determined | apps/api/routes/webhooks.py:188-196 | a state reached by settlements is determined by its operations, rows and events alone |
| Settlement.OneMore | apps/api/routes/webhooks.py:188-196 | each settlement bumps its mandate's version once and keeps the state determined |
| Sweep.SweepEffect | services/worker/main.py:71-180 | the sweep's loop has the effect computed row by row from the state before it |
| Sweep.SweepIgnoresOrder | services/worker/main.py:64-69 | the order in which stuck operations are returned does not matter |
| Sweep.OnlyPaymentLinksRemain | services/worker/main.py:84-180 | with an answer for every order and everything older than 300 seconds, exactly the payment-link operations stay in flight |
| Sweep.SweepIsQuiescent | services/worker/main.py:64-180 | a second sweep with the same clock and answers changes nothing |
| Sweep.WebhookAfterSweep | apps/api/routes/webhooks.py:170-172 | the captured webhook after the sweep of its paid order does nothing more |
| Sweep.SweepAfterWebhook | services/worker/main.py:122-138 | the webhook followed by the sweep of the rest equals the sweep alone, up to the payment reference |
| Sweep.SweptPaymentsMissRefunds | apps/api/routes/webhooks.py:278-298 | a refund event credits the mandate after the webhook but has no effect after the sweep |
| Webhooks.Delivered | apps/api/routes/webhooks.py:150-266 | any sequence of captured and failed events amounts to the first event of each operation in flight |
| Webhooks.DeliveryEquivalence | apps/api/routes/webhooks.py:150-266 | two sequences that agree on the first event of each operation in flight leave the same state |
| Webhooks.EventsCommute | apps/api/routes/webhooks.py:150-266 | events about different operations commute, even on the same mandate |
| Webhooks.OnlyFirstsCount | apps/api/routes/webhooks.py:170-180 | all deliveries together equal the effective ones, each applied once |
| Webhooks.AttemptsCount | apps/api/routes/webhooks.py:84-126 | whatever bodies come under an event identifier, the ledger is the one after the bodies of the attempted deliveries |
| Webhooks.DeliveriesAreEvents | apps/api/routes/webhooks.py:84-126 | if each identifier carries one body, the ledger after the deliveries is the one after all the bare events |
| Webhooks.RepeatChangesNothing | apps/api/routes/webhooks.py:170-172 | repeating a past event has no further effect |
| Webhooks.DispatchedRefundsShadowPayments | apps/api/routes/operations.py:278-291 | after a dispatched refund, refund events for a payment that another row carries raise; otherwise they credit the refund's own mandate |
| EventLog.ProcessedAbsorbs | apps/api/routes/webhooks.py:89-95 | over any run a PROCESSED record never changes and its event never applies again |
| EventLog.AppliedAtMostOnce | apps/api/routes/webhooks.py:84-126 | over any run an event takes effect at most once |
| EventLog.FailureTouchesOnlyTheRecord | apps/api/routes/webhooks.py:128-147 | a raising handler leaves everything but the event's record as it was |
| EventLog.FailuresAreCounted | apps/api/routes/webhooks.py:97-110 | an event that only failed was attempted as often as it failed and is dead-lettered exactly from the third attempt on |
| Accounts.NoOverspend | packages/core/concurrency.py:10-23 | under every interleaving of reads and writes of requests, approvals and settlements, with settlements and verifications of operations in flight and fair refunds, the limit holds, the counters are the recorded movements, the reserve covers each operation in flight, and it exceeds them by exactly the raced amounts |
| Interleaving.UninterruptedRequest | apps/api/routes/operations.py:110-209 | a request whose write follows its read at once is the atomic request |
| Interleaving.UninterruptedApproval | apps/api/routes/operations.py:341-399 | an approval whose write follows its read at once is the atomic approval |
| Interleaving.UninterruptedSettlement | apps/api/routes/webhooks.py:170-205 | a settlement whose write follows its read at once settles an operation in flight and no other |
| ExactlyOnce.ExactlyOnce | apps/api/routes/operations.py:341-458 | over every interleaving, each operation is reserved, dispatched and settled at most once by a lawful history and both counters equal their sums, if and only if no approver writes on an operation that no longer awaits approval, rejecting a rejected one aside, and no operation is settled, by verification, handler or sweep, while not in flight |
| ExactlyOnce.ReachableStarts | apps/api/routes/operations.py:335-400 | every state that atomic runs reach is a start for the theorems on interleavings |
| ExactlyOnce.CountsExact | apps/api/routes/operations.py:347-384 | with settlement of operations in flight only, the counts and counters are right if and only if no approver writes on an operation in flight or succeeded, or reserves again a released one |
| ExactlyOnce.TwoApproversTakeTwice | apps/api/routes/operations.py:278-305 | two approvers that both read before either writes reserve and dispatch twice, and commit a refund twice |
| ExactlyOnce.RejectionIsOverwritten | apps/api/routes/operations.py:347-384 | an approver that read before another one's rejection still reserves and dispatches the operation |
| Overspend.LimitStep | apps/api/routes/webhooks.py:187-205 | one action breaks a mandate's limit if and only if it is a captured handler with too small a reserve and no room, or a refund event that takes back more than there is room for |
| Overspend.LimitExact | packages/core/concurrency.py:12-20 | over every interleaving a mandate stays within its limit in every state if and only if no action is of these two kinds |
| Overspend.StrayVerificationOverspends | apps/api/routes/operations.py:429-438 | after a verification out of flight the captured handler takes its shortfall branch and exceeds a used-up limit by the amount |
| Overspend.TwoDeliveriesCommitTwice | apps/api/routes/webhooks.py:170-205 | two deliveries for one order that both read before either writes commit it twice, the second without reducing a reserve that covers it once |
| Witnesses.StrayVerificationIsReal | apps/api/routes/operations.py:429-458 | from a reachable state a verification out of flight leads to 300 spent of 200 |
| Witnesses.OverlappingDeliveriesAreReal | apps/api/routes/webhooks.py:170-205 | from a reachable state two overlapping deliveries lead to 200 spent of 100 |
| Contention.ContentionIsExact | tests/test_evidence_claims.py:171-187 | of n equal requests whose reads and writes interleave in any order exactly min(n, room / size) execute, the others are rejected, and the reserve grows by what executes |
| Admission.NoRejectedWouldFit | packages/core/concurrency.py:12-21 | without releases, nothing that was rejected fits in the end |
| Admission.EqualRequestsExact | packages/core/concurrency.py:12-21 | of n equal reservations exactly min(n, room / size) succeed and the reserve grows by what was admitted |
| Burst.BurstMatchesAdmission | apps/api/routes/operations.py:137-209 | a burst through the whole pipeline admits what the bare reservations admit, and rejects the rest |
| Burst.BurstIsExact | apps/api/routes/operations.py:137-209 | of n equal requests one after the other with distinct keys exactly min(n, room / size) execute |
| RateLimiter.PopStale | packages/shared/rate_limiter.py:132-134 | the pruning loop pops the stale front, and a stale timestamp behind a recent one stays |
| RateLimiter.PopFrontExact | packages/shared/rate_limiter.py:132-134 | popping the front keeps at least the recent timestamps, and exactly them if and only if nothing stale is behind a recent one |
| RateLimiter.CheckBucket | packages/shared/rate_limiter.py:132-151 | one call on a deque, by loop and branch, is the step on its timestamps |
| RateLimiter.CallIsDecided | packages/shared/rate_limiter.py:132-142 | a call is admitted if and only if the admissions of the last window and its cost stay within the limit, and is then remembered as often as it costs |
| RateLimiter.LocalRefinesHistory | packages/shared/rate_limiter.py:132-142 | the pruned deque admits exactly what the full admission history would |
| RateLimiter.AdmissionsAreRecorded | packages/shared/rate_limiter.py:132-151 | over any run with a nondecreasing clock the deque admits what the full history would |
| RateLimiter.LocalRunBound | packages/shared/rate_limiter.py:132-151 | over any such run against the deque no window, wherever it ends, admits more than the limit |
| RateLimiter.WindowBound | packages/shared/rate_limiter.py:135-142 | a spaced history never exceeds the limit in any window |
| RateLimiter.StoresAgree | packages/shared/rate_limiter.py:68-84 | the deque never admits what Redis rejects on the same timestamps; with nothing stale hidden they decide alike, and store alike exactly when the call is rejected or costs one |
| RateLimiter.StoresAgreeExactly | packages/shared/rate_limiter.py:132-142 | for cost one the two stores end alike if and only if nothing stale is hidden |
| RateLimiter.LimitersAgree | packages/shared/rate_limiter.py:68-142 | one call at a time with cost one and a clock that does not step back, both give the same decisions and the same timestamps |
| RateLimiter.ClockStepsBack | packages/shared/rate_limiter.py:132-134 | a clock that steps back makes the deque reject what Redis admits |
| RateLimiter.PipelineIsDecided | packages/shared/rate_limiter.py:68-84 | the pipeline grants if and only if the members of the last window leave room for one more, and only a rejected call is reverted |
| RateLimiter.RevertIsDone | packages/shared/rate_limiter.py:82-84 | a revert takes away exactly the member of its rejected call |
| RateLimiter.RedisRunBound | packages/shared/rate_limiter.py:68-84 | with reverts delayed at will and distinct member ids no window admits more than the limit |
| RateLimiter.ImmediateRevert | packages/shared/rate_limiter.py:82-84 | a pipeline whose revert follows at once is one sequential step |
| RateLimiter.LocalLimiter.CheckRateLimit | packages/shared/rate_limiter.py:132-151 | for any clock reading the local limiter decides by the key's deque and touches no other key; while the key's clock never stepped back it decides by the key's full history |
| Store.ControlPlane.ReserveBudget | packages/core/concurrency.py:10-23 | the conditional update succeeds exactly when the row exists and the amount fits, and then adds it to the reserve |
| Store.ControlPlane.CommitReserved | apps/api/routes/webhooks.py:185-205 | the guarded commit with both of its branches |
| Store.ControlPlane.ReleaseReserved | apps/api/routes/webhooks.py:245-254 | the guarded release with both of its branches |
| Store.ControlPlane.HandleCaptured | apps/api/routes/webhooks.py:150-217 | in a valid store the handler settles the operation in full or changes nothing |
| Store.ControlPlane.HandleFailed | apps/api/routes/webhooks.py:220-266 | in a valid store the handler always releases what it finds in flight |
| Store.ControlPlane.HandleRefund | apps/api/routes/webhooks.py:269-298 | a refund lowers committed spend of the one matching operation's mandate |
| Store.ControlPlane.HandleWebhook | apps/api/routes/webhooks.py:84-147 | deduplication, attempts, processing and dead-lettering |
| Store.ControlPlane.ExecuteGateway | apps/api/routes/operations.py:212-331 | dispatch by type, and release on any failure |
| Store.ControlPlane.RequestOp | apps/api/routes/operations.py:68-209 | the request pipeline has the stated effect and keeps the store valid |
| Store.ControlPlane.DryRun | apps/api/routes/policies.py:114-147 | the dry run with the parent walk predicts the decision of the live pipeline without it |
| Store.ControlPlane.ApproveOp | apps/api/routes/operations.py:335-400 | human sign-off has the stated effect and keeps the store valid |
| Store.ControlPlane.VerifyPayment | apps/api/routes/operations.py:404-475 | verification has the stated effect; the store stays valid if the operation was in flight |
| Store.ControlPlane.IssueMandate | apps/api/routes/mandates.py:27-89 | issuing a root mandate |
| Store.ControlPlane.DelegateChild | apps/api/routes/mandates.py:156-224 | delegation with the first refused check as the reason |
| Store.ControlPlane.CascadeTo | apps/api/routes/mandates.py:256-322 | suspension and revocation of a subtree, one audit event each |
| Store.ControlPlane.ActivateMandate | apps/api/routes/mandates.py:278-300 | reactivation, refused exactly when the parent is not ACTIVE |
| Store.ControlPlane.ReconcileOne | services/worker/main.py:71-180 | the loop body settles the operation as its verdict says |
| Store.ControlPlane.ReconcileStuck | services/worker/main.py:43-193 | every selected operation ends as its verdict on the state before the sweep says, and the result counts exactly the operations paid or abandoned |

## Left out

- The gateway's HTTP client, its retries, signatures and webhook HMAC: answers and validity are inputs.
- Sessions, row locks, failing commits and migrations: each transaction is atomic, or split into a read and a write as in `Interleaving`. There a handler's look at the reserve belongs to its write.
- The second clock reading inside the sweep: the age of an unpaid order is measured with the sweep's own clock.
- Agent authentication, agent lookup by name when issuing a mandate, and the fields that only describe (payloads, reasons, error messages, trace ids, BUDGET audit events).
- Mandates created outside the delegation rules by the chat and demo routes.
- Web pages, telemetry, the LLM adapter, tool catalog filtering, reports and evaluation statistics.
- Expiry of the Redis key: by then every stored timestamp has left the window.
- Time stamps and reset times are integers; rounding and the production fallback that denies when Redis is down are not modelled.
- Currency codes are upper-cased for the letters a to z only.
- Safety.SettledOnce: assumes atomic transactions and verification of operations in flight; without either, `ExactlyOnce.ExactlyOnce` gives the exact condition.
- EventLog.FailureTouchesOnlyTheRecord: a handler that raises carries no state there; that it has written nothing by then is what `Store.ControlPlane.ProcessEvent` states.
- Burst.BurstMatchesAdmission: for confirmed order requests that pass every rule but the budget, one after the other; `Contention` interleaves them.
- Store.ControlPlane.IssueMandate: the agent is given by its key; lookup by name is left out.
- Accounts.NoOverspend: transaction rows play no part there, so an operation dispatched twice has one row instead of two; `Overspend.LimitExact` drops its assumptions on settlement and refunds.
- Store.ControlPlane.RequestOp: the rate limiter's answer is an input of the request; `RateLimiter` is not part of the store.
