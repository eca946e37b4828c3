# Jawnix: a verified model of its core

Jawnix sells business Leads to insurance Customers. It draws Leads for Batch
Requests under no-repeat, cooldown and niche rules, charges prepaid wallets for
what it delivers, imports Lead files, and keeps the keyword supply of its
scraper topped up. This project models that core in Dafny and proves what the
code promises over every input and every run.

| file | models |
|---|---|
| `Basics.dfy`, `Ordering.dfy`, `Text.dfy`, `Sieve.dfy` | counting, sorting, strings, and the shape of the candidate filter |
| `NichePolicy.dfy` | `niche_policy.py`, with SQL's three-valued logic |
| `History.dfy`, `AgencyDesk.dfy` | permanent history keys and `assign_customer` (`agency_management.py`) |
| `Allocation.dfy`, `NoRepeat.dfy` | eligibility, selection and the run-wide no-repeat laws (`allocation.py`) |
| `Billing.dfy`, `Requests.dfy` | wallets, holds and the life of a Batch Request (`billing.py`, `customer_requests.py`, `transitions.py`, `fulfillment.py`) |
| `Rotation.dfy`, `RotationDesk.dfy`, `RotationRuns.dfy` | the inventory-conflict gate, round-robin fulfilment, and both inside whole runs |
| `CreditPurchases.dfy`, `WalletRuns.dfy` | Stripe webhooks, and the wallet law over runs in which everything shares one ledger |
| `LeadUploads.dfy`, `UploadsTogether.dfy` | the CSV import, interrupted at any transaction and retried, alone and among other uploads |
| `Performance.dfy` | feedback, and the two Source Performance reports |
| `KeywordGeneration.dfy`, `KeywordPool.dfy`, `KeywordSpend.dfy` | candidate filter, reserve and spend ledger |
| `MetricsEmit.dfy` | the `lead.assigned` emitter and its requeue chain |
| `CustomerAccounts.dfy` | User Accounts and invitations of durable Customers |

The pattern is the same throughout. Each operation is a pure step function. Code
that updates rows in place is also a class or a method with loops, proved equal
to that step function. A state machine collects the steps, and the main results
are lemmas over all of its runs. `dafny verify dfyconfig.toml` checks everything.

## Where a promise fails, and exactly when

- **No Lead twice to one Customer.** `allocate_request` does not look at the
  Customer's status, and an inactive recipient's own deliveries stop blocking
  after three days. `NoRepeat.InactiveDrawRepeats` builds the repeat for every
  inactive Customer of every roster. `NoRepeat.DrawsAreFreshIff` shows that draws
  for a Customer are free of repeats if and only if the Customer is active.
  Rotation and submission do check the status, so runs made of them never repeat
  (`RotationRuns.NoRepeatInAnyRun`).
- **Draft preview equals stored policy.** The preview compares a lowered niche
  with case-folded rows, the stored clause lowers both sides.
  `NichePolicy.PreviewMatchesStoredIff` gives the exact condition for a Lead,
  `NichePolicy.PreviewExactIff` for a whole policy, as a test on its own rows, and
  `NichePolicy.FoldingCanDisagree` an accepted policy that fails it (a sharp s).
- **The conflict gate asks about every older request that shares a Lead.** Its
  state pre-check is sound if and only if the two requests read the same
  inventory database (`Rotation.PreCheckSoundIff`; example `Rotation.PreCheckCanSkip`).
- **Both performance reports agree.** They do if and only if no delivered Lead
  has an active good and an active poor rating (`Performance.SummaryIsSnapshotIff`).
  The endpoints never create such a pair (`Performance.SummaryRefinesSnapshot`).
- **Normalizing a keyword twice changes nothing.** A second pass changes the
  result of the first if and only if that still has a list marker or an edge
  character (`KeywordGeneration.SecondPassChangesIff`). Two shapes of it are
  `KeywordGeneration.SecondBulletSurvives` and `KeywordGeneration.HiddenEdgeSurvives`.
  Accepted keywords have neither, which is what the pool relies on.
- **"Exactly one active User Account per Customer"** (header of
  `customer_accounts.py`). Never more than one, but a new Customer has none
  (`CustomerAccounts.NewCustomerHasNone`). In every run a Customer has an account
  if and only if some step granted it one and it was not deleted or erased since
  (`CustomerAccounts.HasAccessIff`).

## Conventions and assumptions

- Time is an integer number of seconds. The instants a step reads are parameters;
  an allocation commits no earlier than the instant its query used. The conflict
  gate reads one instant for all the queries of one decision.
- Row ids of requests, ledger entries, purchases, outcomes and invitations are
  positions in a sequence. Conflict checksums and file checksums stand for the
  data they hash.
- One transaction is one step: row locks serialize writers, and an exception
  rolls its step back.
- Text rules that depend on the platform are parameters where they matter:
  `lower` and `casefold` of a deployment, and the character matcher behind the
  last test of `is_near_duplicate`. Keyword terms are ASCII by their own pattern,
  so ASCII folding is exact for them; only ASCII digits count as list markers.
- The emitter's deferral to a job of higher priority
  (jawnix/metrics_emit.py:166-173) is left out because it cannot happen:
  `higher_priority_job_waiting` is always false on the metrics lane
  (jawnix/jobs.py:81-83).
- The database's `lower` is idempotent, where the exactness of a whole policy's
  preview is stated.
- A Checkout link is handed out once its session is recorded, so a settlement
  finds the session; `WalletRuns.FirstSettlementIff` says what happens otherwise.
- A save of keywords returns a list that contains the saved terms in some
  spelling, and Stripe event ids name events.

## Model

| member | source | states |
|---|---|---|
| `NichePolicy.NormalizePolicyRows` | jawnix/niche_policy.py:34-65 | accepts a draft exactly when states are supported, modes known and consistent per state, and niches non-empty, trimmed to 1 to 160 characters; the rows are the deduplicated flattening |
| `NichePolicy.AddNiches` | jawnix/niche_policy.py:55-64 | the inner loop refuses exactly a blank or overlong niche and otherwise keeps the first row of each state and folded niche |
| `NichePolicy.FlattenFacts` | jawnix/niche_policy.py:34-65 | normalization loses no draft niche, invents no row, and keeps keys distinct |
| `NichePolicy.FlattenIsPolicy` | jawnix/niche_policy.py:34-65 | every accepted draft becomes a well-formed policy: one mode per state, one row per folded niche |
| `NichePolicy.LoadPolicy` | jawnix/niche_policy.py:68-80 | groups the stored rows by state and mode, losing and inventing none |
| `NichePolicy.LoadRoundTrip` | jawnix/niche_policy.py:68-92 | loading a policy and saving it unchanged is accepted and stores the same rows |
| `NichePolicy.StoredMeansAllows` | jawnix/niche_policy.py:103-140 | the SQL clause, NULLs included, means: a state's own rows override the default, an exclusion bars its niches, an only-list admits its niches alone |
| `NichePolicy.AllowsByGroup` | jawnix/niche_policy.py:103-140 | for a well-formed policy that meaning is one membership test in the governing group |
| `NichePolicy.DraftMeansPreview` | jawnix/niche_policy.py:143-182 | the in-memory clause, for any rows: no governing group, or its folded membership test agrees with the group's mode |
| `NichePolicy.PreviewMatchesStoredIff` | jawnix/niche_policy.py:103-182 | preview and stored clause agree on a Lead if and only if lowering and folding put its niche on the same side of the governing group |
| `NichePolicy.PreviewExactIff` | jawnix/niche_policy.py:103-182 | a policy previews every Lead exactly if and only if, in each of its groups of rows, every lowered niche is among the folded ones and every folded niche that lowering can produce is among the lowered ones |
| `NichePolicy.PreviewMatchesStored` | jawnix/niche_policy.py:83-182 | every accepted draft previews exactly where `lower` and `casefold` agree on its niches |
| `NichePolicy.FoldingCanDisagree` | jawnix/niche_policy.py:143-182 | an accepted policy and a Lead that its preview keeps and its stored clause bars |
| `History.HistorySubjects` | jawnix/agency_management.py:55-133 | the growing loop stops with exactly the reachable keys and all their holders, from any roster |
| `History.ClosureClosed` | jawnix/agency_management.py:55-133 | the reachable keys are closed under shared keys and memberships |
| `History.ClosureLeast` | jawnix/agency_management.py:55-133 | and they are the least closed set containing the start |
| `History.AlignedClosure` | jawnix/agency_management.py:136-147 | when members carry their Agency's key, nothing beyond the starting keys is reachable |
| `History.AssignJoinsExactly` | jawnix/agency_management.py:764-787 | after joining, two holders share a key if and only if they did before or both were reachable from either side |
| `History.LeaveKeepsKeys` | jawnix/agency_management.py:712-820 | leaving an Agency changes no key |
| `History.AssignKeepsAligned` | jawnix/agency_management.py:712-820 | every assignment keeps members on their Agency's key |
| `History.AssignNeverSplits` | jawnix/agency_management.py:712-820 | holders that share history keep sharing it |
| `AgencyDesk.Desk.AssignCustomer` | jawnix/agency_management.py:712-820 | each refusal in order; an accepted assignment rekeys and moves exactly as specified, and the membership rows are the old ones with the open one ended, a missing one recorded, and the new one opened |
| `AgencyDesk.Desk.MergeHistories` | jawnix/agency_management.py:764-787 | every holder of either history gets the lesser key, nobody else changes |
| `AgencyDesk.Desk.Move` | jawnix/agency_management.py:810-820 | the Customer moves, open rows still say where everyone is |
| `AgencyDesk.Desk.EndMembership` | jawnix/agency_management.py:789-808 | ends the open membership row or, when none was open, appends exactly the row that records the membership as ended; no open row is left |
| `AgencyDesk.Desk.RekeyCustomers` | jawnix/agency_management.py:774-787 | rewrites exactly the Customers whose key is merged |
| `AgencyDesk.Desk.RekeyAgencies` | jawnix/agency_management.py:774-787 | rewrites exactly the Agencies whose key is merged |
| `Allocation.StatusClausesSplit` | jawnix/allocation.py:68-105 | under NULL logic the active and inactive clauses split every event |
| `Allocation.NegatedActiveIsNotInactive` | jawnix/allocation.py:68-105 | negating the active clause instead would lose events with no recorded recipient |
| `Allocation.SameRecipientMeaning` | jawnix/allocation.py:108-140 | the same-recipient clause means: own, same history key, same Agency, or an unattributed delivery to a fellow member |
| `Allocation.PickFacts` | jawnix/allocation.py:236-240 | the limited query returns distinct Leads, longest undelivered first, skipping nobody better, as many as asked when they exist |
| `Allocation.Rows.Commit` | jawnix/allocation.py:630-668 | the commit loop stamps exactly the chosen Leads and appends one event each, in order |
| `NoRepeat.ShortcutExact` | jawnix/allocation.py:157-181 | the last-delivery shortcut never changes the answer of the event scan |
| `NoRepeat.DrawnFacts` | jawnix/allocation.py:607-626 | a draw takes exactly its quantity of distinct eligible Leads |
| `NoRepeat.DrawSpacing` | jawnix/allocation.py:157-181 | a Lead goes out again only after the drawing Customer's cooldown, or three days if its last recipient is inactive, and never within a day |
| `NoRepeat.StepKeepsOk` | jawnix/allocation.py:607-668 | every step keeps events aligned with history and bounded by the Lead's last delivery |
| `NoRepeat.StepNeverSplits` | jawnix/agency_management.py:712-820 | no step separates holders that share history |
| `NoRepeat.OneStepIsClosure` | jawnix/allocation.py:108-140 | in every reachable roster the allocator's one-step test equals the transitive closure |
| `NoRepeat.OwnDeliveryBlocks` | jawnix/allocation.py:108-140 | a Customer's own deliveries block it if and only if it is active |
| `NoRepeat.DrawAvoidsHistory` | jawnix/allocation.py:182-187 | a draw never takes a Lead that an active sharer of the history holds |
| `NoRepeat.RunKeepsOk` | jawnix/allocation.py:548-679 | the invariant holds in every state of every run |
| `NoRepeat.RunNeverSplits` | jawnix/agency_management.py:712-820 | shared history stays shared for the rest of a run |
| `NoRepeat.SharedHistoryNeverRepeats` | jawnix/allocation.py:108-140 | once two Customers have shared a key, later draws for one avoid what the other holds while the other is active |
| `NoRepeat.RunKeepsDaysApart` | jawnix/allocation.py:157-181 | in every run deliveries of one Lead are at least a day apart |
| `NoRepeat.RunKeepsNoLeadTwice` | jawnix/allocation.py:182-187 | in every run whose draws are for active Customers nobody receives a Lead twice |
| `NoRepeat.InactiveDrawRepeats` | jawnix/allocation.py:548-679 | for every inactive Customer, a state in which the allocator repeats a Lead |
| `NoRepeat.DrawsAreFreshIff` | jawnix/allocation.py:548-679 | draws for a Customer never repeat if and only if the Customer is active |
| `Billing.BatchCostRounds` | jawnix/billing.py:50-63 | the price is the nearest cent, halves up, and only an empty batch is free |
| `Billing.BatchCostMonotone` | jawnix/billing.py:50-63 | more Leads never cost less |
| `Billing.CaptureKeepsAvailable` | jawnix/billing.py:376-414 | a first capture turns the hold into a charge: available balance unchanged, balance down by the hold |
| `Billing.CaptureIsIdempotent` | jawnix/billing.py:376-414 | capturing a captured request again changes nothing |
| `Billing.ReleaseReturnsHold` | jawnix/billing.py:417-435 | a release returns exactly the hold and leaves the balance |
| `Billing.ReinstateUndoesRelease` | jawnix/billing.py:438-475 | reinstating undoes a release if and only if the wallet is not overdrawn meanwhile |
| `Requests.SubmitOk` | jawnix/customer_requests.py:259-364 | a submission keeps the machine's invariant, hold and wallet included |
| `Requests.DecideOk` | jawnix/transitions.py:29-122 | so does every admin action, with its hold released or reinstated |
| `Requests.WithdrawOk` | jawnix/customer_requests.py:367-400 | so does a Customer's withdrawal |
| `Requests.NarrowOk` | jawnix/licensed_states.py:274-298 | so does a Licensed State change that narrows or cancels a request |
| `Requests.AllocateOk` | jawnix/allocation.py:548-679 | so does the allocator |
| `Requests.AllocateNeverRaises` | jawnix/allocation.py:559-597 | on requests of the machine the allocator raises neither the row-count error nor a billing error |
| `Requests.AllocateApproved` | jawnix/allocation.py:548-679 | an approved request is committed whole or left waiting with nothing drawn |
| `Requests.CommittedAllocationRepeats` | jawnix/allocation.py:559-597 | allocating a committed batch again changes no event, charge or hold |
| `Requests.StepKeepsOk` | jawnix/fulfillment.py:106-243 | every step of the machine keeps the invariant |
| `Requests.RunKeepsOk` | jawnix/fulfillment.py:106-243 | so it holds in every state of every run |
| `Requests.BilledExactlyWhenDelivered` | jawnix/billing.py:376-414 | in every run a billed request has its full quantity of events if and only if its hold is captured, and exactly then one charge of the frozen amount to its own Customer |
| `Requests.LedgerSafeInEveryRun` | jawnix/billing.py:66-83 | in every run of the request machine available credit never drops below the administrator's own debits, and the balance is the ledger's purchases and adjustments less captured holds |
| `Requests.CommittedBatchIsSafe` | jawnix/fulfillment.py:106-243 | whatever a surface knows of a committed batch, it is offered resending exactly when failed and rebuilding exactly when its file is gone and its events are whole, and nothing else; withdrawal, narrowing and release leave it alone |
| `Requests.CancelableIsUncommitted` | jawnix/customer_requests.py:367-400 | whatever can be withdrawn has no committed Lead, although only the status is checked |
| `Requests.DistOnlyMovesByCommit` | jawnix/allocation.py:607-668 | only a committing allocation touches deliveries |
| `Requests.StepFreezesTerms` | jawnix/billing.py:303-373 | price, quantity and Customer of a request never change after submission |
| `Requests.CommittedForever` | jawnix/worker.py:750-767 | a committed batch stays whole and paid for the rest of every run, failures included |
| `Rotation.GateDecides` | jawnix/allocation.py:682-780 | a request with enough inventory passes only uncontended or by using up one confirmed conflict about the present snapshot, and is blocked only by a conflict on file |
| `Rotation.PreCheckIsSafe` | jawnix/allocation.py:711-714 | on one database a shared Lead implies a shared state |
| `Rotation.PreCheckAcrossDatabases` | jawnix/allocation.py:711-714 | a skipped shared Lead is listed under different states in different databases |
| `Rotation.PreCheckCanSkip` | jawnix/allocation.py:711-714 | for any two different databases, a contending older request the gate skips |
| `Rotation.PreCheckSoundIff` | jawnix/allocation.py:711-714 | the pre-check never skips a sharer if and only if both requests read one database |
| `Rotation.GateMovesForward` | jawnix/allocation.py:752-755 | the gate only moves a conflict forward through its life |
| `Rotation.DecisionMovesForward` | jawnix/allocation.py:783-835 | a decision only moves a pending conflict |
| `Rotation.TurnFacts` | jawnix/allocation.py:905-920 | a turn ends fulfilled, with one draw, or waiting, with none, and touches one request only |
| `Rotation.TurnDropsOpen` | jawnix/allocation.py:905-920 | a turn shortens the queue by one exactly when it fulfils |
| `RotationDesk.Desk.ConflictBlocks` | jawnix/allocation.py:682-780 | the gate's loop equals its specification, and marks the request exactly when it blocks |
| `RotationDesk.Desk.AllocateNow` | jawnix/allocation.py:548-679 | the allocator on mutable rows equals its specification, exceptions included |
| `RotationDesk.Desk.CaptureHold` | jawnix/billing.py:376-414 | a successful capture leaves a billed request captured at its own amount, and a first one leaves what every Customer has available unchanged; a refusal changes nothing |
| `RotationDesk.Desk.TakeTurn` | jawnix/allocation.py:905-920 | one turn on mutable rows equals its specification |
| `RotationDesk.TurnOrderFacts` | jawnix/allocation.py:876-892 | the order lists every group once, and each has a request |
| `RotationDesk.Desk.FulfillRoundRobin` | jawnix/allocation.py:838-936 | it is a pass: each group, in rotation order, has its least recently served request attempted once; every attempt ends fulfilled or waiting; other requests are untouched; it re-queues itself if and only if something was fulfilled and an approved request is left; a pass within a day gives no Lead out twice |
| `RotationDesk.PassStands` | jawnix/allocation.py:892-920 | after any number of turns of a pass the machine is in order, one request per group was touched, and the queue is shorter by the fulfilled ones |
| `RotationDesk.PassShortensQueue` | jawnix/allocation.py:892-931 | a pass shortens the queue by exactly the requests it fulfilled, and one that re-queues shortens it |
| `RotationDesk.Desk.FulfillUntilQuiet` | jawnix/allocation.py:922-931 | pass after pass while each asks for another ends, after at most one pass more than requests were fulfilled |
| `RotationRuns.MoveKeepsOk` | jawnix/allocation.py:682-936 | turns, decisions and all other steps together keep the invariant |
| `RotationRuns.NoRepeatInAnyRun` | jawnix/allocation.py:548-936 | in every run of the whole machine no Customer receives a Lead twice and no Lead goes out twice within a day |
| `RotationRuns.SharedHistoryNeverRepeats` | jawnix/allocation.py:108-140 | in every run of the whole machine, once two Customers have shared a history key, no later move delivers to one a Lead the other holds while the other is active |
| `RotationRuns.OneBypassPerConflict` | jawnix/allocation.py:752-755 | in every run one conflict authorizes at most one bypass |
| `RotationRuns.MoveOpensOne` | jawnix/transitions.py:29-122 | any other move puts at most one more request into rotation |
| `RotationRuns.ChainTerminates` | jawnix/allocation.py:922-931 | in every history of passes and other moves, in any order, passes that re-queue themselves are at most as many as the requests in rotation at the start and the moves made meanwhile |
| `CreditPurchases.HandleKeepsOk` | jawnix/api.py:1138-1213 | every webhook delivery keeps completed purchases and purchase credits in one-to-one correspondence |
| `CreditPurchases.HandleAdvances` | jawnix/api.py:1138-1213 | a delivery adds at most one entry, reverses none, and never reopens a completed purchase |
| `CreditPurchases.CreditedAtMostOnce` | jawnix/billing.py:196-275 | after any deliveries, in any order and repeated, a purchase has one credit if completed and none otherwise |
| `CreditPurchases.SettlementCompletes` | jawnix/billing.py:224-232 | a late settlement completes its purchase even after it was closed |
| `CreditPurchases.LateSettlementWins` | jawnix/billing.py:196-300 | a late settlement anywhere among failures, expiries and repeats ends with exactly one credit |
| `WalletRuns.HandleMatches` | jawnix/billing.py:196-300 | every delivery moves completed purchases and purchase entries together |
| `WalletRuns.EventKeepsOk` | jawnix/billing.py:150-300 | market moves, started sessions and Stripe deliveries on one ledger keep requests, purchases and entries in step |
| `WalletRuns.WalletSafeInEveryRun` | jawnix/billing.py:66-83 | in every run a wallet's balance is its completed purchases plus its adjustments less its captured holds, and what is available never falls below what administrators took out |
| `WalletRuns.CreditedOnceInEveryRun` | jawnix/billing.py:196-275 | in every run a session has one credit of its amount if it completed and none otherwise, among all other entries |
| `WalletRuns.SettlementWins` | jawnix/billing.py:196-300 | a late settlement delivered anywhere in a run, among market moves, new sessions, failures, expiries and repeats, leaves its session completed and credited exactly once for the rest of the run |
| `WalletRuns.FirstSettlementIff` | jawnix/billing.py:213-232 | the first delivery of a settlement completes its session if and only if the session is on record |
| `CreditPurchases.StripeDesk.Complete` | jawnix/billing.py:196-275 | completing on mutable rows equals its specification, refusals included |
| `CreditPurchases.StripeDesk.Webhook` | jawnix/api.py:1138-1213 | the handler equals its specification; a refusal gives its receipt back |
| `LeadUploads.CsvChunks` | jawnix/lead_uploads.py:76-97 | the chunks are the file's valid rows in order, each within the row bound and under the byte bound but for its last row, and the counters add up |
| `LeadUploads.RegisterAbsorbs` | jawnix/lead_uploads.py:100-114 | registering a file's phones after part of them changes nothing in the end |
| `LeadUploads.UpsertAbsorbs` | jawnix/lead_uploads.py:116-134 | writing the whole file over part of it leaves the whole file |
| `LeadUploads.UniqueIsLast` | jawnix/lead_uploads.py:116-134 | within a file the last row of a phone wins |
| `LeadUploads.CrashAbsorbed` | jawnix/lead_uploads.py:170-216 | dying after any number of transactions and running again ends where one run would have |
| `LeadUploads.RetriesConverge` | jawnix/lead_uploads.py:170-216 | so does any number of deaths at any points |
| `LeadUploads.NoPrefixPublished` | jawnix/lead_uploads.py:170-216 | a run that dies publishes nothing |
| `LeadUploads.ImportCounts` | jawnix/lead_uploads.py:137-167 | imported, updated, duplicate and rejected rows add up to the rows read, and imported plus updated are the distinct phones |
| `LeadUploads.LastRowServes` | jawnix/lead_uploads.py:116-167 | the last valid row of a phone is the listing its Lead is served from |
| `LeadUploads.OthersUntouched` | jawnix/lead_uploads.py:137-167 | Leads outside the file keep the listing they had |
| `UploadsTogether.InterleavedRetriesServe` | jawnix/lead_uploads.py:170-216 | after any attempts cut short at any transaction, with other uploads registering and publishing even between two transactions of one attempt, the attempt that publishes serves exactly this file's last rows under their own endpoints, leaves every other Lead where its own upload put it, and its counts add up |
| `UploadsTogether.TriesStand` | jawnix/lead_uploads.py:170-216 | until then every attempt finds the stores in order, and the index is what the other uploads alone made it |
| `UploadsTogether.TryStands` | jawnix/lead_uploads.py:116-134 | between any two transactions of an attempt, what it has written is stored under endpoints that others cannot change |
| `UploadsTogether.LastRowServesTogether` | jawnix/lead_uploads.py:116-167 | the last valid row of a phone is then what its Lead is served from |
| `UploadsTogether.StaysComplete` | jawnix/lead_uploads.py:177-178 | a finished import is left alone, whatever comes later |
| `LeadUploads.Importer.CanonicalIds` | jawnix/lead_uploads.py:100-114 | each unseen phone gets a fresh Lead id, each seen one keeps its own |
| `LeadUploads.Importer.RetainRows` | jawnix/lead_uploads.py:116-134 | a chunk's upsert equals its specification |
| `LeadUploads.Importer.LoadChunks` | jawnix/lead_uploads.py:199-200 | the chunk loop, cut at any transaction, is that prefix of the plan |
| `LeadUploads.Importer.Import` | jawnix/lead_uploads.py:170-216 | the whole import, cut at any transaction, is that prefix of the plan |
| `LeadUploads.PublishTakesOver` | jawnix/lead_uploads.py:137-167 | publication serves exactly the listed Leads from this upload, leaves every other Lead where it was, and accounts for every valid row |
| `Performance.PartialViewIsExact` | jawnix/api.py:1947-1964 | corrections never cross events or metrics, so a handler that reads only its event's history sees exactly what is superseded |
| `Performance.OutcomeKeepsOk` | jawnix/api.py:1938-2007 | an accepted outcome keeps at most one active outcome per event and metric |
| `Performance.FeedbackKeepsOk` | jawnix/api.py:1792-1870 | so does feedback with a rating |
| `Performance.EndpointsKeepOneActive` | jawnix/api.py:1792-2007 | so do all histories the two endpoints can build |
| `Performance.ActiveOutcomes` | jawnix/performance.py:320-337 | the two passes build the dictionary of active outcomes, the last one winning |
| `Performance.Snapshot` | jawnix/performance.py:314-460 | the global counts are the tallies of all google events, each cohort the tallies of its own, and the cohorts add up to the global counts |
| `Performance.TalliesCompare` | jawnix/performance.py:135-460 | for any history all counts agree except ratings, which differ by the events rated both ways |
| `Performance.SummaryIsSnapshotIff` | jawnix/performance.py:135-460 | the aggregate summary equals the snapshot if and only if no google event has an active good and an active poor rating |
| `Performance.SummaryRefinesSnapshot` | jawnix/performance.py:135-460 | over every history the endpoints build the fast summary equals the snapshot |
| `Performance.UnlinkedRatingsDisagree` | jawnix/performance.py:203-233 | two unlinked ratings of one event make them differ |
| `KeywordGeneration.AcceptedIsFixed` | jawnix/keyword_generation.py:271-275 | normalization is the identity on every accepted keyword |
| `KeywordGeneration.NormalizeFixedIff` | jawnix/keyword_generation.py:271-275 | normalization leaves a text alone if and only if it has no list marker, no edge character and nothing to squeeze |
| `KeywordGeneration.SecondPassChangesIff` | jawnix/keyword_generation.py:271-275 | a second pass changes the result of the first if and only if a marker or an edge character is left |
| `KeywordGeneration.SecondBulletSurvives` | jawnix/keyword_generation.py:271-275 | one such text: each pass drops one bullet |
| `KeywordGeneration.HiddenEdgeSurvives` | jawnix/keyword_generation.py:271-275 | a family of others: a full stop hidden behind a vertical tab |
| `KeywordGeneration.FilterCandidates` | jawnix/keyword_generation.py:378-403 | selected keywords are accepted and near no excluded, accepted or earlier one; every refusal has a reason that holds; counters count refusals; only the limit leaves candidates unseen |
| `KeywordGeneration.RecheckIsIdempotent` | jawnix/keyword_generation.py:406-414 | rechecking stored work against the same exclusions changes nothing |
| `KeywordGeneration.ZeroLimitDoesNotLimit` | jawnix/keyword_generation.py:401-402 | a limit of zero is never met |
| `KeywordGeneration.GenerateKeywords` | jawnix/keyword_generation.py:665-884 | whether it returns or raises, at most `count` terms, exactly `count` when it returns, distinct and outside the exclusions; candidates equal accepted plus rejected plus surplus; each term has a configured model |
| `KeywordGeneration.NormalizedExclusions` | jawnix/keyword_generation.py:678-685 | the excluded list is the set of non-empty normal forms |
| `KeywordPool.HistoryIsExcluded` | jawnix/keyword_generation.py:1115-1135 | every historic term is excluded in its stored form, whatever spelling is active |
| `KeywordPool.ObservedFacts` | jawnix/keyword_history.py:37-71 | history only grows and holds normal forms |
| `KeywordPool.LookupNeverMisses` | jawnix/keyword_rollover.py:156-160 | every revalidated term is found in the lookup table |
| `KeywordPool.RevalidatedFacts` | jawnix/keyword_rollover.py:141-161 | revalidation keeps a distinct subset of at most 150 items |
| `KeywordPool.CheckOk` | jawnix/keyword_rollover.py:141-161 | revalidation keeps the reserve's invariant |
| `KeywordPool.RefillOk` | jawnix/keyword_rollover.py:283-314 | a refill keeps it: room respected, new terms near nothing |
| `KeywordPool.ActivateOk` | jawnix/keyword_rollover.py:395-508 | an activation keeps it: the batch leaves the pool and enters the history |
| `KeywordPool.NoKeywordTwice` | jawnix/keyword_rollover.py:141-508 | in every run the pool holds at most 150 terms; no later term is a near duplicate of an earlier one, neither in the pool nor among all terms ever activated; so no keyword is activated twice up to case |
| `KeywordPool.NearFolded` | jawnix/keyword_generation.py:295-316 | a term is near a stored keyword if and only if it is near the spelling that was activated |
| `KeywordPool.Reserve.Recheck` | jawnix/keyword_rollover.py:156-161 | rebuilding the pool through the table equals revalidation |
| `KeywordPool.Reserve.Revalidate` | jawnix/keyword_rollover.py:141-161 | observing and rechecking on the mutable row equals its specification |
| `KeywordPool.Reserve.TopUp` | jawnix/keyword_rollover.py:283-314 | refilling the mutable row equals its specification and keeps the invariant |
| `KeywordPool.Reserve.ActivatePool` | jawnix/keyword_rollover.py:170-192 | activating on the mutable row equals its specification; a batch has 5 to 25 terms |
| `KeywordPool.Reserve.Rollover` | jawnix/keyword_rollover.py:395-508 | and keeps the invariant, logging exactly the batch |
| `KeywordSpend.CostWithinReservation` | jawnix/anthropic_generation.py:41-86 | across context tier, geography and cache splits, usage within its limits costs at most the reservation |
| `KeywordSpend.ReservationIsTight` | jawnix/anthropic_generation.py:127-139 | some usage of every long prompt costs all of its reservation |
| `KeywordSpend.ReserveOk` | jawnix/keyword_spend.py:40-86 | a granted reservation keeps each day's commitments within cap plus overruns |
| `KeywordSpend.SettleOk` | jawnix/keyword_spend.py:90-115 | so does settling, including an overrun |
| `KeywordSpend.CapHolds` | jawnix/keyword_spend.py:40-115 | so it holds in every run |
| `KeywordSpend.BlockedMeansOverrun` | jawnix/keyword_spend.py:46-58 | a day is blocked if and only if some metered cost overran its reservation |
| `KeywordSpend.BlockedStays` | jawnix/keyword_spend.py:46-58 | after an overrun no reservation succeeds that day, whatever else happens |
| `KeywordSpend.FinalIsFinal` | jawnix/keyword_spend.py:98-99 | a finalized charge never changes |
| `KeywordSpend.HonestRunsKeepCap` | jawnix/anthropic_generation.py:89-197 | while answers keep to their request's limits, no day commits more than the cap and none is blocked |
| `KeywordSpend.Budget.TakeReservation` | jawnix/keyword_spend.py:40-86 | reserving on mutable rows equals its specification |
| `KeywordSpend.Budget.Finalize` | jawnix/keyword_spend.py:90-115 | settling on mutable rows equals its specification; an overrun is recorded and reported |
| `MetricsEmit.PostWaves` | jawnix/metrics_emit.py:204-249 | the wave loop equals its specification |
| `MetricsEmit.EmitLeadAssigned` | jawnix/metrics_emit.py:133-255 | a claim that is done stored every event beyond its cursor; one that is not moved the cursor forward, over stored events only |
| `MetricsEmit.WavesFacts` | jawnix/metrics_emit.py:204-249 | a burst stops after stored events only, with the cursor on the last of them |
| `MetricsEmit.ClaimFacts` | jawnix/metrics_emit.py:175-255 | the same for a whole claim, every branch |
| `MetricsEmit.WorkedProgresses` | jawnix/worker.py:636-657 | each claim of the chain keeps the promise and uses up part of a bounded measure |
| `MetricsEmit.ChainKeepsOk` | jawnix/worker.py:700-715 | whatever the network does, no event the cursor passed is missing and no stored event is lost |
| `MetricsEmit.EveryChainEnds` | jawnix/worker.py:636-714 | every chain ends within ten claims per event and ten more, and a complete one has had every event stored |
| `CustomerAccounts.InviteOk` | jawnix/customer_accounts.py:84-206 | an invitation keeps the invariant: one active account and one pending invitation per Customer, one pending invitation per identity, invited identities idle |
| `CustomerAccounts.AcceptOk` | jawnix/customer_accounts.py:209-289 | so does acceptance |
| `CustomerAccounts.RegisterOk` | jawnix/customer_accounts.py:407-415 | so does a verified registration |
| `CustomerAccounts.SignInOk` | jawnix/api.py:610-675 | so does signing in, including adopting a mapped Customer nobody can reach |
| `CustomerAccounts.ForeignGuardMeans` | jawnix/customer_accounts.py:343-377 | an identity the guard lets through serves no other Customer and is invited by none |
| `CustomerAccounts.StepKeepsOk` | jawnix/customer_accounts.py:84-415 | so does every step |
| `CustomerAccounts.RunKeepsOk` | jawnix/customer_accounts.py:84-415 | so it holds in every run |
| `CustomerAccounts.AcceptHandsOver` | jawnix/customer_accounts.py:251-268 | acceptance gives the identity its Customer and leaves every other Customer's access alone |
| `CustomerAccounts.CloseKeepsHolders` | jawnix/api.py:4541-4669 | deleting or erasing a Customer leaves the others' access alone |
| `CustomerAccounts.AccessMovesOnlyByAcceptance` | jawnix/customer_accounts.py:209-289 | a Customer keeps its very account until an invited identity signs in or the Customer is deleted |
| `CustomerAccounts.LosesAccessIff` | jawnix/api.py:4472-4669 | a Customer loses its access if and only if it is really deleted or erased: deactivated, and not deleted or erased before |
| `CustomerAccounts.GainsAccessIff` | jawnix/customer_accounts.py:84-415 | one without access gains it if and only if a first invitation or a registration passes its guards, or the right person signs in |
| `CustomerAccounts.HasAccessIff` | jawnix/customer_accounts.py:84-415 | in every run a Customer has an account if and only if some step granted it one and it was not deleted or erased since |
| `CustomerAccounts.NewCustomerHasNone` | jawnix/customer_accounts.py:9-12 | a Customer just created has no account |
| `CustomerAccounts.AccessIsNeverLost` | jawnix/customer_accounts.py:84-415 | in every run a Customer with access stays reachable until it is really deleted or erased; a refused deletion costs nothing |
| `CustomerAccounts.AcceptSparesOthersIff` | jawnix/customer_accounts.py:251-268 | in any state acceptance spares every other Customer if and only if the identity serves none of them |
| `CustomerAccounts.Tables.InviteAccount` | jawnix/customer_accounts.py:84-206 | inviting on mutable tables equals its specification and displaces nobody |
| `CustomerAccounts.Tables.RetireFormer` | jawnix/customer_accounts.py:252-264 | the retiring loop deactivates exactly the Customer's other accounts, never leaving two active |
| `CustomerAccounts.Tables.AcceptInvitation` | jawnix/customer_accounts.py:209-289 | accepting on mutable tables equals its specification |
| `CustomerAccounts.Tables.CancelInvitation` | jawnix/customer_accounts.py:292-329 | canceling touches the invitation only |
| `CustomerAccounts.Tables.EraseCustomer` | jawnix/api.py:4589-4669 | erasing on mutable tables equals its specification: done exactly for a deactivated Customer not erased before, who is left without account or pending invitation; nobody else's access moves |

## Left out

- HTTP, authentication, serialization, Telegram and email: no logic of their own beyond the modelled decisions.
- Artifacts, CSV export and listing snapshots: a committed batch only records that its file exists.
- Row locks and `SKIP LOCKED`: steps are serial, so a draw that skips a locked Lead is not modelled.
- Hard deletion of Customers, which would leave deliveries without their party; personal-data erasure is modelled for access only.
- Requests.StepKeepsOk: does not cover expiry of artifacts or administrator edits of billing settings beyond replacing the terms.
- Requests.AllocateNeverRaises: the DB2 errors of the allocator (a selected version that is missing, or lists another phone) are not modelled; they roll the step back like any exception.
- LeadUploads.CsvChunks: starts from parsed rows; delimiter sniffing, header matching, phone normalization and reading errors in mid-file are not modelled.
- KeywordGeneration.GenerateKeywords: prompts, deadlines and JSON parsing are not modelled; the replies of its five attempts are parameters.
- KeywordPool.NoKeywordTwice: assumes that a successful save returns its terms; refill pacing, focus rotation and cooldowns are left out, and the length limit of history terms is not modelled.
- KeywordSpend.HonestRunsKeepCap: the transport's format and context-window refusals happen before any reservation and are left out.
- MetricsEmit.EveryChainEnds: covers a configured emitter; an unconfigured one reports done without posting, as `MetricsEmit.EmitLeadAssigned` states.
- Performance.Snapshot: rates, ranking labels and the sort order of cohorts only restate the counts; the month fallback of an event without a period is taken as given.
- CustomerAccounts.RunKeepsOk: emails, names and activity records are left out.
- Optimization, nightly reviews, scraper control, catalogue and dormant recommendations: would add easy members only.
