# Verified models of the hoorific gateway

This project models the durable protocols and the integer accounting of the
hoorific gateway in Dafny and proves what they promise. `dafny verify
dfyconfig.toml` checks all of it.

Every SQL transaction is one atomic step over maps that stand for the tables: it
applies fully or leaves the state unchanged. A crash is a step that never comes.
Concurrency is the interleaving of such steps, and the main results are stated
over every run. Code that updates state in place is a class whose methods carry
the source's loops; each method equals a specification function of the old
state, and the run theorems are about those functions.

- `Cost` prices tokens: the bound reserved at admission and the charge computed
  from reported usage.
- `AdmissionModel`, `AdmissionStore` and the modules beside them are the
  admission accounting: allowance counters shared by attempts, per-entry holds,
  the usage ledger, reconciliation and retention. The state keeps two histories,
  the attempts and the ledger rows that retention removed.
- `SnapshotCache` is the process-local configuration cache under concurrent
  loaders.
- `JsonSyntax`, `JsonScan`, `JsonRewrite` and `JsonMeaning` are the byte-level
  scanner and the in-place rewriting of one string of a JSON document, against the
  grammar of RFC 8259.
- `IdempotencyCodec`, `IdempotencyStore` and `IdempotencySafety` are the stored
  response format and the claim protocol; `Fingerprint` is the request
  fingerprint.
- `CredentialStore` and `CredentialSafety` are the refresh fence.
- `Routing` is the weighted, in-place ordering of route targets.
- `JobStore` and `JobSafety` are job leases and fences.

Clocks, random draws, nonces, map iteration order, scan results and health
answers are parameters or nondeterministic choices, so the results hold for all
of them. A body digest is any function of the content; where requests are told
apart, the digests of the contents at hand are assumed not to collide. Sealing is
an inverse pair, and the text codec of JSON strings a lawful pair of functions.
`int64` limits, truncating integer writes, the wrap of a job's fence and of the
cache's generation counter are written out.

## Properties that fail, and exactly when

- Releases are not unconditional: a plan without a model may carry a negative
  cost bound, which is admitted as a negative hold, and every negative bound can
  block another attempt's release
  (`AdmissionWitnesses.NegativeBoundBlocksRelease`). Over all runs whose submitted
  cost bounds are at least `b`, no settlement, reconciliation or maintenance pass
  is refused for want of a counter to give back exactly when `b >= 0`
  (`AdmissionWitnesses.ReleasesSafeExactly`).
- A report whose input and output are inside the admitted bounds can still raise
  a token hold, by giving only a total (`AdmissionWitnesses.TotalOnlyOverruns`).
  It does so exactly when that total passes the sum of the bounds
  (`AdmissionCeiling.TokenHoldRaised`).
- An attempt id reused after its row was purged, while its ledger row is still
  there, loses its charge: settled at five, purged, begun again and settled at
  seven, the ledger stays at five (`AdmissionWitnesses.ReusedIdLosesCharge`). A
  charge reaches the ledger exactly when its effect id is free
  (`AdmissionLedger.ChargeReachesLedger`).
- A job-pending report that carries a cost makes the later settlement charge
  nothing (`AdmissionWitnesses.PendingCostLosesCharge`). Whatever happens in
  between, a settlement at a known nonzero cost charges it exactly when the
  pending report carried no usable cost
  (`AdmissionReplay.PendingDecidesCharge`).
- A replayed settlement changes nothing, unless a begin has admitted the purged
  id anew (`AdmissionReplay.FinalizeReplays`); an accepted repeat settles again
  exactly after such a begin (`AdmissionReplay.ReplaySettlesExactly`).
- One request can reserve the current window's counter once per policy row after
  an expired window has rolled forward
  (`AdmissionWitnesses.StaleWindowCountsTwice`). Two entries name the same counter
  exactly when two scanned policy rows of the same scope and kind resolve to the
  same window, one of them from a stale one
  (`AdmissionWindows.EntriesRepeatExactly`, `AdmissionWindows.CollisionIsStale`);
  a new attempt is counted once on each of its counters exactly when no such rows
  have a kind that reserves anything (`AdmissionWindows.CountedOnceExactly`).
- The comment on `ClaimJobAction` says that a version mismatch fails closed. The
  code compares versions only when the caller names one: administrator claims
  keep fences unique and growing in every interleaving exactly when the expected
  version is positive (`JobSafety.SafeExactlyWhenVersioned`).

## Model

| member | source | states |
|---|---|---|
| Cost.EstimateTerms | internal/policy/policy.go:83-103 | the loop over unbounded products returns the ceiling of the exact sum, and fails exactly for bad operands or a sum that leaves int64 |
| Cost.CeilDivIsLeast | internal/policy/policy.go:83-103 | the rounded cost is the least amount that covers the exact price |
| Cost.EstimateBound | internal/policy/policy.go:130-165 | the reserved maximum is every input token at the highest configured input rate plus every output token at the output rate |
| Cost.EstimateUsageCost | internal/policy/policy.go:172-313 | the appended term list prices the nested categories of the report, with every error case |
| Cost.ChargeWithinReservation | internal/policy/policy.go:130-313 | any usage inside the bounds whose cost is known costs at most the reserved bound, and pricing it never leaves int64 |
| Cost.BoundIsTight | internal/policy/policy.go:130-165 | the bound is exactly reached by some report inside the limits, so nothing smaller would do |
| Cost.NoGuessing | internal/policy/policy.go:172-313 | filling in missing counters consistently never gives a different number: the same cost or unknown |
| Cost.CheckedAdd | internal/policy/policy.go:15-20 | the sum of two non-negative amounts, or a failure exactly when it leaves int64 |
| AdmissionStore.Store.CheckSubmitted | internal/store/policy_plan.go:509-619 | a plan's deadline, revision, token bounds, price version and cost bound are re-checked against the stored configuration, in the source's order |
| AdmissionStore.Store.ResolveAllowances | internal/store/policy_plan.go:621-696 | the scan over policy rows, which rolls expired windows forward, yields the entries and rows of the specification |
| AdmissionStore.Store.ReserveEntry | internal/store/admission.go:124-172 | one guarded update of a shared counter adds the entry's amount exactly when maximum, window and counter allow it |
| AdmissionStore.Store.Reserve | internal/store/admission.go:123-173 | the loop over entries reserves every one of them or reports the first refusal |
| AdmissionStore.Store.BeginAttempt | internal/store/admission.go:57-202 | admission is the specified transaction: all holds and the attempt row, a replayed permit, or no change at all |
| AdmissionStore.Store.AdjustHold | internal/store/admission.go:266-323 | a hold moves to its target by changing the shared counter by the difference only, under the guard of its direction |
| AdmissionStore.Store.SettleHolds | internal/store/admission.go:430-452 | the settlement loop moves every entry's hold to its target or reports the first refusal |
| AdmissionStore.Store.FinalizeAttempt | internal/store/admission.go:353-471 | settlement is the specified transaction: state transition, evidence, holds, one charge, outcome, or no change |
| AdmissionStore.Store.MarkAccepted | internal/store/admission.go:472-499 | acceptance records evidence once and moves no hold |
| AdmissionStore.Store.LargestMaximum | internal/store/actions.go:178-195 | the loop finds the largest configured cost maximum among the entries |
| AdmissionStore.Store.CorrectHolds | internal/store/actions.go:205-228 | the correction loop moves cost, token and concurrency holds and passes over the others |
| AdmissionStore.Store.Reconcile | internal/store/actions.go:88-275 | reconciliation is the specified transaction: replay by id, every refusal, charge choice, holds, ledger difference and result |
| AdmissionStore.Store.ReleaseConcurrency | internal/store/governance_maintenance.go:54-60 | the sweep releases exactly the concurrency holds of an overdue attempt |
| AdmissionStore.Store.Sweep | internal/store/governance_maintenance.go:49-70 | every overdue attempt is released and marked unknown |
| AdmissionStore.Store.Purge | internal/store/governance_maintenance.go:71-87 | settled attempts past retention are deleted and no others |
| AdmissionStore.Store.Expire | internal/store/governance_maintenance.go:91-93 | ledger rows past retention are deleted, reconciliation effects are kept |
| AdmissionStore.Store.RunMaintenance | internal/store/governance_maintenance.go:17-102 | a maintenance pass is sweep, purge and expiry, or no change |
| AdmissionInvariant.RunConserves | internal/store/admission.go:123-323 | conservation over every run: each counter equals the sum of the holds on it over all attempts ever recorded, purged ones included |
| AdmissionInvariant.MoveHoldsKeepsSlack | internal/store/admission.go:266-323 | moving holds changes each counter by exactly this attempt's own difference |
| AdmissionInvariant.MoveHoldsNeverShort | internal/store/admission.go:275-287 | with holds contained in their counters no downward movement is refused |
| AdmissionSafety.AdmittedHoldsSign | internal/store/admission.go:124-172 | admitted holds are non-negative exactly when the plan's cost bound is, or no cost entry applies |
| AdmissionSafety.RunIsSound | internal/store/admission.go:266-323 | in every run with non-negative bounds all holds stay non-negative and conserved |
| AdmissionSafety.CounterCovers | internal/store/admission.go:275-287 | every counter holds at least what any one attempt holds on it |
| AdmissionSafety.SettlementNeverBlocked | internal/store/admission.go:430-452 | a settlement is never refused by the release guard: only for the caller's mistakes, or where it raises some entry's hold and that counter row is missing or would leave int64 |
| AdmissionSafety.ReconciliationNeverBlocked | internal/store/actions.go:205-228 | a reconciliation is never refused by the release guard |
| AdmissionSafety.MaintenanceNeverBlocked | internal/store/governance_maintenance.go:49-70 | a maintenance pass always completes |
| AdmissionCeiling.BudgetIsCeiling | internal/store/admission.go:124-172 | in every run without reconciliation, lowered limits or caller costs, and with reports inside the bounds, no step raises a hold and no counter passes its policy maximum |
| AdmissionCeiling.TokenHoldRaised | internal/store/admission.go:406-445 | with input and output inside the bounds, a token hold is raised exactly by a usable lone total above their sum |
| AdmissionCeiling.EstimateWithinHold | internal/store/admission.go:406-411 | the estimate for a report inside the bounds is at most the reserved cost |
| AdmissionCeiling.CheckedBound | internal/store/policy_plan.go:596-613 | a stored cost bound that came from token rates is the bound of the pinned price |
| AdmissionLedger.LedgerTelescopes | internal/store/admission.go:453-464 | over every such run the ledger of an attempt sums to its charge, and cost holds equal a known charge |
| AdmissionLedger.FinalizeIsIdempotent | internal/store/admission.go:372-393 | an immediate repeat of a settlement changes nothing, also after a refusal; `AdmissionReplay.FinalizeReplays` states the replay at any later point of a run |
| AdmissionLedger.ReconciliationsPersist | internal/store/actions.go:112-126 | recorded reconciliations are never changed or removed by any step |
| AdmissionLedger.ReconcileReplays | internal/store/actions.go:112-126 | however the run goes on, the same reconciliation request gets the same answer and changes nothing |
| AdmissionLedger.ChargeReachesLedger | internal/store/admission.go:453-464 | the ledger of an attempt grows by the charge a settlement makes exactly when its effect id was free, in any ledger |
| AdmissionReplay.StepAdvances | internal/store/admission.go:372-393 | every step keeps an attempt as it was or advances it: settled outcomes are final, a pending job only moves to one, and a new attempt starts open and uncharged |
| AdmissionReplay.FinalizeReplays | internal/store/admission.go:372-393 | however the run goes on after an accepted settlement, the same report changes nothing unless a begin admitted the id anew |
| AdmissionReplay.ReplaySettlesExactly | internal/store/admission.go:372-393 | after one more step an accepted repeat settles again exactly when that step admitted the purged id anew |
| AdmissionReplay.PendingStaysChargeable | internal/store/admission.go:218-220 | a job-pending report leaves the attempt uncharged, and its cost counts as known exactly when the report carries a usable one |
| AdmissionReplay.PendingDecidesCharge | internal/store/admission.go:453-464 | over every run, a settlement at a known nonzero cost after a job-pending report reaches the charge exactly when that report carried no usable cost, and the ledger when the effect id is also free |
| AdmissionHolds.RunKeepsRequestsOnce | internal/store/admission.go:118-145 | in every reachable state at most one stored attempt of a request carries request holds, and concurrency holds are 0 or 1 |
| AdmissionHolds.ConcurrencyOnlyReleased | internal/store/admission.go:430-452 | a concurrency hold is admitted as 1 and only settlement, reconciliation or the sweep takes it to 0 |
| AdmissionWitnesses.TotalOnlyOverruns | internal/store/admission.go:440-441 | a total without its parts takes a counter past its maximum |
| AdmissionWitnesses.NegativeBoundBlocksRelease | internal/store/admission.go:42-56 | any negative cost bound passes validation and blocks another attempt's release |
| AdmissionWitnesses.ReleasesSafeExactly | internal/store/admission.go:275-287 | the runs that submit no cost bound below b have no settlement, reconciliation or maintenance pass refused by the release guard exactly when b is not negative |
| AdmissionWitnesses.ReusedIdLosesCharge | internal/store/admission.go:453-464 | a run that reuses a purged attempt id ends with a charge of seven and a ledger of five |
| AdmissionWitnesses.PendingCostLosesCharge | internal/store/admission.go:218-220 | a run whose job-pending report carries a cost settles at seven and charges nothing |
| AdmissionWitnesses.StaleWindowCountsTwice | internal/store/policy_plan.go:650-690 | one request is counted twice on the current window after a roll-forward |
| AdmissionWindows.ResolvedTargets | internal/store/policy_plan.go:650-690 | the entries of a plan are those of the rows that count, each on the window its row resolves to, whatever the scan itself has rolled forward |
| AdmissionWindows.EntriesRepeatExactly | internal/store/policy_plan.go:650-690 | two entries of a plan name the same counter exactly when two scanned rows of the same scope and kind resolve to the same window |
| AdmissionWindows.CollisionIsStale | internal/store/policy_plan.go:650-690 | of two rows that share a counter at least one is on a stale window |
| AdmissionWindows.CountedPerRow | internal/store/admission.go:123-173 | a new attempt adds to every counter the amount of its kind, once for each scanned row that counts on it |
| AdmissionWindows.CountedOnceExactly | internal/store/policy_plan.go:650-690 | a new attempt adds a single entry's amount to each of its counters exactly when no two rows of a kind that reserves anything share a counter |
| SnapshotCache.RuntimeState.Peek | internal/app/runtime_state.go:98-104 | a load sees the entry, or the generation it must find again |
| SnapshotCache.RuntimeState.Publish | internal/app/runtime_state.go:118-130 | a load is stored only if its generation still stands and nothing newer is cached |
| SnapshotCache.RuntimeState.Invalidate | internal/app/runtime_state.go:144-153 | the generation advances and an older entry, or any entry without a revision, goes |
| SnapshotCache.RuntimeState.OnConfigCommit | internal/app/runtime_state.go:155-168 | a local commit advances the generation and drops the entry whatever its revision |
| SnapshotCache.RunIsCoherent | internal/app/runtime_state.go:93-253 | over every interleaving an entry is the newest ever cached for its tenant, never below what was promised, and a load that can still publish has read all of it |
| SnapshotCache.NotifiedIsServed | internal/app/runtime_state.go:144-169 | after a notification, message or forced refresh neither the cache nor any call begun later serves less than its revision, nor less than what was committed when the entry was dropped |
| SnapshotCache.CacheNeverGoesBack | internal/app/runtime_state.go:118-130 | a tenant's cached revision never goes backwards, even across deletions |
| SnapshotCache.ReadsAreMonotonic | internal/app/runtime_state.go:93-133 | a call begun after another was served is never served an older revision |
| SnapshotCache.GivesUpAfterTwoChanges | internal/app/runtime_state.go:98-132 | a call fails with a change only after two invalidations of its tenant while it ran |
| JsonScan.SkipJSONSpace | internal/gateway/native_continuation.go:137-147 | the loop stops at the first byte that is not whitespace |
| JsonScan.SkipJSONValue | internal/gateway/native_continuation.go:160-223 | on any bytes the recursive scan with its loops equals the specification, errors included |
| JsonScan.SkipJSONMembers | internal/gateway/native_continuation.go:178-199 | the object loop equals its recursive specification |
| JsonScan.SkipJSONItems | internal/gateway/native_continuation.go:200-217 | the array loop equals its recursive specification |
| JsonScan.TokenIsExact | internal/gateway/native_continuation.go:148-159 | a string token ends right behind its closing quote, whatever escapes it holds |
| JsonScan.ValueIsExact | internal/gateway/native_continuation.go:160-223 | on the bytes of any valid value the scanner stops exactly at its end |
| JsonRewrite.WalkJSON | internal/gateway/native_continuation.go:233-302 | on any bytes the walk with its member loop equals the specification |
| JsonRewrite.RewriteJSONPath | internal/gateway/native_continuation.go:227-303 | the path is split at dots and walked from the start; an empty first part changes nothing |
| JsonRewrite.WalkAgrees | internal/gateway/native_continuation.go:233-302 | on the bytes of a valid value the walk gives the bytes of the rewritten tree |
| JsonMeaning.DocumentEnd | internal/gateway/native_continuation.go:160-223 | for every valid document the scan ends where its value does |
| JsonMeaning.DocumentRewrite | internal/gateway/native_continuation.go:227-303 | for every valid document the result is the same bytes, the mapping's refusal, or the bytes of the rewritten document, never a complaint about the document |
| JsonMeaning.OneToken | internal/gateway/native_continuation.go:264-281 | a rewrite replaces exactly one string token and keeps every other byte |
| JsonMeaning.RewriteMeans | internal/gateway/native_continuation.go:264-292 | on the parsed document it replaces the first string at the path that the mapping moves, is a refusal exactly when the mapping refuses it, and nothing when none moves |
| JsonMeaning.DocumentMeans | internal/gateway/native_continuation.go:227-303 | for every valid document and path: the same bytes when the mapping keeps every string at the path, its refusal, or bytes that differ in one string token and parse to the tree with the first moved string replaced |
| JsonMeaning.UpdatedAt | internal/gateway/native_continuation.go:264-281 | the strings at the path change in one place |
| JsonMeaning.UpdatedElsewhere | internal/gateway/native_continuation.go:264-281 | at every other path the strings stay |
| JsonMeaning.SplitJoins | internal/gateway/native_continuation.go:228-231 | the parts joined by dots are the path, and no part holds a dot |
| HeaderText.CanonicalIsKept | internal/store/idempotency.go:221-224 | a header name that passes the canonical and trim check is unchanged by both |
| IdempotencyCodec.CheckHeader | internal/store/idempotency.go:220-240 | one header is counted in exactly when its name, its values and the running totals allow it |
| IdempotencyCodec.NormalizeHeaders | internal/store/idempotency.go:213-254 | whatever order the map is visited in, the same header maps are accepted and the names come out sorted |
| IdempotencyCodec.EncodeResponse | internal/store/idempotency.go:268-305 | exactly the accepted responses are encoded, and the size check never refuses one |
| IdempotencyCodec.DecodeResponse | internal/store/idempotency.go:307-396 | the consuming loops equal the decoding specification on any bytes |
| IdempotencyCodec.RoundTrip | internal/store/idempotency.go:268-396 | decoding an encoded response gives back the same status, header map and body |
| IdempotencyStore.Store.BeginIdempotency | internal/store/idempotency.go:441-523 | a begin is the specified transaction: claim, replay, conflict, pending, unreplayable or refusal |
| IdempotencyStore.Store.DiscardIdempotency | internal/store/idempotency.go:529-548 | only the owner's own pending row is removed |
| IdempotencyStore.Store.FinishIdempotency | internal/store/idempotency.go:552-614 | only the owner's own pending row is completed or marked, after encoding and sealing |
| IdempotencyStore.Store.CleanupIdempotency | internal/store/idempotency.go:620-643 | only expired completed rows are removed |
| IdempotencySafety.SingleWinner | internal/store/idempotency.go:441-548 | between two new answers for a key the first winner's own row was discarded by that owner or found completed and expired |
| IdempotencySafety.NotReleasedStays | internal/store/idempotency.go:552-643 | a row that is not released keeps its owner and fingerprint, and its outcome is final |
| IdempotencySafety.UnreplayableForever | internal/store/idempotency.go:436-440 | an unreplayable row is never reclaimed |
| IdempotencySafety.FencedOwnerChangesNothing | internal/store/idempotency.go:529-614 | an owner that does not hold the row changes no row |
| IdempotencySafety.OtherFingerprintConflicts | internal/store/idempotency.go:491-493 | an unexpired row answers any other fingerprint with a conflict and stays |
| IdempotencySafety.ReplayIsFaithful | internal/store/idempotency.go:494-515 | every replay is the response its owner first finished with, under the same fingerprint, in a row not released since |
| IdempotencySafety.NeverDamaged | internal/store/idempotency.go:500-515 | with a lawful seal no stored response is ever found damaged |
| Fingerprint.FingerprintRequest | internal/gateway/idempotency.go:220-320 | the frames written step by step are the specified hash input, or none when a body cannot be read |
| Fingerprint.FrameCut | internal/gateway/idempotency.go:230-236 | a frame is told apart from whatever follows it |
| Fingerprint.FingerprintDescribes | internal/gateway/idempotency.go:220-320 | for any digest, two hash inputs agree exactly when method, path, query, per-name value multisets and the body described by lengths and digests agree |
| Fingerprint.FingerprintIdentifies | internal/gateway/idempotency.go:220-320 | where the digests of the contents at hand do not collide, two hash inputs agree exactly when head and body agree |
| Fingerprint.FingerprintTellsApart | internal/gateway/idempotency.go:284-318 | a 32-byte digest and two uploads that meet the premises of the identification and get different hash inputs |
| Fingerprint.SameInAnyOrder | internal/gateway/idempotency.go:261-283 | the order in which the header map is visited does not matter |
| CredentialStore.Store.DurablePut | internal/store/auxiliary.go:32-63 | insert only where nothing is, replace only the version that was read |
| CredentialStore.Store.LoadUsableCredential | internal/store/auxiliary.go:109-129 | a record is handed out only while its refresh lifecycle is resolved and active |
| CredentialStore.Store.PutCredential | internal/store/auxiliary.go:131-156 | a versioned install of the same identity clears an unresolved refresh |
| CredentialStore.Store.RewrapCredential | internal/store/auxiliary.go:160-183 | a rewrap advances the version and is refused while a refresh is unresolved |
| CredentialStore.Store.BeginRefresh | internal/store/auxiliary.go:185-204 | the fence is taken only on the current, resolved, active record |
| CredentialStore.Store.CommitRefresh | internal/store/auxiliary.go:209-225 | a commit installs the next version only for the matching intent within its lease |
| CredentialStore.Store.FailRefresh | internal/store/auxiliary.go:227-240 | a failure keeps the intent and demands reauthentication |
| CredentialSafety.BeginsAreSeparated | internal/store/auxiliary.go:185-204 | between two accepted begins of a credential a secret was installed |
| CredentialSafety.TokenSpentOnce | internal/credential/refresh.go:138-190 | two provider calls belong to two begins with an install between them, across workers, crashes and rewraps |
| CredentialSafety.NoUseWhileUnresolved | internal/store/auxiliary.go:109-183 | while a begun refresh is unresolved no usable load and no rewrap succeeds |
| CredentialSafety.SupersededChangesNothing | internal/store/auxiliary.go:206-240 | after any later install an intent can neither commit nor fail, and the rows stay |
| Routing.WeightedIndex | internal/routing/routing.go:221-241 | the running pick returns the position that owns the draw, and fails exactly when the weights leave int64 |
| Routing.DrawsPerWeight | internal/routing/routing.go:233-240 | each position is selected by exactly its weight many of the possible draws |
| Routing.SelectsOne | internal/routing/routing.go:233-240 | a draw selects one position |
| Routing.RemoveAt | internal/routing/routing.go:142-161 | removal shifts the rest of the tier down and moves nothing outside it |
| Routing.TakePreferred | internal/routing/routing.go:142-150 | the hint takes the first matching target of the tier, if there is one |
| Routing.OrderTier | internal/routing/routing.go:142-164 | one tier is ordered as a permutation with the hinted target first, or yields one target without fallback; it fails exactly when it is drawn from and what is left after the hint weighs more than int64 |
| Routing.OrderTiers | internal/routing/routing.go:134-168 | drawing a tier in place leaves the later tiers as they were, and the pass fails exactly when some tier it draws from does |
| Routing.Order | internal/routing/routing.go:72-168 | with fallback a permutation of the eligible targets in non-decreasing priority, without it one target of the top tier; the hint only puts a top-tier target first; whatever the draws, it fails exactly for an invalid declaration, no eligible target, or a tier that is drawn from and weighs more than int64 without the hinted target |
| Routing.SortKeepsTier | internal/routing/routing.go:133-133 | sorting by priority keeps the order of declaration inside each tier |
| JobStore.Store.PutJob | internal/store/resource_jobs.go:24-29 | a job is inserted once |
| JobStore.Store.ScanJobs | internal/store/resource_jobs.go:125-148 | the due jobs among the rows looked at, or a failure for an unusable fence |
| JobStore.Store.ClaimJobs | internal/store/resource_jobs.go:82-212 | a pass leases the chosen due jobs with the next fence, or changes nothing |
| JobStore.ServesEarliest | internal/store/resource_jobs.go:173-187 | the jobs a pass serves are as many as the limit allows, in the order of polling time, age and key, and no job it leaves comes before one it takes |
| JobStore.Store.UpdateJob | internal/store/resource_jobs.go:214-258 | an update needs the current owner, fence and lease, and keeps the identity |
| JobStore.Store.GetJobAction | internal/store/job_actions.go:15-53 | the loop over the tenant's rows returns the job that exposes the resource, and refuses a missing identity, an absent or an ambiguous resource |
| JobStore.LookupIsUnique | internal/store/job_actions.go:22-51 | in whatever order the rows are read, a job is found exactly when it is the only one of the tenant that exposes the resource |
| JobStore.Store.PrepareAction | internal/store/job_actions.go:57-67 | an administrator's claim before its write: the job as read, or a refusal for another version or a live lease |
| JobStore.Store.ClaimJobAction | internal/store/job_actions.go:68-97 | the second transaction writes the job as the first one read it, with the next fence |
| JobSafety.FencesGrow | internal/store/resource_jobs.go:82-212 | with versioned administrator claims every fence of a job is granted once and later grants are higher |
| JobSafety.EarlierClaimantIsFenced | internal/store/resource_jobs.go:214-258 | after a later claim no update under an earlier fence is accepted |
| JobSafety.IdentityIsFixed | internal/store/resource_jobs.go:236-241 | in every run a job stays and its identity never changes |
| JobSafety.SafeExactlyWhenVersioned | internal/store/job_actions.go:57-97 | administrator claims keep fences growing in every interleaving exactly when the expected version is positive |

## Left out

- SQL text, dialects, migrations and the transaction wrapper: a transaction is one atomic step.
- AdmissionStore.Store.CheckSubmitted: key, session, role, connection, model-enabled and operation checks are one approval flag, because they only compare stored references.
- AdmissionStore.Store.BeginAttempt: admits under that same approval flag.
- AdmissionStore.Store.RunMaintenance: audit retention and the idempotency cleanup of the same transaction are left out; the cleanup is modelled on its own in `IdempotencyStore`.
- Access checks of reconciliation: an authorization flag stands for them.
- Daily and monthly window calendars: a clock parameter says which window is current; where it matters, the current window contains the time and is its own current window.
- Planning before admission (`PlanAttempt`, `boundModel`): only the authoritative re-check inside the transaction is modelled.
- Stored envelopes whose holds do not match their entries in number: the invariant shows that none is ever written.
- Audit rows: they are not read by any modelled operation.
- SnapshotCache.RunIsCoherent: assumes fewer than 2^64 steps, because the generation counter is a 64-bit word that wraps.
- The contents of a configuration snapshot: the cache is modelled by revisions.
- Text decoding and encoding of JSON strings, which are library functions: the codec is a parameter, lawful on Unicode text.
- JsonMeaning.RewriteMeans: the mapping is a pure function of the text, because sealing a continuation URL is I/O.
- Real cryptography: sealing is an inverse pair, and a digest any function of the content.
- Fingerprint.FingerprintIdentifies: assumes that the digests of the contents at hand do not collide, which no 32-byte digest gives for all contents.
- Fingerprint.FingerprintRequest: what is read of a body is a parameter, and lower-casing an arbitrary function.
- The in-process call map of the refresher (`refreshSingleflight`, `Join`): it only saves begins that the durable fence would refuse.
- Catalog compatibility and health lookups of routing: they are parameters of the ordering.
- Scan budget, cursor and fairness of job claims: the rows looked at are a parameter, and so is the comparison of key texts, as a strict total order.
- HTTP handlers, provider connectors, relays, telemetry, console and Redis hints: I/O plumbing.
