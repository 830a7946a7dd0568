# Solus Protocol: a verified model

This project models, in Dafny, the decision and execution core of two systems that share one
repository, and proves what they keep over all inputs and all runs.

**The trading control plane** (TypeScript). Three agents run cycles that fetch prices, ask a strategist
and a guardian, pass a policy engine, anchor a hash on chain and broadcast a swap.

| file | models |
|---|---|
| `Policy.dfy`, `PolicyFields.dfy`, `PolicyLaws.dfy`, `PolicyRuns.dfy` | the policy engine: its class, what one call tests and leaves behind in terms of the fields it is given, what it guarantees, and what holds over every history of calls |
| `AuditLog.dfy` | the ring buffer of the audit logger, its queries and pages |
| `PriceOracle.dfy` | spreads, candidate pairs and the pre-scan rotation |
| `Json.dfy`, `ProofService.dfy`, `ProofFields.dfy` | canonical serialization, its parser, what the anchored hash binds, what a payload says and the very text that is hashed |
| `AgentCycle.dfy`, `AgentCycleLaws.dfy` | one cycle as a machine that is resumed by answers and exceptions, with the trace of its effects, and what holds of every trace |
| `CycleInputs.dfy` | what a cycle makes of the answers it receives, up to the record of its swap |
| `ControlPlane.dfy`, `ControlPlaneSteps.dfy`, `ControlPlaneRuns.dfy` | any number of interleaved cycles around the shared engine and log, what each step keeps, writes and cannot touch, and what holds over whole runs: the daily cap, and that every swap was checked |
| `CycleData.dfy` | where the data of every engine call of a run came from, and what became of its answer |
| `CapLimits.dfy` | how far the cap reaches when swaps overlap |
| `ExecutedVolume.dfy`, `ExecutedRuns.dfy`, `DailyExecution.dfy` | the volume executed on the chain, as against the volume logged, and how much of it a day can hold |
| `Orchestrator.dfy`, `OrchestratorSteps.dfy` | schedules, kill switch, forced cycles and the event loop's timers, and the cadence they keep |
| `Broadcast.dfy` | base units and the retry loop of a swap |
| `DecisionParser.dfy` | finding the JSON object in a model's reply |

**The Kora paymaster** (Rust).

| file | models |
|---|---|
| `FeeOutflow.dfy`, `FeeTotals.dfy` | the fee payer's outflow on 64-bit words, payment analysis, fee totals and price models |
| `AccountCache.dfy`, `AccountCacheSteps.dfy`, `AccountCacheOrder.dfy`, `AccountCacheFailures.dfy` | the read-through account cache under concurrent calls, over a clock and a changing chain, what it serves, the order of its reads, and what its failures change |
| `AtaChunks.dfy` | finding missing token accounts and creating them in chunks |
| `RetryingOracle.dfy` | the retrying price oracle and the conversion of dollar prices into SOL |

`Results.dfy` holds the shared result types. Objects with mutable fields are classes whose methods are
proved against functions on their abstract state; the laws are proved about those functions. Runs are
sequences of events, and run-level properties are inductions over them. The laws speak of the fields of the
inputs and results, or of descriptions given beside them, rather than of the functions that compute them.

Where the code and its comments or documentation disagree, the model follows the code:

- The hash of a proof record does not cover the decision. The key list handed to `JSON.stringify` filters
  nested objects as well, so nothing of the decision, the verdict, the outcome of the checks or the prices
  is hashed (`ProofService.HashBindsExactly`), and a record with a replaced decision still verifies.
- A guardian's MODIFY does not bound the final amount: the sizing check overwrites it
  (`PolicyLaws.ProposedAmountIrrelevant`).
- Taken alone, the engine's token whitelist treats an empty token as an absent one and lets it through
  (`PolicyLaws.TokenCheckMeaning`). In the running system it never sees one: the schema of the strategist's
  reply admits listed tokens only (`ControlPlaneRuns.EveryCheckSeesListedTokens`).
- The daily volume is read from a buffer that evicts, so it can be below the true one
  (`AuditLog.VisibleIsTrueIff`), and overlapping cycles of one agent can exceed the cap together, by n - 1
  maximal swaps and no more (`ControlPlaneRuns.RunInvariant`, `CapLimits.BoundIsReached`).
- A swap that was confirmed is reported as failed, and not logged, when the balance cannot be read
  afterwards (`AgentCycleLaws.ConfirmedButNotLogged`), and a transaction whose confirmation fails may take effect
  all the same. Neither counts towards the cap: what is executed in a day can exceed it by these swaps, on top
  of evicted and overlapping ones, and by nothing else (`ExecutedRuns.ExecutedWithinDay`). The rate limiter
  bounds them, at 7200 approvals a day that can take effect twice each, and a day can reach that with nothing
  logged (`DailyExecution.ExecutedPerDay`, `DailyExecution.LostSwapsFillTheDay`).
- `cycle_complete` is emitted twice if and only if an approved decision is no swap
  (`AgentCycleLaws.CompletionEndsCycle`).
- "Retry once on submission failure" retries on any failure, also on one to confirm a submitted
  transaction (`Broadcast.SubmittedTwiceIff`).
- The 20-second stagger of the agents holds within a session, and across restarts that come 20 seconds after
  the last cycle of any agent but Rex; while Rex is active, any other restart breaks it
  (`Orchestrator.ScheduledStartsAreStaggered`, `Orchestrator.RestartTooSoon`).
- A cache time-to-live beyond the signed 64-bit range turns negative and switches the cache off
  (`AccountCache.ZeroOrHugeTtlDisablesTheCache`).
- Reads through the cache are in order unless two fetches for a key overlap, a store fails, or a fetch finds
  an account gone whose entry the cache can still serve (`AccountCacheOrder.ReadsInOrder`). Each of the three
  alone can make them go backwards (`AccountCacheOrder.OverlapGoesBackwards`,
  `AccountCacheOrder.FailedStoreGoesBackwards`, `AccountCacheOrder.VanishedAccountComesBack`).
- A failed lookup turns the success of a call into a failure if and only if the entry was still valid and the
  node answers an error (`AccountCacheFailures.FailedLookupMatters`).
- The search for missing token accounts reads through the cache, for the accounts and for their mints, and
  takes any error for a missing account. So an account closed lately can count as existing, a mint's former
  owner can be taken, and an account behind a failed request counts as missing; these are the only wrong
  answers (`AtaChunks.WrongLookups`, `AccountCacheOrder.ClosedAccountsCanBeServed`).

## Model

| member | source | states |
|---|---|---|
| `ControlPlaneRuns.RunInvariant` | backend/src/agent/agent.ts:296-303 | Over every interleaving of any number of cycles of any agents, with at most n approved but unsettled swaps of an agent at a time, the volume the logger shows plus the amounts in flight never exceeds the daily cap plus n - 1 maximal swaps, whatever is evicted, whenever the day rolls over and whatever other agents log; the engine state is always the fold of the checks made |
| `ControlPlaneRuns.DailyCap` | backend/src/agent/agent.ts:388-410 | With one swap in flight at a time the cap itself holds; if every evicted confirmation of the day has amount 0, it holds for the true logged volume too |
| `ControlPlane.StepKeepsCap` | backend/src/agent/agent.ts:296-410 | Every single step of the interleaved system keeps the bound, provided no more than n swaps of the agent are pending after it |
| `ControlPlane.StepWorldInv` | backend/src/agent/agent.ts:129-460 | Every step keeps the log's amounts non-negative, the engine in line with its history, and every cycle in its trace invariant with its pending amount between 0 and the maximum |
| `ControlPlane.ApprovedWithinCap` | backend/src/security/policy-engine.ts:198-212 | A swap becomes pending only with an amount that fits under the cap as shown to the engine and under the maximum transaction |
| `ControlPlane.PendingBound` | backend/src/agent/agent.ts:322-370 | The amounts of n pending swaps add up to at most n times the maximum |
| `ControlPlane.CopiesIsProduct` | backend/src/security/policy-engine.ts:198-212 | The repeated sum in the cap is the product n times the maximum |
| `CapLimits.BoundIsReached` | backend/src/agent/agent.ts:296-303 | For every n, a setup (one agent, whose cap is one maximal swap) and a run with at most n swaps pending, on a clock that never runs backwards and whose days start at midnight, after which the volume shown plus the amounts in flight is exactly the cap plus n - 1 maximal swaps: the bound is attained, and n = 1 is the only case in which it is the cap |
| `ExecutedVolume.CycleShowsLedger` | backend/src/protocol/broadcast-service.ts:137-202 | A cycle submits at most two transactions, for one amount, of which at most the last is confirmed, and logs at most that one: its trace shows exactly what its ledger says |
| `ExecutedVolume.CycleSentAddsUp` | backend/src/protocol/broadcast-service.ts:166-197 | Per cycle and window of time, executed is confirmed plus stray (taking effect unconfirmed), stray is at most unconfirmed, and submitted is confirmed plus unconfirmed, at most twice the maximum |
| `ExecutedVolume.CycleConfirmedAddsUp` | backend/src/agent/agent.ts:374-447 | Per cycle, what is confirmed is logged, lost (finished and never logged) or still awaited; since any instant, it is at most that |
| `ExecutedRuns.RunSends` | backend/src/agent/agent.ts:322-370 | In every run, whatever a cycle submits is for an approved amount within the maximum, and the log holds what the cycles have logged: since an instant at least that, and exactly that if nothing in it is older |
| `ExecutedRuns.ExecutedIsBetween` | backend/src/protocol/broadcast-service.ts:166-197 | In every run and window of time, the volume executed on the chain is the confirmed volume plus what took effect unconfirmed, and lies between the confirmed volume and that plus everything submitted and not confirmed |
| `ExecutedRuns.ConfirmedIsSubmittedIff` | backend/src/protocol/broadcast-service.ts:166-197 | What was confirmed is all that was submitted if and only if no transaction over a positive amount went unconfirmed; what was executed is then the same |
| `ExecutedRuns.ExecutedIsLoggedPlusMissed` | backend/src/agent/agent.ts:374-447 | What was executed is what is logged, plus the confirmed swaps never or not yet logged, plus those that took effect unconfirmed |
| `ExecutedRuns.ExecutedWithinDay` | backend/src/agent/agent.ts:374-447 | In a run of any age whose log stamps no confirmation before it was noted, what was executed since the start of the day exceeds the cap plus n - 1 maximal swaps by at most the evicted volume of the day, the confirmed swaps never logged and those that took effect unconfirmed |
| `DailyExecution.RunCounts` | backend/src/security/policy-engine.ts:340-342 | In every run, an agent has as many cycles approved after an instant as its engine history has approvals |
| `DailyExecution.ExecutedPerDay` | backend/src/security/policy-engine.ts:214-237 | Whatever the cap and the log, the swaps of an agent approved within 24 hours execute at most 14400 maximal swaps, of which at most 7200 are confirmed |
| `DailyExecution.LostSwapsFillTheDay` | backend/src/agent/agent.ts:374-447 | For every k up to 7200, a run within a single day, with one swap in flight at a time, that executes 2k maximal swaps and logs no volume: the bound of a day is attained |
| `ControlPlaneRuns.EverySwapIsChecked` | backend/src/agent/agent.ts:289-370 | In every run, every swap call any cycle has made executes a decision that an earlier call of the engine approved for that agent's profile, in the state the calls before it left, having been asked about the same decision up to its amount |
| `ControlPlaneRuns.EveryCheckSeesListedTokens` | backend/src/brain/decision-parser.ts:39-54 | In every run the engine is only ever asked about decisions with a permitted action and two listed tokens, so its first two checks always pass there |
| `AgentCycleLaws.RunInv` | backend/src/agent/agent.ts:129-460 | Whatever the price feed, models, wallet, memo and swap return or throw, and whatever other cycles do in between, a cycle's trace of effects has one of the shapes the invariant lists |
| `AgentCycle.StepInv` | backend/src/agent/agent.ts:140-460 | Each answer or exception keeps that invariant; in particular a swap reaches the guardian only with an error-free quote for its own pair or with the answer to one asked for its pair and amount |
| `CycleData.EveryCheckIsGrounded` | backend/src/agent/agent.ts:259-347 | In every run each engine call was made by a cycle right after it announced a guardian's verdict, no veto, on what it had just asked the guardian: the engine got that decision (with the amount of a modification that names one), that balance, those prices and quote and the largest of their spreads; and the cycle then announced and logged what the engine answers in the state the calls before it had left, ended on a failure or on anything but a swap, and otherwise sent to the anchor the final decision, the checks, that verdict and those prices under its agent and number |
| `CycleData.SwapsAreJudgedByTheirQuote` | backend/src/agent/agent.ts:224-243 | In every run each engine call on a swap carries an error-free quote for the two tokens of that very decision, or the answer to a quote its cycle asked for those two tokens |
| `CycleData.StrategistNext` | backend/src/agent/agent.ts:224-262 | After the strategist a swap goes to the guardian with the quote it was shown if and only if that is error-free and for its own pair, and otherwise asks for a quote of its pair and amount; what is no swap goes to the guardian directly |
| `CycleData.MaxSpreadIsLargest` | backend/src/agent/agent.ts:297-299 | The best spread is an upper bound of all spreads and one of them |
| `CycleInputs.AnswersArePassedOn` | backend/src/agent/agent.ts:140-262 | On every run of a cycle the guardian judges exactly what the price service, the wallet and the strategist answered, with the second quote in place of the first when one was asked for |
| `CycleInputs.PrescanStep` | backend/src/agent/agent.ts:144-168 | The prescan logs the rotation index modulo the number of candidates, asks for a quote of 0.1 of the candidate there, and moves the index on by one, wrapping around; without candidates nothing is asked and the index stays |
| `CycleInputs.ExceptionsEndTheCycle` | backend/src/agent/agent.ts:449-460 | An exception before the swap ends the cycle with CYCLE_ERROR and cycle_complete and leaves engine and rotation alone |
| `CycleInputs.VetoesEndTheCycle` | backend/src/agent/agent.ts:195-289 | An unusable strategist's reply, a veto and an unusable guardian's reply each end the cycle with their own entry, without asking the engine |
| `CycleInputs.MemoLeadsToSwap` | backend/src/agent/agent.ts:331-371 | Once the memo is confirmed the hash is announced and logged, and the swap called is that of the anchored decision |
| `CycleInputs.FailedSwapEnds` | backend/src/agent/agent.ts:412-447 | A swap both of whose attempts fail ends the cycle, with DEVNET_ALT_SKIP if and only if the second attempt's error contains the lookup table message, and otherwise with TX_FAILED; the prefix the error gets on the way never hides or adds that message |
| `CycleInputs.ConfirmedSwapAnnounced` | backend/src/agent/agent.ts:366-385 | A swap with a confirmed attempt is announced with that attempt's signature and quoted output in whole tokens, and the decision's tokens and amount |
| `CycleInputs.RecordsComeFromTheChain` | backend/src/agent/agent.ts:388-410 | On every run of a cycle a logged TX_CONFIRMED holds the signature, the time and the output in whole tokens of the attempt that was confirmed, the tokens and amount of a decision that was swapped and the hash of a payload holding it |
| `ControlPlaneSteps.EngineSeesTheLog` | backend/src/agent/agent.ts:277-303 | The daily volume the engine is shown is the agent's visible volume of the log after the guardian's verdict is pushed and before the engine's own result is; the step pushes these two entries and nothing else |
| `ControlPlaneSteps.StepsAreIsolated` | backend/src/agent/agent.ts:129-460 | A step of one cycle leaves every other cycle as it is, writes to the log in its own agent's name only, calls the engine at most once, and touches no other agent's rotation index, rate limiter or stop-loss |
| `ControlPlaneSteps.ApprovalIsStamped` | backend/src/agent/agent.ts:301-347 | A step after which a swap awaits its anchor asked the engine; its payload bears the clock reading taken for it, the last action hands that payload to the anchor, and the engine's limiter has the approval at its second reading |
| `ControlPlaneSteps.RotationMoves` | backend/src/agent/agent.ts:147-151 | An agent's rotation index starts at 0 and moves, with the prices of any of its cycles, to the rank after the one looked at |
| `AgentCycleLaws.SwapOnlyWhenLicensed` | backend/src/agent/agent.ts:289-370 | A swap call is preceded, in the same cycle, by a strategist's decision that it repeats but for the amount, by a guardian verdict that is no veto, by an approval with all nine checks passed of that very decision, and by the anchoring of a payload holding it; there is at most one swap call |
| `AgentCycleLaws.OneSettlementPerCycle` | backend/src/agent/agent.ts:402-446 | At most one of TX_CONFIRMED, TX_FAILED and DEVNET_ALT_SKIP is logged per cycle, and a finished cycle has logged one exactly when it called the swap |
| `AgentCycleLaws.RecordMatchesProof` | backend/src/agent/agent.ts:388-410 | A logged confirmation carries the amount and tokens of the decision that was swapped, which is the one of the payload anchored before, the hash of that payload, and the signature, output and time of the confirmation announced two actions before it |
| `AgentCycle.SwapReplyConfirms` | backend/src/protocol/broadcast-service.ts:137-202 | Whatever the two attempts of a swap come to, a confirmation the cycle is handed repeats the amount and tokens of the decision it asked to swap |
| `AgentCycleLaws.CompletionEndsCycle` | backend/src/agent/agent.ts:324-327 | A finished cycle ends with cycle_complete, and emits it twice if and only if a decision other than a swap was approved in it; it is never emitted before the last two actions of a finished cycle |
| `AgentCycleLaws.ConfirmedButNotLogged` | backend/src/agent/agent.ts:374-447 | After a confirmed swap the confirmation is logged if and only if the balance can be read again; otherwise TX_FAILED or the skip is logged although TX_CONFIRMED was emitted |
| `AgentCycleLaws.CyclesEnd` | backend/src/agent/agent.ts:129-460 | A cycle ends after at most nine answers, exceptions included |
| `Policy.PolicyEngine.Check` | backend/src/security/policy-engine.ts:107-352 | One call of the engine on its per-agent maps answers the specified verdict and leaves exactly the specified new state, the second clock reading being the one recorded; it approves a swap only if the net spread of its quote without an error, or failing such a quote the gross spread, meets the threshold |
| `Policy.PolicyEngine.RunChecks` | backend/src/security/policy-engine.ts:115-325 | The nine checks in order, on the working copy, leave the list of specified results and the first failure |
| `Policy.PolicyEngine.ScreenDecision` | backend/src/security/policy-engine.ts:124-158 | Checks 1 to 3: the flags and the first failure after them |
| `Policy.PolicyEngine.SizeAndCap` | backend/src/security/policy-engine.ts:160-212 | Checks 4 and 5: the amount is overwritten by the sized one before the volume is projected |
| `Policy.PolicyEngine.LimitRate` | backend/src/security/policy-engine.ts:214-237 | Check 6: the stored timestamps become those inside the window, and the check fails at five of them |
| `Policy.PolicyEngine.CoverAndSpread` | backend/src/security/policy-engine.ts:239-283 | Checks 7 and 8: the sized amount and the reserve against the SOL balance, and a swap's spread against the threshold, net if its quote has no error and gross otherwise |
| `Policy.PolicyEngine.GuardDrawdown` | backend/src/security/policy-engine.ts:285-325 | Check 9: the session high is raised and the restriction latched exactly as specified |
| `Policy.PolicyEngine.Conclude` | backend/src/security/policy-engine.ts:327-351 | The outcome, the reason of the first failure and the final decision from the flags |
| `Policy.PolicyEngine.GetRateLimiter` | backend/src/security/policy-engine.ts:48-53 | Creates an empty limiter for an unknown agent and changes nothing else |
| `Policy.PolicyEngine.RecordTransaction` | backend/src/security/policy-engine.ts:55-58 | Appends one timestamp to the agent's limiter and changes nothing else |
| `Policy.PolicyEngine.GetStopLossState` | backend/src/security/policy-engine.ts:71-81 | Starts or raises the session high and keeps the latch |
| `Policy.PolicyEngine.ResetStopLoss` | backend/src/security/policy-engine.ts:359-365 | Clears latch and high of a known agent only |
| `Policy.PolicyEngine.GetRateLimitStatus` | backend/src/security/policy-engine.ts:371-376 | Counts the stored timestamps inside the window |
| `Policy.FirstFailedAppend` | backend/src/security/policy-engine.ts:115-120 | Setting `failedOn` only while it is unset computes the first failure of the list |
| `Policy.ReasonOfFirst` | backend/src/security/policy-engine.ts:347-348 | Looking the reason up by name finds the reason of the first failing check |
| `PolicyFields.DecisionFlags` | backend/src/security/policy-engine.ts:124-283 | Check 1 passes if and only if the action is SWAP, HOLD or SKIP; check 2 for SOL, USDC, RAY and BONK and the empty texts it overlooks; check 3 unless a swap's confidence is below the profile's minimum; check 4 always; and check 8 unless a swap's spread is below the threshold: the net spread, times 100, of its quote if that has no error, and the gross spread otherwise |
| `PolicyFields.SizedAmountMeaning` | backend/src/security/policy-engine.ts:160-191 | A swap's amount becomes the product of the maximum, the confidence and one minus the penalty, rounded to the nearest four decimals: no penalty up to a 24h move of 5 % of the token to sell, a hundredth per further point, at most one half, a token without prices not having moved; approvals and rejections carry it |
| `PolicyFields.NearestIsUnique` | backend/src/security/policy-engine.ts:179 | At most one amount with four decimals is nearest in this sense, so the description determines the sized amount |
| `PolicyFields.VolumeFlag` | backend/src/security/policy-engine.ts:198-212 | Check 5 passes if and only if the volume shown plus the sized amount (0 unless a swap) is at most the cap, and its reason names that sum |
| `PolicyFields.RateFlag` | backend/src/security/policy-engine.ts:214-237 | Check 6 passes if and only if fewer than five stored timestamps of the agent lie after now minus 60000 ms, and its reason names their number |
| `PolicyFields.BalanceFlag` | backend/src/security/policy-engine.ts:239-256 | Check 7 passes if and only if the SOL balance is at least the sized amount (0 unless a swap) plus 0.01, and its reason names that sum |
| `PolicyFields.WorthIsPortfolio` | backend/src/security/policy-engine.ts:288-292 | The portfolio value is the SOL, USDC, RAY and BONK held, each at its dollar price, holdings that are not listed counting for nothing |
| `PolicyFields.StopLossFlag` | backend/src/security/policy-engine.ts:285-325 | The stored high becomes the larger of itself and the portfolio value; check 9 passes if and only if the latch was open and 100 times the loss against that high is above the trigger times the high (for a high of 0 or less: 0 is above the trigger), and the latch ends up closed if and only if it fails; no other agent is touched |
| `PolicyFields.LimiterAfter` | backend/src/security/policy-engine.ts:214-220 | The agent's limiter keeps each timestamp of the last 60000 ms as often as it was there, drops the others, and gains one if and only if a swap is approved; no other limiter is touched |
| `PolicyFields.ResetOpensTheLatch` | backend/src/security/policy-engine.ts:359-365 | A reset opens the latch and sets the high to 0 for an agent that has one, and changes nothing else |
| `PolicyLaws.ApprovesIffAllPass` | backend/src/security/policy-engine.ts:327-351 | The call approves if and only if all nine checks pass; otherwise failedOn and reason are those of the first failing check |
| `PolicyLaws.OutcomePrecedence` | backend/src/security/policy-engine.ts:327-337 | A failure of check 1, 2, 5 or 7 means REJECTED; without one, a failure of the stop-loss RESTRICTED; without that, of the rate limit QUEUED; without that, of check 3 or 8 FORCE_HOLD; and without any failure APPROVED |
| `PolicyLaws.DecisionUnderOutcome` | backend/src/security/policy-engine.ts:327-351 | Approvals and rejections change nothing of a decision but the amount of a swap; every other outcome turns it into a HOLD of 0 |
| `PolicyLaws.FirstFailedIsFirst` | backend/src/security/policy-engine.ts:115-120 | The first failure exists if and only if some check fails, and every check before it passes |
| `PolicyLaws.TokenCheckMeaning` | backend/src/security/policy-engine.ts:133-141 | The token check passes if and only if both tokens are listed, the first one is the empty string (which the code takes for an absent one, whatever the second is), or the first is listed and the second empty |
| `PolicyLaws.UnlistedTokensCanBeApproved` | backend/src/security/policy-engine.ts:133-141 | The engine on its own approves a concrete call in which neither token is listed; the schema of the strategist's reply keeps such a call from being made, see `ControlPlaneRuns.EveryCheckSeesListedTokens` |
| `PolicyLaws.ProposedAmountIrrelevant` | backend/src/security/policy-engine.ts:182 | The amount proposed for a swap, by the strategist or the guardian, influences neither the verdict nor the new state |
| `PolicyLaws.ApprovedSwap` | backend/src/security/policy-engine.ts:164-256 | An approved swap keeps the proposal but for the amount, which lies between half the maximum times the minimum confidence and the maximum, has four decimals, fits under the cap and leaves the fee reserve; it meets the threshold with the net spread of its quote, or with the gross spread if it has no quote or one with an error |
| `PolicyLaws.ApprovedKeepsDecision` | backend/src/security/policy-engine.ts:160-190 | What is approved is the decision asked about, except for its amount |
| `PolicyLaws.SafeAmountMonotone` | backend/src/security/policy-engine.ts:164-182 | The sized amount grows with the confidence and shrinks with the absolute 24h change |
| `PolicyLaws.SafeAmountBounds` | backend/src/security/policy-engine.ts:164-182 | It lies between the rounded half of maximum times minimum confidence and the rounded maximum |
| `PolicyLaws.MaximumBoundsIff` | backend/src/security/policy-engine.ts:177-182 | The maximum bounds every sized amount if and only if rounding the maximum to four decimals does not raise it |
| `PolicyRuns.WindowIsHistory` | backend/src/security/policy-engine.ts:214-237 | Under a non-decreasing clock the stored timestamps, purged, are the whole approval history filtered to the window |
| `PolicyRuns.FiveInAnyWindow` | backend/src/security/policy-engine.ts:214-237 | In every run the i-th and the (i+5)-th approved swap of an agent are at least 60000 ms apart |
| `PolicyRuns.DayLimit` | backend/src/security/policy-engine.ts:214-237 | In every run an agent has at most 7200 swaps approved within any 24 hours |
| `PolicyRuns.LimiterBounded` | backend/src/security/policy-engine.ts:340-342 | The stored list never has more than five entries |
| `PolicyRuns.StatusAgreesWithHistory` | backend/src/security/policy-engine.ts:371-376 | The reported usage is the number of approvals of the history inside the window |
| `PolicyRuns.LatchIsHistory` | backend/src/security/policy-engine.ts:285-325 | Over every run of checks and resets, the session high is the running maximum of portfolio values since the last reset and the agent is restricted if and only if some check since then breached the trigger |
| `PolicyRuns.ApprovedAboveTrigger` | backend/src/security/policy-engine.ts:306-325 | An approved swap with a positive high has a portfolio strictly above (1 + trigger/100) times the high |
| `PolicyRuns.NoApprovalAfterBreach` | backend/src/security/policy-engine.ts:296-325 | Once a check has breached, nothing is approved for the agent until a reset |
| `AuditLog.AuditLogger.Log` | backend/src/security/audit-logger.ts:69-80 | Pushing and shifting keeps the buffer the last thousand entries of everything logged |
| `AuditLog.AuditLogger.GetLastN` | backend/src/security/audit-logger.ts:118-122 | The agent's last n entries among the last thousand logged, and all of them for n = 0 |
| `AuditLog.AuditLogger.GetLastNTransactions` | backend/src/security/audit-logger.ts:128-133 | The last n signed confirmations of the agent among the last thousand logged, and all of them for n = 0 |
| `AuditLog.AuditLogger.GetDailyVolumeSOL` | backend/src/security/audit-logger.ts:139-153 | Filtering and adding up yields the visible volume, the one the cap is proved about |
| `AuditLog.AuditLogger.GetPaginated` | backend/src/security/audit-logger.ts:186-191 | A page is what skip and take show of the last thousand entries logged, newest first, beside their number |
| `AuditLog.VolumeAppend` | backend/src/security/audit-logger.ts:139-153 | An entry adds its amount to an agent's volume if and only if it is a confirmation of that agent, stamped at the start of the day or later, whose amount is a number |
| `AuditLog.QueriesAppend` | backend/src/security/audit-logger.ts:118-133 | An entry joins the agent's list if and only if it is the agent's, and the agent's transactions if it also is a confirmation whose signature is neither empty nor zero; the order is kept |
| `AuditLog.PageAt` | backend/src/security/audit-logger.ts:186-191 | The i-th entry of a page is the one i places before the newest entry that earlier pages leave; a page is full unless the buffer ends on it |
| `AuditLog.VolumeIsReduce` | backend/src/security/audit-logger.ts:144-152 | Filtering a log and then adding the amounts up is the volume computed entry by entry |
| `AuditLog.LastOfPush` | backend/src/security/audit-logger.ts:76-80 | The bounded push of the last thousand is the last thousand of the push |
| `AuditLog.BufferIsLast` | backend/src/security/audit-logger.ts:76-80 | Over every history the buffer built by bounded pushes is exactly its last min(n, 1000) entries |
| `AuditLog.VisibleVolume` | backend/src/security/audit-logger.ts:139-153 | The true volume of a log is the visible volume plus that of the evicted entries |
| `AuditLog.VisibleIsTrueIff` | backend/src/security/audit-logger.ts:139-153 | For non-negative amounts the visible daily volume never exceeds the true one, and equals it if and only if every evicted confirmation of the day has amount 0 |
| `AuditLog.EvictionHidesVolume` | backend/src/security/audit-logger.ts:77-80 | A thousand later entries make the volume of a confirmation disappear |
| `AuditLog.VolumeRollover` | backend/src/security/audit-logger.ts:140-152 | Moving the start of the day forward never raises the volume |
| `AuditLog.VolumeConcat` | backend/src/security/audit-logger.ts:152 | Volume adds up over concatenated logs |
| `AuditLog.PageIsSkipTake` | backend/src/security/audit-logger.ts:186-190 | For every page and limit of at least 1 the in-memory slice arithmetic yields the page that skip and take yield on the newest-first list |
| `AuditLog.PagesCoverTheEnd` | backend/src/security/audit-logger.ts:162-191 | Pages 1 to m concatenate to the reversed last min(m * limit, total) entries, each exactly once |
| `AuditLog.SliceLastMeaning` | backend/src/security/audit-logger.ts:118-122 | slice(-n) is the last n entries, except that n = 0 returns all of them |
| `AuditLog.FilterMeaning` | backend/src/security/audit-logger.ts:119-120 | Filtering keeps exactly the entries that satisfy the predicate |
| `PriceOracle.BuildSpreads` | backend/src/price/price-oracle.ts:101-107 | The loop over the four pairs builds the specified spreads in order, under the keys SOL_USDC, RAY_SOL, BONK_SOL and RAY_USDC |
| `PriceOracle.CandidatesMeaning` | backend/src/agent/agent.ts:464-482 | The candidate list is a permutation of the oriented non-neutral spreads in descending order, each from a token to one whose 24h change is at least 0.5 smaller, with that difference rounded as its spread; no non-neutral pair is missing |
| `PriceOracle.PairOriented` | backend/src/price/price-oracle.ts:66-99 | In terms of the prices' own fields: a pair is neutral if and only if the 24h changes differ by less than 0.5; otherwise splitting the key and testing the direction's prefix gives back the pair from the larger change to the smaller; the spread is the difference rounded to the nearest three decimals |
| `PriceOracle.SplitJoined` | backend/src/agent/agent.ts:470 | Splitting a joined key at the separator gives back its two tokens |
| `PriceOracle.SortsDescending` | backend/src/agent/agent.ts:479 | Sorting gives a descending permutation |
| `PriceOracle.SortIsStable` | backend/src/agent/agent.ts:479 | Candidates with equal spreads keep their order |
| `PriceOracle.OrientedAppend` | backend/src/agent/agent.ts:464-478 | A neutral pair adds nothing to the list, any other one its oriented candidate at the end |
| `PriceOracle.RotationIsFair` | backend/src/agent/agent.ts:145-151 | Any n consecutive cycles over a list of constant length n visit every rank exactly once, from any index |
| `PriceOracle.RanksClosedForm` | backend/src/agent/agent.ts:148-151 | The ranks visited are (index + k) mod n, all within the list |
| `PriceOracle.Agent.BuildCandidateList` | backend/src/agent/agent.ts:464-482 | The loop and the sort compute the specified list, in descending order |
| `PriceOracle.Agent.NextPrescan` | backend/src/agent/agent.ts:147-151 | The pick is the candidate at the index taken modulo the current length, and the index becomes the next rank, 0 after the last |
| `PriceOracle.Agent.BeginCycle` | backend/src/agent/agent.ts:130-131 | Cycle numbers count up by one |
| `Json.ParseSerialized` | backend/src/proof/proof-service.ts:62-64 | Parsing what the serializer with a key list prints gives exactly the projection of the value on that list, at every depth |
| `Json.SerializeInjectiveOnProjection` | backend/src/proof/proof-service.ts:62-64 | Two values print alike if and only if their projections are equal |
| `Json.SerializeIgnoresOrder` | backend/src/proof/proof-service.ts:57-64 | Values that differ only in the order of object keys, at any depth, print alike |
| `Json.ParseShown` | backend/src/proof/proof-service.ts:62-64 | The parser inverts the printer on every printable value, whatever follows |
| `Json.SameDataProjectsAlike` | backend/src/proof/proof-service.ts:57-64 | Values with the same data have the same projection |
| `ProofService.PayloadIgnoresOrder` | backend/src/proof/proof-service.ts:57-64 | Two payloads with identical data serialize identically however their keys were inserted |
| `ProofService.AnchoredVerifies` | backend/src/proof/proof-service.ts:117-130 | Verification accepts every anchored payload, also after a store has reordered its keys at any depth |
| `ProofService.VerifiesIffProjectionEqual` | backend/src/proof/proof-service.ts:175-178 | Under a hash that does not collide on the two texts, a payload verifies against another's hash if and only if their projections are equal, each onto its own top-level keys, whatever keys the stored one has gained or lost |
| `ProofService.PayloadKept` | backend/src/proof/proof-service.ts:118-126 | What of the payload reaches the hash: agent, cycle and timestamp, one empty object per check, empty objects for decision and verdict, and of the price snapshot its timestamp alone |
| `ProofService.HashBindsExactly` | backend/src/proof/proof-service.ts:62-64 | Two payloads of the actual shape serialize alike if and only if agent, cycle, timestamp, number of checks and price timestamp agree |
| `ProofService.ReplacedDecisionVerifies` | backend/src/proof/proof-service.ts:168-178 | Replacing the decision in a stored record goes unnoticed by verification |
| `ProofService.SortsDistinct` | backend/src/proof/proof-service.ts:63 | Sorting the keys gives the sorted listing of the same distinct keys |
| `ProofService.SortedListingUnique` | backend/src/proof/proof-service.ts:63 | A set of keys has only one sorted listing |
| `ProofFields.PayloadText` | backend/src/proof/proof-service.ts:62-64 | The hashed text to the letter: braces around agent id, cycle, an empty object, as many empty objects as there were checks, a price snapshot with a timestamp alone, another empty object, and the timestamp |
| `ProofFields.AnchoredText` | backend/src/proof/proof-service.ts:128-178 | The anchored hash is the hash of that text, and a stored payload verifies if and only if the hash of its text is the recorded one |
| `ProofFields.PayloadSays` | backend/src/proof/proof-service.ts:118-126 | Each of the seven properties of a payload holds the value it is named for |
| `ProofFields.DecisionSays` | backend/src/proof/proof-service.ts:122 | The decision in a payload shows the action, both tokens, the amount, the confidence, the reasoning and the risk flags under their own names |
| `ProofFields.VerdictSays` | backend/src/proof/proof-service.ts:123-124 | So do the verdict, with null for an absent amount, and each check |
| `ProofFields.PricesSay` | backend/src/proof/proof-service.ts:125 | The price snapshot holds its timestamp, staleness, prices and spreads, and a quote if and only if there is one |
| `ProofFields.BeforeMeaning` | backend/src/proof/proof-service.ts:63 | Keys are ordered by the first code unit in which they differ, a proper prefix first |
| `ProofFields.ProjectionHas` | backend/src/proof/proof-service.ts:62-64 | A projection has exactly the listed properties that the object has, each projected in turn |
| `Orchestrator.OneSchedulePerAgent` | backend/src/agent/agent-orchestrator.ts:138-183 | After every sequence of start, stop, pause, resume, forced cycle and timer firing, each agent has exactly one live schedule while the orchestrator runs and none while it does not |
| `Orchestrator.PausedAgentsNeverStart` | backend/src/agent/agent-orchestrator.ts:289-301 | From a pause until the agent is resumed no cycle of it starts, scheduled or forced |
| `Orchestrator.NoScheduledStartAfterStop` | backend/src/agent/agent-orchestrator.ts:177-183 | From a stop until the next start no scheduled cycle starts |
| `Orchestrator.ForcedStartsAreApart` | backend/src/agent/agent-orchestrator.ts:247-281 | On a non-decreasing clock a forced cycle starts at least 15000 ms after every earlier start of its agent, scheduled or forced |
| `Orchestrator.RefusalNamesTheWait` | backend/src/agent/agent-orchestrator.ts:256-264 | The seconds named in a cool-down refusal are the least whole number after which the trigger would be accepted |
| `Orchestrator.ScheduledStartsAreStaggered` | backend/src/agent/agent-orchestrator.ts:30-36 | Under ideal timers, scheduled starts of distinct agents are at least 20000 ms apart over whole runs whose restarts are clear |
| `Orchestrator.RestartTooSoon` | backend/src/agent/agent-orchestrator.ts:138-168 | While Rex is active, a restart that is not clear makes his first cycle, fired when due, break the stagger, so the condition is exact for an active Rex |
| `Orchestrator.RestartCanBreakTheStagger` | backend/src/agent/agent-orchestrator.ts:138-183 | A concrete run with a restart in which Rex starts five seconds after Nova |
| `OrchestratorSteps.EveryMinute` | backend/src/agent/agent-orchestrator.ts:138-168 | In a session that is not stopped and whose timers fire when due, an agent that is never paused has its scheduled cycles start at its offset (0, 20000 or 40000 ms) and every 60000 ms from then on, none left out, whatever other agents, forced cycles and switches do in between |
| `OrchestratorSteps.StartArmsEveryAgent` | backend/src/agent/agent-orchestrator.ts:138-168 | A start gives each agent one time-out at its own offset and starts no cycle; while running it does nothing |
| `OrchestratorSteps.FiringRearms` | backend/src/agent/agent-orchestrator.ts:154-168 | A schedule that is due starts one cycle of its agent, or none while it is paused, and either way is due again in 60000 ms; no other agent's schedule moves |
| `OrchestratorSteps.TriggerMeaning` | backend/src/agent/agent-orchestrator.ts:247-281 | A forced cycle is refused for an unknown name, for a paused agent, and within 15000 ms of the last start, naming the least sufficient seconds; otherwise one forced start is noted and no schedule moves |
| `OrchestratorSteps.SwitchSetsOneStatus` | backend/src/agent/agent-orchestrator.ts:216-220 | The kill switch sets the named agent's status and nothing else |
| `OrchestratorSteps.StopClearsSchedulesOnly` | backend/src/agent/agent-orchestrator.ts:176-183 | A stop clears every schedule, and forgets neither a pause nor a cool-down |
| `Orchestrator.AgentOrchestrator.Start` | backend/src/agent/agent-orchestrator.ts:138-169 | Arms the three staggered time-outs unless already running |
| `Orchestrator.AgentOrchestrator.Stop` | backend/src/agent/agent-orchestrator.ts:176-183 | Clears every timer and interval it holds |
| `Orchestrator.AgentOrchestrator.SetOperationalStatus` | backend/src/agent/agent-orchestrator.ts:216-220 | Sets the status of a known agent, fails for any other |
| `Orchestrator.AgentOrchestrator.TriggerCycle` | backend/src/agent/agent-orchestrator.ts:247-281 | Fails for an unknown or paused agent and during the cool-down, naming the remaining seconds, and otherwise starts exactly one cycle |
| `Orchestrator.AgentOrchestrator.StartCycle` | backend/src/agent/agent-orchestrator.ts:289-304 | Skips a paused agent without touching its cool-down, and otherwise notes the start |
| `Orchestrator.AgentOrchestrator.FireTimer` | backend/src/agent/agent-orchestrator.ts:156-168 | A time-out runs the agent and arms its interval; an interval runs it and waits another 60000 ms |
| `Broadcast.ConversionLoss` | backend/src/protocol/broadcast-service.ts:76-93 | To base units and back never gains, loses less than one base unit, and nothing if and only if the amount is a whole number of base units |
| `Broadcast.BaseUnitsRoundTrip` | backend/src/protocol/broadcast-service.ts:76-93 | Whole base units survive the conversion to an amount and back |
| `Broadcast.FourDecimalsConvertExactly` | backend/src/protocol/broadcast-service.ts:76-93 | Amounts with four decimals convert exactly for all four tokens |
| `Broadcast.ApprovedAmountsConvertExactly` | backend/src/security/policy-engine.ts:164-190 | So does the amount of every approved swap |
| `Broadcast.ExecuteSwap` | backend/src/protocol/broadcast-service.ts:137-202 | Succeeds if and only if one of two attempts does, and reports the first such attempt: its signature and signer, the decision's own tokens and amount, and its output in the decimals of the output token, present if and only if that is SOL, USDC, RAY or BONK; otherwise throws the second attempt's error behind a fixed prefix; sleeps 2000 ms between attempts and submits what the attempts made submit |
| `Broadcast.OutcomeRepeatsTheDecision` | backend/src/protocol/broadcast-service.ts:137-202 | A success reports the first of the two attempts that is confirmed, in the same terms, and a failure means that both failed and ends in the second attempt's error |
| `Broadcast.ReportedOutputIsQuoted` | backend/src/protocol/broadcast-service.ts:86-94 | The output of a success converts back to exactly the base units quoted for the confirmed attempt, in the decimals of the output token |
| `Broadcast.SubmissionsAppend` | backend/src/protocol/broadcast-service.ts:166-171 | An attempt submits its own signature if and only if it gets as far as the confirmation, confirmed if and only if that succeeds |
| `Broadcast.AllSubmissionsMeaning` | backend/src/protocol/broadcast-service.ts:187-196 | There is a second attempt if and only if the first one fails, and never a third |
| `Broadcast.SubmissionsFitTheOutcome` | backend/src/protocol/broadcast-service.ts:137-202 | The last submission is the confirmed one if the swap succeeds, and no other is; something goes unconfirmed if and only if an attempt that is made fails at confirmation |
| `Broadcast.SubmittedTwiceIff` | backend/src/protocol/broadcast-service.ts:187-196 | Two transactions are submitted for one swap, and never more, if and only if the first was submitted but not confirmed and the second attempt submits too |
| `DecisionParser.CleanReturnsTheObject` | backend/src/brain/decision-parser.ts:121-124 | For an optional closed thinking block, prose without an opening brace, an object and prose without a closing brace, with no thinking tag opened after the block, the pipeline returns exactly the object |
| `DecisionParser.ExtractsTheLongestObject` | backend/src/brain/decision-parser.ts:105-112 | The extraction is the longest substring between braces, and absent if and only if there is none |
| `DecisionParser.ExtractsTheObject` | backend/src/brain/decision-parser.ts:105-112 | Prose around an object does not disturb the extraction |
| `DecisionParser.LeadingBlockGoes` | backend/src/brain/decision-parser.ts:85-90 | A leading closed block is removed up to the first closing tag after its opening one, in any letter case, and the search goes on behind it |
| `DecisionParser.EveryBlockGoes` | backend/src/brain/decision-parser.ts:85-90 | Any number of closed blocks with text between them: every block goes and the text stays, in order; what follows stays if no further block in it is closed |
| `DecisionParser.TrimIsInvisible` | backend/src/brain/decision-parser.ts:89 | Trimming never changes what is extracted |
| `DecisionParser.NoThinkInThinking` | backend/src/brain/decision-parser.ts:87-88 | A `think` pattern does not match anywhere in a `thinking` block without one inside |
| `FeeOutflow.CalculateFeePayerOutflow` | kora/crates/lib/src/fee/fee.rs:381-471 | The three loops and the SPL part return the specified outflow, which is, for the fee payer's ledger read off the instructions' fields, an error if the ledger has an overflowing run, and otherwise its largest suffix sum plus the value of the SPL transfers |
| `FeeOutflow.OutflowMeaning` | kora/crates/lib/src/fee/fee.rs:387-470 | For the ledger of the fee payer, read off the instructions' fields in processing order (a payment to itself going out first): an error if and only if some contiguous run exceeds a 64-bit word; otherwise the largest suffix sum, plus the value of the SPL transfers, whose error or overflow is passed on |
| `FeeOutflow.LedgerOfOne` | kora/crates/lib/src/fee/fee.rs:399-449 | For every account and instruction: the flows of a transfer or a withdrawal of n sum to n at its source, -n at its target, 0 at an account that is both or neither; those of a creation to n at its payer and 0 elsewhere |
| `FeeOutflow.LedgerIsFlows` | kora/crates/lib/src/fee/fee.rs:387-449 | An account has exactly one ledger |
| `FeeOutflow.LevelIsMaxSuffixSum` | kora/crates/lib/src/fee/fee.rs:400-412 | Checked addition and saturating subtraction compute the largest suffix sum |
| `FeeOutflow.LevelBetweenNetAndGross` | kora/crates/lib/src/fee/fee.rs:400-449 | The outflow lies between the net loss (at least 0) and the gross outflow |
| `FeeOutflow.LevelIsNetIff` | kora/crates/lib/src/fee/fee.rs:410-412 | It is the net loss if and only if at no point more had come in than gone out |
| `FeeOutflow.EarlyIncomeIsIgnored` | kora/crates/lib/src/fee/fee.rs:410-412 | What flows in before everything else is never credited |
| `FeeOutflow.FitsIff` | kora/crates/lib/src/fee/fee.rs:404-408 | An intermediate total fails to fit if and only if some run of consecutive flows does |
| `FeeOutflow.SolOutflowIsChecked` | kora/crates/lib/src/fee/fee.rs:391-449 | The folds over the three instruction lists are one checked fold over the flows in order |
| `FeeOutflow.MaxSuffixSumIsUnique` | kora/crates/lib/src/fee/fee.rs:387-449 | The property determines the total |
| `FeeTotals.EstimateTransactionFee` | kora/crates/lib/src/fee/fee.rs:216-276 | The estimate succeeds if and only if every part does and the mathematical sum fits in 64 bits, and otherwise fails with the error of the first part that does, the sum coming last; it is the exact sum of its components, agrees with the recomputed total, and charges the signature and payment instruction only when they are missing |
| `FeeTotals.EstimateMeaning` | kora/crates/lib/src/fee/fee.rs:216-276 | The components of an estimate: the chain's fee; 5000 unless the fee payer is among the first num_required_signatures keys; the outflow of the fee payer's ledger; 50 for a payment that is required while no transfer goes to an account of the payment address; and the sum of the payments' Token-2022 fees; the total is their sum |
| `FeeTotals.EstimateErrors` | kora/crates/lib/src/fee/fee.rs:224-276 | A failing estimate reports the chain's error before any other, then an overflow of the fee payer's ledger, then the error of its SPL transfers, then what stopped the payment analysis or the sum |
| `FeeTotals.TransferMeaning` | kora/crates/lib/src/fee/fee.rs:103-136 | A transfer pays if its destination's owner is the payment address; it stops the analysis if the destination is no token account, or if it is a Token-2022 payment whose mint cannot be read; only a Token-2022 payment with a fee adds one |
| `FeeTotals.AnalyzePaymentInstructions` | kora/crates/lib/src/fee/fee.rs:138-214 | Finds a payment if and only if a transfer goes to an account of the payment address, sums the Token-2022 fees of the payments, skips missing accounts, and fails with the first faulty transfer or overflow |
| `FeeTotals.CheckedTotalIsTotal` | kora/crates/lib/src/fee/fee.rs:68-79 | A chain of checked additions fails if and only if the sum exceeds 64 bits |
| `FeeTotals.MarginCharge` | kora/crates/lib/src/fee/price.rs:55-97 | Under a margin of at least 0 the charge is the least integer not below fee times (1 + margin), never below the fee, the fee itself at margin 0, and fails only beyond the number ranges |
| `FeeTotals.WithMarginCharges` | kora/crates/lib/src/fee/price.rs:55-97 | Under any margin: the charge is at least fee times (1 + margin) and less than one lamport more, and exists if and only if the margin has a decimal value, the multiplier is in the decimal range and the product between 0 and the largest 64-bit word |
| `FeeTotals.MarginMonotone` | kora/crates/lib/src/fee/price.rs:55-97 | A larger fee is never charged less |
| `FeeTotals.EstimateKoraFee` | kora/crates/lib/src/fee/fee.rs:278-343 | Free charges nothing; a fixed price charges exactly itself or fails with the price's own error, and only a strict one also carries the five components of the estimate; a margin charges the least integer not below the estimate times (1 + margin) beside those components; a strict price and a margin fail with exactly the error of the estimate, or of the scaling |
| `FeeTotals.EstimateIsUnique` | kora/crates/lib/src/fee/fee.rs:216-276 | The description of an estimate determines its result, errors included |
| `FeeTotals.MarginCovers` | kora/crates/lib/src/fee/price.rs:55-97 | A margin of at least 0 leaves the components alone and charges at least their sum, and exactly it at margin 0 |
| `FeeTotals.StrictQuotesAreCovered` | kora/crates/lib/src/validator/transaction_validator.rs:376-402 | Under a strict fixed price a transaction passes validation if and only if the sum of its estimated components is at most the configured price; it is never rejected for an overflow |
| `FeeTotals.OnlyStrictPricesReject` | kora/crates/lib/src/validator/transaction_validator.rs:376-402 | No quote of another model is rejected |
| `AccountCache.RunInv` | kora/crates/lib/src/cache.rs:190-252 | For every interleaving of calls, evictions and failures over any changing chain: every cached entry was read from the chain and stamped within the latency bound, and every call is in one of the states the invariant describes |
| `AccountCache.StepInv` | kora/crates/lib/src/cache.rs:190-252 | Each external interaction keeps that invariant |
| `AccountCache.ReturnedAccountsAreRecent` | kora/crates/lib/src/cache.rs:228-240 | An account handed back was on the chain during the call, or less than the time-to-live plus the read-to-stamp latency before it returned |
| `AccountCache.RefreshReadsDuringTheCall` | kora/crates/lib/src/cache.rs:197-226 | A forced refresh, and every call while the cache is off, hands back what the node said during that call |
| `AccountCache.OutcomesComeFromTheNode` | kora/crates/lib/src/cache.rs:134-252 | A call that asked the node hands back exactly the node's answer, and a call that did not hands back an account, unless the configuration is not loaded |
| `AccountCacheSteps.FreshEntriesAreServed` | kora/crates/lib/src/cache.rs:134-240 | What the node answered one call is handed, without asking the node, to any call for the same key that looks it up before it is evicted or replaced and decides while its age in whole seconds is below the time-to-live, and is fetched anew otherwise, whatever happens between lookup and decision |
| `AccountCacheSteps.BeginMeaning` | kora/crates/lib/src/cache.rs:190-226 | A call fails without a configuration, asks the node while the cache is off, unnamed or not initialised, asks it and caches the answer when a refresh is forced, and asks the cache otherwise |
| `AccountCacheSteps.DecideMeaning` | kora/crates/lib/src/cache.rs:231-252 | An entry is handed back if and only if its age in whole seconds is below the time-to-live; otherwise the node is asked and its answer cached |
| `AccountCacheSteps.FetchMeaning` | kora/crates/lib/src/cache.rs:92-108 | The node answers the account as it is on the chain, that there is none, or a failure; only an account is cached |
| `AccountCacheSteps.StampAndStoreMeaning` | kora/crates/lib/src/cache.rs:134-152 | An answer is stamped with the whole second of a later clock reading, stored under the call's key unless storing fails, and handed back either way |
| `AccountCacheFailures.FailedLookupMatters` | kora/crates/lib/src/cache.rs:228-240 | Of two runs that differ in one lookup's failure, the call succeeds in one and not in the other if and only if the entry was still valid when the call judged it and the node answered an error |
| `AccountCacheFailures.FailedStoreIsHarmless` | kora/crates/lib/src/cache.rs:144-150 | Of two runs that differ in one store's failure, the call itself hands back the same at the same time |
| `AccountCache.GoneAccountsComeFromTheCache` | kora/crates/lib/src/cache.rs:228-240 | A call that hands back an account absent from the chain during the whole call never asked the node: it was not forced, the cache was on, and the account was on the chain less than the time-to-live plus the latency before |
| `AccountCache.PresentAccountsAreMissedByFailures` | kora/crates/lib/src/cache.rs:134-252 | A call that reports an error although the account was on the chain throughout the call was failed by the RPC |
| `AccountCache.ZeroOrHugeTtlDisablesTheCache` | kora/crates/lib/src/cache.rs:236-238 | With a time-to-live of 0 or beyond the signed range the cache never answers |
| `AccountCache.CallsTakeFiveSteps` | kora/crates/lib/src/cache.rs:190-252 | A call returns after at most five interactions and keeps its result |
| `AccountCacheOrder.ReadsInOrder` | kora/crates/lib/src/cache.rs:134-252 | In every run in which no store for a key fails, no two calls for it are between fetch and store at once, and none finds the account gone while the cache can still serve it, a call that starts after another has returned never hands back an older reading, be it an account or that there is none |
| `AccountCacheOrder.OrderlyRunInv` | kora/crates/lib/src/cache.rs:134-252 | Such runs keep a cached reading that can be served at least as recent as any handed back, and a reading on its way to the cache the most recent of all |
| `AccountCacheOrder.OverlapGoesBackwards` | kora/crates/lib/src/cache.rs:134-152 | For every time-to-live that lets the cache answer, a run in which reads go backwards and that breaks only the condition on overlapping fetches |
| `AccountCacheOrder.FailedStoreGoesBackwards` | kora/crates/lib/src/cache.rs:144-150 | For every time-to-live above 2, a run in which reads go backwards and that breaks only the condition on failed stores |
| `AccountCacheOrder.VanishedAccountComesBack` | kora/crates/lib/src/cache.rs:134-152 | For every time-to-live above 2, a run in which a call that was told the account is gone is followed by one that is served it, and that breaks only the condition on such fetches |
| `AccountCacheOrder.ClosedAccountsCanBeServed` | kora/crates/lib/src/cache.rs:228-240 | For every time-to-live above 2, a run in which a call that starts after an account was closed for good is served it |
| `AccountCache.YoungerThan` | kora/crates/lib/src/cache.rs:233-238 | Comparing whole seconds still bounds the real age by the time-to-live |
| `AtaChunks.CreateAtasForSigner` | kora/crates/lib/src/admin/token_util.rs:121-245 | Chunks are sent in order, each behind its compute budget, until one fails; after c confirmed chunks exactly the first min(c * size, total) accounts are created and reported, the rest remaining; Ok(total) if and only if every chunk is confirmed; a chunk size of 0 stops it before anything is sent |
| `AtaChunks.ChunksConcatenate` | kora/crates/lib/src/admin/token_util.rs:144-146 | The chunks concatenate to the whole instruction list in order |
| `AtaChunks.ChunkSizes` | kora/crates/lib/src/admin/token_util.rs:146 | No chunk is empty or too long, all but the last are full, and there are just enough |
| `AtaChunks.ChunksArePrefixes` | kora/crates/lib/src/admin/token_util.rs:190-200 | The first c chunks hold exactly the first min(c * size, n) elements |
| `AtaChunks.TransactionMeaning` | kora/crates/lib/src/admin/token_util.rs:131-172 | The transaction of chunk c: the price and the limit that were given, in this order, then for each k a creation paid by the payer, owned by the address, for the mint and program of account c * size + k |
| `AtaChunks.FindMissingAtas` | kora/crates/lib/src/admin/token_util.rs:247-301 | Over the answers of the cached lookups, names exactly the valid configured mints whose token account's lookup failed, in order, each with the program of its mint's owner; otherwise the error of the first of them whose mint cannot be read or is owned by no token program |
| `AtaChunks.WrongLookups` | kora/crates/lib/src/admin/token_util.rs:247-301 | When all its lookups are calls of one cache run: every account the search names was absent at some instant of its lookup or hidden by an RPC failure, and gets the program that owns an account its mint's lookup saw; every mint not named has an account its lookup saw; a failed search saw no mint, or one that no program owns. Saw means on the chain during the lookup, or served by the cache and on the chain less than the time-to-live plus the latency before |
| `RetryingOracle.GetTokenPrices` | kora/crates/lib/src/oracle/oracle.rs:73-102 | Makes at most max_retries calls, succeeds if and only if one of the first max_retries attempts does, stops at the first success, otherwise reports the last error, and sleeps base * (2^(k-1) - 1) in total for k calls |
| `RetryingOracle.GetTokenPrice` | kora/crates/lib/src/oracle/oracle.rs:65-71 | Succeeds if and only if the first successful answer holds the mint, and returns its price; otherwise fails with the last error, or with its own if there was a successful answer or no attempt |
| `RetryingOracle.SleptIsGeometric` | kora/crates/lib/src/oracle/oracle.rs:82-95 | The doubled delays add up to the closed form |
| `RetryingOracle.ConvertToSol` | kora/crates/lib/src/oracle/jupiter.rs:133-218 | Succeeds if and only if SOL and every requested mint have a dollar price between a billionth and a million, and otherwise complains about the first, SOL before all, that has none; the keys are then exactly the requested mints, every price is within 1e-15 and 1e15 and is the quotient of the dollar prices, and SOL is 1 |
| `RetryingOracle.QuotientBounds` | kora/crates/lib/src/oracle/jupiter.rs:98-131 | Sanity bounds on both dollar prices bound the SOL price |

## Left out

Simplifications of the whole model:

- Floating point and decimal rounding: amounts, prices and percentages are exact reals; times of the
  control plane are whole milliseconds, those of the cache real seconds. JavaScript's `NaN` and infinities
  are not modelled, except that a dollar price may fail to be finite.
- SHA-256, signatures and transaction encoding: the hash is an arbitrary function; claims about it are made
  on the serialized text, with absence of a collision stated where it is needed.
- Number printing: every number has some text that reads as a number and belongs to it alone.
- HTTP, RPC, Redis, the database, file logs and sockets: each answer is a parameter of the step that awaits
  it, and may be an exception.
- The language models and their prompts: a reply is either unusable or a decision or verdict of the right
  shape; schema validation is taken at its word for the permitted actions and tokens and for the ranges of
  confidence and amount.
- The wording of human-readable reasons: one constructor per message; `reason` is the one of `failedOn`.
- The decision's price impact and the other display fields of a quote: nothing decides on them. Nor are the
  dollar prices handed along when a quote is asked for, and the past transactions shown to the strategist.
- Properties whose value is `undefined` are treated as absent ones, and strings as sequences of characters,
  not of UTF-16 units.

Of single parts:

- A suspended `runCycle` is a value (its phase and its trace), not an object with mutable locals; its
  entries in the log carry one time per step; its call to the engine is atomic, as in the single-threaded
  original.
- The start of the local day is an input of the clock; the cap is proved for a start of day that never
  moves backwards.
- The wallet's own transaction list, Telegram and socket delivery of events.
- `RunOk` in the control plane follows one agent's pending swaps at a time; other agents are unrestricted.
- Names of agents that happen to be properties of every JavaScript object are taken to be unknown ones.
- The instants at which an account was read, and which calls had returned before another started, are kept
  in the model for the record; the code has no such fields.
- Which program owns a mint is a parameter of the search for missing token accounts, as is the pair of
  answers the cache gives for a mint.
- A submission that throws is taken not to have reached the network; one that returned a signature is taken
  to have. When a transaction took effect on the chain, if it did, and when the engine noted the approval of a
  cycle's swap are kept in the model for the record; no step reads them.
- A day is one of 24 hours where the executed volume of a day is bounded, and a profile bears its agent's name.
- The parse functions around the extraction (`JSON.parse` and the schema): they pass errors on.
- SPL transfer values, the epoch and the Token-2022 fee formula: their results are parameters of the fee
  model, as are the base fee and the price of a fixed-price model.
- A margin below -1 is rejected by the configuration; a product strictly between -1 and 0 is treated as
  negative here, without the decimal library's signed zero.
- The cache's key prefix, its connection pool and its serialization: a failure anywhere in them is a failed
  lookup or store. The expiry that the cache server applies by itself is an eviction, which may come at any
  time.
- `initialize_atas`, which repeats the creation for several addresses and stops at the first error.
- Metrics, configuration structures, log redaction, the signer pool, validators and usage limits.
- The frontend and the dashboards.
