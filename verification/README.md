# Verification model of the Solana copy trader

This project models the token filter and trading pipeline of `solana-copy-trader` in Dafny and proves what
its parts promise. The filter admits newly created tokens, waits for creator checks and early buys, decides
at gate 3 whether smart money is in, scores the token and sends at most one buy signal for each admission. Around
it stand the tables that record what happened, the consensus engine that triggers on several followed
wallets, the controller that picks the preferred feed, bonding-curve quotes, open positions with their exit
rules, copy groups and their file, instruction codecs, and the feedback from receipts into fees.

The model follows the program's form. Objects that change in place are classes whose methods are proved to
take their fields from one value to the next value of a state machine; loops are loops with invariants.
What the program promises is then proved of the state machine: for every event, every interleaving, every
run, every permutation, or every input.

| file | part of the program |
|---|---|
| `FilterTypes`, `SmartMoney`, `Gate3`, `Gate3Rules`, `Scoring`, `ScoreRules` | candidates, the single pass over early buys, gate 3, penalties and scores, and what they mean for the buys |
| `BuyFeed`, `EventLoop`, `LoopInvariants`, `LoopSnapshots`, `LoopHistory`, `LostReject`, `ProfileFetches`, `StaleProfile`, `Gate3Runs`, `BlockedLater`, `FilterLoop` | deliveries of buys, the event loop as a state machine, its invariants and histories over whole runs, and the loop in fields |
| `Refresh` | permit-guarded single-flight creator refresh under every interleaving |
| `Timelines`, `FilterResults`, `AddressSnapshots`, `Reordering` | three upserts and when arrival order matters |
| `Consensus` | the sliding-window quorum with revoke and cleanup |
| `Failover`, `Labels` | the preferred feed and its change log |
| `Quotes`, `Arithmetic` | constant-product quotes and floor division |
| `Position` | position life cycle, exit rules and the keyed manager |
| `Groups` | copy groups, selection, blocklist and the file |
| `Codec` | little-endian and Borsh formats of buy and create instructions |
| `Execution` | receipt feedback, tiers, fees and routes |
| `Wrappers` | optional values and saturating arithmetic |

`dafny verify dfyconfig.toml` checks the project.

## Where the program is not what it looks like

- A cleanup drops a triggered consensus entry after one timeout. Its own branch for two timeouts, which the
  workflow document describes, can never drop anything: signals that old are gone before it is reached
  (`Consensus.CleanupDropsIff`).
- The `filter_results` row depends on arrival order in general, because its time is the latest of all
  records while its fields are those of one (`FilterResults.OrderDependenceWitness`, `OrderFreeIff`); the
  `filter_timelines` row does not, up to its branch tag (`Timelines.OrderFreeIff`), nor does the
  `address_snapshots` row, up to its funder and its source (`AddressSnapshots.OrderFreeIff`).
- Splitting a buy helps on a curve with an empty SOL reserve (`Quotes.SplitSafeIff`).
- The narrative cut leaves more than its cap once the raw bonuses exceed 32 bits (`Scoring.NarrativeCutExactIff`,
  `NarrativeOvershootWitness`).
- A label that is reported under a second feed kind stays preferred for the first (`Failover.OtherPreferenceBreaksIff`).
- The life-cycle diagram shows Closed as final; a partial sale, a restore or a failure leaves it
  (`Position.ClosedStaysIff`, `FollowsLifeCycleIff`).
- A new group can take the place of an existing one when the group numbers run out (`Groups.AddOverwritesIff`,
  `AddOverwritesWitness`).
- One success can raise the fee, as the fourth sample after failures (`Execution.SuccessRaisesFeeIff`, `SuccessRaisesFeeWitness`), and
  the route label `zero_slot+jito` is unreachable (`Execution.RoutesNeverMix`).
- A buy that upgrades a kept delivery and gives gate 3 an immediate reason to reject does not remove the
  candidate: the handler returns first and nothing remembers the reason. The next buy, profile or tick decides
  the candidate afresh and may finalize it (`LoopHistory.UpgradeRejectIsForgotten`, `LostReject`).
- A profile message is matched by mint alone, so one reaches a later admission than it was sent for exactly when
  the mint was retired in between (`ProfileFetches.ReachesItsOwnIff`). It then takes back the mark that keeps a buyer
  from being fetched twice: an admission comes to have two fetches of one buyer outstanding exactly when such a
  message finds the buyer being fetched, and a further buy of the buyer is accepted before its own message or any
  profile of it arrives (`ProfileFetches.TwoFetchesIff`, `StaleProfile.StaleProfileWitness`). Without such a message
  there is at most one (`ProfileFetches.SingleFlight`).
- A signal can be sent while the creator's own buys break the configured limits: only when the hot lists block other
  buyers between the trigger and the scoring, which looks at the trigger alone (`Gate3Runs.SignalsKeepLimits`,
  `BlockedLater.SignalPastLimitsWitness`).
- A creator refresh can start during a cooldown: exactly when the cooldown was set, by a refresh that failed or a
  caller that was refused, after its own caller had read that there was none (`Refresh.StartsWhileCoolingIff`,
  `StartsWhileCoolingWitness`).

## Model

| member | source | states |
|---|---|---|
| SmartMoney.WindowsNested | rust-solana-scanlink/rust-solana-scanlink-main/rust-solana--gemini/solana-copy-trader/src/filter/engine.rs:2505-2528 | The fast window lies inside the soft window, the soft window inside the longest supported one, and the hard deadline is not before any of them, for every configuration. |
| SmartMoney.ScanWindow | rust-solana-scanlink/rust-solana-scanlink-main/rust-solana--gemini/solana-copy-trader/src/filter/engine.rs:2764-2924 | The single pass with running accumulators returns exactly the declared statistics of the candidate's buys, and the buyer it reports as largest is one no other buyer exceeds. |
| SmartMoney.RunPass | rust-solana-scanlink/rust-solana-scanlink-main/rust-solana--gemini/solana-copy-trader/src/filter/engine.rs:2793-2876 | After any number of buys the accumulators (SOL totals, per-buyer and per-funder tables, hot funders, threshold hits) are the declared counts, sums, sets and first hits of those buys. |
| SmartMoney.CountFunder | rust-solana-scanlink/rust-solana-scanlink-main/rust-solana--gemini/solana-copy-trader/src/filter/engine.rs:2800-2811 | One more unblocked buy moves the funder sets and the funder table by exactly that buy. |
| SmartMoney.CountSol | rust-solana-scanlink/rust-solana-scanlink-main/rust-solana--gemini/solana-copy-trader/src/filter/engine.rs:2798-2825 | One more unblocked buy moves the eligible, creator and creator-funder totals and the buyer table by exactly that buy; a creator buy is never also a creator-funder buy. |
| SmartMoney.MatchBuy | rust-solana-scanlink/rust-solana-scanlink-main/rust-solana--gemini/solana-copy-trader/src/filter/engine.rs:2837-2875 | A matched buy records each threshold the first time it is met, with the pressure and cluster-quality tests taken on everything seen up to and including that buy. |
| SmartMoney.LargestShare | rust-solana-scanlink/rust-solana-scanlink-main/rust-solana--gemini/solana-copy-trader/src/filter/engine.rs:2889-2897 | The pass over the per-buyer totals yields the largest share of eligible SOL, and a buyer if and only if there is eligible SOL. |
| SmartMoney.MaxValue | rust-solana-scanlink/rust-solana-scanlink-main/rust-solana--gemini/solana-copy-trader/src/filter/engine.rs:2840-2844 | Result is a greatest value of the table, or 0 for an empty one. |
| SmartMoney.FirstMetIsFirst | rust-solana-scanlink/rust-solana-scanlink-main/rust-solana--gemini/solana-copy-trader/src/filter/engine.rs:2867-2875 | The buy that meets a path's minimum is the first that does in list order, and there is none only if no buy does. |
| SmartMoney.FirstMetStable | rust-solana-scanlink/rust-solana-scanlink-main/rust-solana--gemini/solana-copy-trader/src/filter/engine.rs:2867-2875 | Buys appended later never move a threshold that was already met. |
| SmartMoney.SoftReachedIff | rust-solana-scanlink/rust-solana-scanlink-main/rust-solana--gemini/solana-copy-trader/src/filter/engine.rs:2873-2875 | The soft threshold is reached if and only if some buy matched and the final matched SOL reaches the minimum; the time is then that of the first matched buy whose running total does. |
| SmartMoney.SharesWithinEligible | rust-solana-scanlink/rust-solana-scanlink-main/rust-solana--gemini/solana-copy-trader/src/filter/engine.rs:2812-2838 | Matched SOL, and creator plus creator-funder SOL together, never exceed eligible SOL. |
| SmartMoney.BuyerTotalsSum | rust-solana-scanlink/rust-solana-scanlink-main/rust-solana--gemini/solana-copy-trader/src/filter/engine.rs:2812-2815 | The per-buyer totals add up to the eligible SOL. |
| SmartMoney.MaxBuyerIsMax | rust-solana-scanlink/rust-solana-scanlink-main/rust-solana--gemini/solana-copy-trader/src/filter/engine.rs:2889-2897 | The largest buyer total is reached by some eligible buyer and exceeded by none. |
| SmartMoney.LargestClusterIsMax | rust-solana-scanlink/rust-solana-scanlink-main/rust-solana--gemini/solana-copy-trader/src/filter/engine.rs:2840-2849 | The cluster size is reached by some funder and exceeded by none. |
| SmartMoney.LargestBuyerCovers | rust-solana-scanlink/rust-solana-scanlink-main/rust-solana--gemini/solana-copy-trader/src/filter/engine.rs:2889-2897 | Largest buyer total times number of eligible buyers is at least the eligible SOL. |
| Gate3.TriggerBacked | rust-solana-scanlink/rust-solana-scanlink-main/rust-solana--gemini/solana-copy-trader/src/filter/engine.rs:2554-2621 | A trigger implies that the candidate holds a buy, that a matched buy met the path's minimum, and that this happened inside the path's window. |
| Gate3Rules.DeadlinesIff | rust-solana-scanlink/rust-solana-scanlink-main/rust-solana--gemini/solana-copy-trader/src/filter/engine.rs:2505-2535 | A delay is inside the fast, soft or hard deadline exactly when it is at most one of the milliseconds configured for it and at most the outer window's seconds times 1000. |
| Gate3Rules.ReasonsIff | rust-solana-scanlink/rust-solana-scanlink-main/rust-solana--gemini/solana-copy-trader/src/filter/engine.rs:2636-2760 | Exactly when each of the six reasons is given, in order, in sums over the early buys of the buyers not blocked: the creator's own buys break the limits, wallets with the creator's funder do, one buyer pays too large a share, too few known funders, past the hard deadline, full and short of the soft minimum. |
| Gate3Rules.TriggerIff | rust-solana-scanlink/rust-solana-scanlink-main/rust-solana--gemini/solana-copy-trader/src/filter/engine.rs:2562-2630 | The fast path triggers exactly when no funder presses, the backers have paid the fast minimum (85 percent of it, at least 0.05 SOL, for a well-spread cluster), and the first buy at which that held was in the fast window; the soft path exactly when the fast one does not and the same holds of its own minimum and window. |
| Scoring.CappedStepsAreCappedSum | rust-solana-scanlink/rust-solana-scanlink-main/rust-solana--gemini/solana-copy-trader/src/filter/risk.rs:102-105 | Adding penalties one at a time, capping after each, gives the capped sum of all of them. |
| Scoring.CappedOrderFree | rust-solana-scanlink/rust-solana-scanlink-main/rust-solana--gemini/solana-copy-trader/src/filter/risk.rs:102-105 | The capped total is the same for every order of the same penalties. |
| Scoring.AnalyzeRuntimeRisk | rust-solana-scanlink/rust-solana-scanlink-main/rust-solana--gemini/solana-copy-trader/src/filter/risk.rs:167-263 | The runtime penalty is the sum of exactly the penalties whose conditions hold and the gate-1 penalty, capped once. |
| Scoring.BuildNarrative | rust-solana-scanlink/rust-solana-scanlink-main/rust-solana--gemini/solana-copy-trader/src/filter/engine.rs:3018-3059 | The step-by-step cut computes the bonuses of the specification, and what is left of them is within the cap whenever 32 bits hold the total. |
| Scoring.NarrativeCutExactIff | rust-solana-scanlink/rust-solana-scanlink-main/rust-solana--gemini/solana-copy-trader/src/filter/engine.rs:3036-3059 | The three bonuses that are left add up to the smaller of raw total and cap if and only if the raw total fits in 32 bits. |
| Scoring.NarrativeOvershootWitness | rust-solana-scanlink/rust-solana-scanlink-main/rust-solana--gemini/solana-copy-trader/src/filter/engine.rs:3036-3059 | Two hits at the largest bonus under a cap of 10 leave 2^32 + 9. |
| Scoring.NarrativeCutOrder | rust-solana-scanlink/rust-solana-scanlink-main/rust-solana--gemini/solana-copy-trader/src/filter/engine.rs:3036-3059 | A base bonus is cut only when no confirmed bonus is left, a preheat bonus only when neither is; every keyword counts in exactly one tier. |
| Scoring.DynamicBonusIsCappedTotal | rust-solana-scanlink/rust-solana-scanlink-main/rust-solana--gemini/solana-copy-trader/src/filter/engine.rs:3036-3059 | The bonus that enters the score is the capped raw total, whether or not the raw total saturated. |
| Scoring.ScoreBounds | rust-solana-scanlink/rust-solana-scanlink-main/rust-solana--gemini/solana-copy-trader/src/filter/engine.rs:3164-3190 | Quality is the base less the exact sum of all penalties and never below zero; the total is quality plus urgency; confidence is the total capped at 100. |
| Scoring.PenaltyNeverHelps | rust-solana-scanlink/rust-solana-scanlink-main/rust-solana--gemini/solana-copy-trader/src/filter/engine.rs:3164-3190 | More gate-2 penalty never raises quality, total or confidence. |
| BuyFeed.UpgradeExistingBuyEvent | rust-solana-scanlink/rust-solana-scanlink-main/rust-solana--gemini/solana-copy-trader/src/filter/engine.rs:1193-1220 | A repeated delivery raises the lamports to the larger value, replaces the instruction exactly when the entry's feed name contains "deshred" in some letter case and the new one's does not, and reports a change exactly when the entry changed. |
| BuyFeed.AbsorbMeaning | rust-solana-scanlink/rust-solana-scanlink-main/rust-solana--gemini/solana-copy-trader/src/filter/engine.rs:1193-1220 | Folding all deliveries of a signature leaves the largest lamports ever delivered, the instruction of the first delivery whose feed name does not contain "deshred" in any letter case (of the first delivery, if all do), and the identity of the first delivery. |
| BuyFeed.MergeFaithful | rust-solana-scanlink/rust-solana-scanlink-main/rust-solana--gemini/solana-copy-trader/src/filter/engine.rs:1113-1122 | Merging a repeated delivery keeps the entries distinct, equal to the signature set, within the maximum, and each the fold of its deliveries. |
| BuyFeed.AcceptFaithful | rust-solana-scanlink/rust-solana-scanlink-main/rust-solana--gemini/solana-copy-trader/src/filter/engine.rs:1123-1136 | Accepting a first delivery keeps the same. |
| BuyFeed.FindBuy | rust-solana-scanlink/rust-solana-scanlink-main/rust-solana--gemini/solana-copy-trader/src/filter/engine.rs:1113-1117 | A hit has the signature; no hit means that no entry has it. |
| EventLoop.SelectTriggerTrade | rust-solana-scanlink/rust-solana-scanlink-main/rust-solana--gemini/solana-copy-trader/src/filter/engine.rs:3431-3468 | The trade selected is an eligible early buy, and none is selected only if no early buy is eligible. |
| EventLoop.ScoreCandidate | rust-solana-scanlink/rust-solana-scanlink-main/rust-solana--gemini/solana-copy-trader/src/filter/engine.rs:3291-3429 | A signal is for the snapshot's own admission and mint, mirrors one of its early buys, and is sent only if gate 3 triggers again on the path it names; taking the first early buy as a fallback is always possible. |
| ScoreRules.SignalIff | rust-solana-scanlink/rust-solana-scanlink-main/rust-solana--gemini/solana-copy-trader/src/filter/engine.rs:3291-3428 | A signal is sent if and only if gate 3 triggers, unless it does so on the fast path with the filter on, at most one admissible buyer, a flat curve, no keyword but preheat ones, and SOL and buyer quality under the plain floors, or under the raised ones with a heavy risk penalty; its path and the gate named follow from the trigger. |
| ScoreRules.SoftOrTwoAlwaysSignal | rust-solana-scanlink/rust-solana-scanlink-main/rust-solana--gemini/solana-copy-trader/src/filter/engine.rs:3215-3284 | Every soft trigger and every trigger with two admissible buyers yields a signal. |
| ScoreRules.MirrorsFirst | rust-solana-scanlink/rust-solana-scanlink-main/rust-solana--gemini/solana-copy-trader/src/filter/engine.rs:3400-3468 | The signal mirrors the first early buy by a backer who is not the barred creator, by the hot lists of that moment, or the first of all if there is none. |
| ScoreRules.QualityEarned | rust-solana-scanlink/rust-solana-scanlink-main/rust-solana--gemini/solana-copy-trader/src/filter/engine.rs:3065-3154 | The points for the candidate: backers, their SOL, curve, buyer quality, and 6 for a well-spread cluster. |
| ScoreRules.QualityLost | rust-solana-scanlink/rust-solana-scanlink-main/rust-solana--gemini/solana-copy-trader/src/filter/engine.rs:3118-3164 | The points against it: the gate-2 penalty, the runtime risk, 6 for a single funder, 8 for same-funder pressure, 6 for a suspicious cluster; urgency is momentum plus the capped keyword bonuses. |
| ScoreRules.RiskPoints | rust-solana-scanlink/rust-solana-scanlink-main/rust-solana--gemini/solana-copy-trader/src/filter/risk.rs:167-263 | The capped runtime risk in terms of the buys: full points for a buyer with 92 percent and half for 80, liquidity from two buyers at most, wallets with the creator's funder, one known funder among three buyers, a repeated template, and gate 1's own penalty. |
| ScoreRules.PointLevels | rust-solana-scanlink/rust-solana-scanlink-main/rust-solana--gemini/solana-copy-trader/src/filter/engine.rs:3080-3115 | Where the points for capital, curve and momentum begin and where they are full. |
| ScoreRules.PointsGrow | rust-solana-scanlink/rust-solana-scanlink-main/rust-solana--gemini/solana-copy-trader/src/filter/engine.rs:3066-3115 | More backers, SOL, progress or buys never lower the points, and the fast path is never worth less than the soft one. |
| ScoreRules.QualityRounded | rust-solana-scanlink/rust-solana-scanlink-main/rust-solana--gemini/solana-copy-trader/src/filter/engine.rs:3116-3124 | Buyer quality is rounded to the nearest of 0 to 15 points, at least 5 for a lone buyer on the fast path. |
| ScoreRules.RequiredScore | rust-solana-scanlink/rust-solana-scanlink-main/rust-solana--gemini/solana-copy-trader/src/filter/engine.rs:3171-3182 | The required score is the lower of two minima, on the fast path less 4 for a well-spread cluster and less the relief for a confirmed keyword, never below zero. |
| LoopInvariants.TakenQuiet | rust-solana-scanlink/rust-solana-scanlink-main/rust-solana--gemini/solana-copy-trader/src/filter/engine.rs:563-634 | The one outstanding gate or score message of a mint finds the candidate in the status that waits for it and of the admission it was sent for. |
| LoopInvariants.ScoredStep | rust-solana-scanlink/rust-solana-scanlink-main/rust-solana--gemini/solana-copy-trader/src/filter/engine.rs:579-634 | Handling a score message keeps every invariant of the loop. |
| LoopInvariants.StepKeepsInv | rust-solana-scanlink/rust-solana-scanlink-main/rust-solana--gemini/solana-copy-trader/src/filter/engine.rs:533-682 | Every event, in every order, keeps the coupling of candidate status to outstanding messages, the ledger of admissions, the shape of the buys, and the match of signals to passed outcomes. |
| LoopInvariants.StepForward | rust-solana-scanlink/rust-solana-scanlink-main/rust-solana--gemini/solana-copy-trader/src/filter/engine.rs:533-682 | One event never moves a candidate's status back and never reuses an admission number. |
| LoopInvariants.OneMessagePerStatus | rust-solana-scanlink/rust-solana-scanlink-main/rust-solana--gemini/solana-copy-trader/src/filter/engine.rs:533-682 | In every state of a run before it stops: pending exactly when one gate message is outstanding for the mint, finalizing exactly when one score message is, active or absent when neither; and the messages are for the present admission. |
| LoopInvariants.StatusMovesForward | rust-solana-scanlink/rust-solana-scanlink-main/rust-solana--gemini/solana-copy-trader/src/filter/engine.rs:773-1191 | Within one admission the status only moves forward, however far apart the two moments are. |
| LoopInvariants.AdmissionsConserved | rust-solana-scanlink/rust-solana-scanlink-main/rust-solana--gemini/solana-copy-trader/src/filter/engine.rs:579-680 | Over any run, admissions are the live candidates plus the enqueued outcomes, and each single admission is live without outcome or gone with exactly one. |
| LoopInvariants.SignalsBelongToAdmissions | rust-solana-scanlink/rust-solana-scanlink-main/rust-solana--gemini/solana-copy-trader/src/filter/engine.rs:579-634 | Every signal belongs to an admission whose outcome passed with gate-2 and gate-3 times recorded, no two signals share an admission even if the mint is admitted again, and until the loop stops the signals are those of the passed outcomes in order. |
| LoopSnapshots.StepKept | rust-solana-scanlink/rust-solana-scanlink-main/rust-solana--gemini/solana-copy-trader/src/filter/engine.rs:533-682 | Every event keeps outstanding scores equal to their candidates up to buyer profiles, awaited profiles fetched, and buys inside their window. |
| LoopSnapshots.ScoredAsTriggered | rust-solana-scanlink/rust-solana-scanlink-main/rust-solana--gemini/solana-copy-trader/src/filter/engine.rs:1106-1112 | While a score is outstanding nothing of the candidate changes except what is known about its buyers, so the snapshot that is scored is what the candidate still holds. |
| LoopSnapshots.SignalMirrorsHeldBuy | rust-solana-scanlink/rust-solana-scanlink-main/rust-solana--gemini/solana-copy-trader/src/filter/engine.rs:579-634 | The trade a signal mirrors is among the buys its candidate holds when the score arrives, and was first seen before the hard deadline. |
| LoopSnapshots.AwaitedProfilesAreFetched | rust-solana-scanlink/rust-solana-scanlink-main/rust-solana--gemini/solana-copy-trader/src/filter/engine.rs:1222-1260 | Every buyer a candidate waits for has a fetch outstanding that was sent for this admission, and no profile yet. |
| LoopSnapshots.EarlyBuysInWindow | rust-solana-scanlink/rust-solana-scanlink-main/rust-solana--gemini/solana-copy-trader/src/filter/engine.rs:1126-1133 | No early buy was first seen after the candidate's hard deadline. |
| LoopHistory.StepTakes | rust-solana-scanlink/rust-solana-scanlink-main/rust-solana--gemini/solana-copy-trader/src/filter/engine.rs:1106-1142 | Any event of a run adds a buy to what a live candidate has taken exactly when it is a buy of its mint, it is not finalizing, and the buy repeats a signature taken before or is a further one in number and in time; a new admission starts with nothing. |
| LoopHistory.LogIsDeliveries | rust-solana-scanlink/rust-solana-scanlink-main/rust-solana--gemini/solana-copy-trader/src/filter/engine.rs:1106-1142 | What a candidate's entries are merged from is exactly the buy events of the run that were taken since its admission. |
| LoopHistory.EarlyBuysFaithful | rust-solana-scanlink/rust-solana-scanlink-main/rust-solana--gemini/solana-copy-trader/src/filter/engine.rs:1097-1220 | In every state of a run a candidate has one early buy for each signature among the buy events taken since its admission, within the maximum, each with the largest lamports, the instruction of the first from a feed not named "deshred" (of the first, if all are) and the first identity among the events of its signature. |
| LoopHistory.DeliveriesAreEvents | rust-solana-scanlink/rust-solana-scanlink-main/rust-solana--gemini/solana-copy-trader/src/filter/engine.rs:1106-1142 | Each of these deliveries is a buy event of the run for this mint, and the candidate has been live since. |
| LoopHistory.ActiveUntilTouched | rust-solana-scanlink/rust-solana-scanlink-main/rust-solana--gemini/solana-copy-trader/src/filter/engine.rs:533-682 | An active candidate stays exactly as it is, over any number of events, until a buy of its mint, a profile for it, or a tick. |
| LoopHistory.NextTouchDecides | rust-solana-scanlink/rust-solana-scanlink-main/rust-solana--gemini/solana-copy-trader/src/filter/engine.rs:1062-1161 | The event that touches it decides it under its own readings: it is retired if and only if a tick finds any reason or an accepted first delivery an immediate one, and finalizes if and only if the event is a profile, a first delivery or an upgrade and gate 3 triggers. |
| LoopHistory.UpgradeRejectIsForgotten | rust-solana-scanlink/rust-solana-scanlink-main/rust-solana--gemini/solana-copy-trader/src/filter/engine.rs:1113-1122 | An immediate reason that an upgrade gives retires nothing: the candidate stays active with the upgraded buy until the next event that touches it, and that event retires it if and only if a reason holds again there, and otherwise may finalize it. |
| LostReject.UpgradeRejectLostWitness | rust-solana-scanlink/rust-solana-scanlink-main/rust-solana--gemini/solana-copy-trader/src/filter/engine.rs:1113-1122 | A whole run of five events in which an upgrade gives the concentration reason and the next first delivery finalizes the candidate. |
| LoopHistory.TickSurvivors | rust-solana-scanlink/rust-solana-scanlink-main/rust-solana--gemini/solana-copy-trader/src/filter/engine.rs:643-680 | Whatever survives a tick is inside its hard deadline at that tick, or waits for its creator gate or its score with exactly that message outstanding. |
| Gate3Runs.TickRetiresIff | rust-solana-scanlink/rust-solana-scanlink-main/rust-solana--gemini/solana-copy-trader/src/filter/engine.rs:643-680 | A tick retires an active candidate exactly when one of the six conditions holds of its buys. |
| Gate3Runs.DeliveryRetiresIff | rust-solana-scanlink/rust-solana-scanlink-main/rust-solana--gemini/solana-copy-trader/src/filter/engine.rs:1135-1161 | A first delivery retires an active candidate exactly when, with it, the creator or its funder's wallets overbuy, one buyer dominates, or the list is full and short with no reason before it that can wait. |
| Gate3Runs.FinalizesOnTrigger | rust-solana-scanlink/rust-solana-scanlink-main/rust-solana--gemini/solana-copy-trader/src/filter/engine.rs:2554-2621 | In every run, a candidate finalizes only on a trigger of the path in its trace and while no reason to reject holds, under the readings of that event; so never while the creator's lamports break the configured limits. |
| Gate3Runs.SignalsKeepLimits | rust-solana-scanlink/rust-solana-scanlink-main/rust-solana--gemini/solana-copy-trader/src/filter/engine.rs:579-634 | Behind every signal the creator kept within the limits at the event that finalized the candidate, on the very buys it still holds; by the hot lists of the scoring it may be otherwise only if these block other buyers. |
| BlockedLater.SignalPastLimitsWitness | rust-solana-scanlink/rust-solana-scanlink-main/rust-solana--gemini/solana-copy-trader/src/filter/engine.rs:3291-3296 | A whole run of four events: the outsider who kept the creator within its limits is blocked before the scoring, and the signal is sent although the limits are broken by then. |
| ProfileFetches.StepCopies | rust-solana-scanlink/rust-solana-scanlink-main/rust-solana--gemini/solana-copy-trader/src/filter/engine.rs:1222-1260 | A profile fetch comes to be outstanding exactly when an accepted buy of an unmarked, unknown buyer starts it, and ceases to be exactly when its message is handled. |
| ProfileFetches.StepMarks | rust-solana-scanlink/rust-solana-scanlink-main/rust-solana--gemini/solana-copy-trader/src/filter/engine.rs:1062-1095 | The buyers a surviving candidate awaits are those whose fetch was started and for whom no message has come, of whatever admission; the profiles it knows are those it had and those a message brought. |
| ProfileFetches.FetchOrigin | rust-solana-scanlink/rust-solana-scanlink-main/rust-solana--gemini/solana-copy-trader/src/filter/engine.rs:1222-1260 | Every outstanding fetch was started, earlier in the run, by an accepted buy of its buyer for the admission it was sent for. |
| ProfileFetches.ReachesItsOwnIff | rust-solana-scanlink/rust-solana-scanlink-main/rust-solana--gemini/solana-copy-trader/src/filter/engine.rs:1062-1083 | A profile message that finds its mint live reaches the admission it was sent for if and only if the mint has been live ever since the fetch was started; otherwise it reaches a later one. |
| ProfileFetches.SingleFlight | rust-solana-scanlink/rust-solana-scanlink-main/rust-solana--gemini/solana-copy-trader/src/filter/engine.rs:1233-1240 | As long as no message of an earlier admission has reached the present one, a buyer has at most one fetch outstanding for it, and one exactly while it is marked as pending. |
| ProfileFetches.TwoFetchesIff | rust-solana-scanlink/rust-solana-scanlink-main/rust-solana--gemini/solana-copy-trader/src/filter/engine.rs:1233-1240 | An admission has two fetches of one buyer outstanding at some moment if and only if a message of an earlier admission reached it while the buyer was pending and a further buy of that buyer was accepted before the buyer's own message was handled and before any message brought a profile. |
| StaleProfile.StaleProfileWitness | rust-solana-scanlink/rust-solana-scanlink-main/rust-solana--gemini/solana-copy-trader/src/filter/engine.rs:1073-1240 | A whole run of seven events from the initial state: the mint is rejected and admitted again, the first admission's message comes back empty, and the buyer's next buy starts a second fetch for the second admission. |
| FilterLoop.Loop.constructor | rust-solana-scanlink/rust-solana-scanlink-main/rust-solana--gemini/solana-copy-trader/src/filter/engine.rs:524-533 | The loop starts empty and meets its invariant. |
| FilterLoop.Loop.HandleGate1Result | rust-solana-scanlink/rust-solana-scanlink-main/rust-solana--gemini/solana-copy-trader/src/filter/engine.rs:773-898 | Takes the fields to the state that the gate-1 handler prescribes: a duplicate mint is ignored, a reject recorded, a pass admitted, and a failed local lookup stops the loop. |
| FilterLoop.Loop.HandleCreatorGateResolution | rust-solana-scanlink/rust-solana-scanlink-main/rust-solana--gemini/solana-copy-trader/src/filter/engine.rs:969-1060 | Takes the fields to the state that the resolution handler prescribes, whatever the candidate's status. |
| FilterLoop.Loop.HandleBuyerProfileResolution | rust-solana-scanlink/rust-solana-scanlink-main/rust-solana--gemini/solana-copy-trader/src/filter/engine.rs:1062-1095 | Takes the fields to the state that the profile handler prescribes. |
| FilterLoop.Loop.HandleBuyEvent | rust-solana-scanlink/rust-solana-scanlink-main/rust-solana--gemini/solana-copy-trader/src/filter/engine.rs:1097-1161 | Takes the fields to the state that the buy handler prescribes, through merge or acceptance, fetch, evaluation and removal. |
| FilterLoop.Loop.EvaluateCandidateAfterBuy | rust-solana-scanlink/rust-solana-scanlink-main/rust-solana--gemini/solana-copy-trader/src/filter/engine.rs:1163-1191 | Finalizes the stored candidate exactly when gate 3 now triggers, and hands back a reject exactly when it is immediate, leaving the candidate in place. |
| FilterLoop.Loop.StartScoring | rust-solana-scanlink/rust-solana-scanlink-main/rust-solana--gemini/solana-copy-trader/src/filter/engine.rs:1185-1190 | Marks the candidate, records the trigger and spawns the scoring of the marked copy. |
| FilterLoop.Loop.CheckShouldFinalize | rust-solana-scanlink/rust-solana-scanlink-main/rust-solana--gemini/solana-copy-trader/src/filter/engine.rs:2554-2560 | Answers the trigger of the declared statistics, and none when a reason rejects. |
| FilterLoop.Loop.MergeBuy | rust-solana-scanlink/rust-solana-scanlink-main/rust-solana--gemini/solana-copy-trader/src/filter/engine.rs:1113-1122 | Merges into the entry of the same signature and reports exactly whether that entry changed. |
| FilterLoop.Loop.AcceptBuy | rust-solana-scanlink/rust-solana-scanlink-main/rust-solana--gemini/solana-copy-trader/src/filter/engine.rs:1135-1139 | Stores the buy and its signature and starts the fetch of its buyer. |
| FilterLoop.Loop.CollectExpired | rust-solana-scanlink/rust-solana-scanlink-main/rust-solana--gemini/solana-copy-trader/src/filter/engine.rs:644-661 | Lists exactly the active candidates that gate 3 rejects, each once. |
| FilterLoop.Loop.MaybeSpawnBuyerProfileFetch | rust-solana-scanlink/rust-solana-scanlink-main/rust-solana--gemini/solana-copy-trader/src/filter/engine.rs:1222-1260 | Spawns a fetch and marks the buyer as awaited, both or neither. |
| FilterLoop.Loop.HandleScored | rust-solana-scanlink/rust-solana-scanlink-main/rust-solana--gemini/solana-copy-trader/src/filter/engine.rs:579-634 | Takes the fields to the state that the score branch prescribes, and stops the loop when the signal cannot be sent. |
| FilterLoop.Loop.HandleTick | rust-solana-scanlink/rust-solana-scanlink-main/rust-solana--gemini/solana-copy-trader/src/filter/engine.rs:643-680 | Removes exactly the active candidates that gate 3 now rejects, each with an outcome, in the order collected. |
| FilterLoop.Loop.HandleMessage | rust-solana-scanlink/rust-solana-scanlink-main/rust-solana--gemini/solana-copy-trader/src/filter/engine.rs:556-634 | A task's message is handled as one step of the state machine and keeps the invariant. |
| Timelines.Table.InsertFilterTiming | rust-solana-scanlink/rust-solana-scanlink-main/rust-solana--gemini/solana-copy-trader/src/filter/db.rs:797-1046 | The upsert leaves the merge of the stored row and the record under the record's mint and touches no other row. |
| Timelines.Table.InsertAll | rust-solana-scanlink/rust-solana-scanlink-main/rust-solana--gemini/solana-copy-trader/src/filter/db.rs:797-1046 | Inserting a mint's records one after the other leaves their fold. |
| Timelines.FoldIsJoin | rust-solana-scanlink/rust-solana-scanlink-main/rust-solana--gemini/solana-copy-trader/src/filter/db.rs:860-1046 | Whatever was inserted, each gate time is the least known one, the key is the lexicographically greatest (rank, final time), the verdict is that of a record with this key, and the counts are the largest. |
| Timelines.VerdictGotFurthest | rust-solana-scanlink/rust-solana-scanlink-main/rust-solana--gemini/solana-copy-trader/src/filter/db.rs:797-1046 | The verdict is that of a record that got to the furthest gate any record shows (fourth, third trigger, second, first), and of the latest final time among those. |
| Timelines.FoldTag | rust-solana-scanlink/rust-solana-scanlink-main/rust-solana--gemini/solana-copy-trader/src/filter/db.rs:860-1046 | The branch tag is the first known one in order of arrival. |
| Timelines.OrderFreeButTag | rust-solana-scanlink/rust-solana-scanlink-main/rust-solana--gemini/solana-copy-trader/src/filter/db.rs:797-1046 | For any permutation of the records the row is the same up to the branch tag, as long as records that tie for the greatest key agree. |
| Timelines.DistinctKeysAgree | rust-solana-scanlink/rust-solana-scanlink-main/rust-solana--gemini/solana-copy-trader/src/filter/db.rs:797-1046 | Records with pairwise distinct keys meet that condition. |
| Timelines.OrderFreeIff | rust-solana-scanlink/rust-solana-scanlink-main/rust-solana--gemini/solana-copy-trader/src/filter/db.rs:797-1046 | The whole row is independent of arrival order if and only if the records tied at the top agree and no two known branch tags differ. |
| AddressSnapshots.Table.UpsertAddressSnapshot | rust-solana-scanlink/rust-solana-scanlink-main/rust-solana--gemini/solana-copy-trader/src/filter/db.rs:491-519 | The upsert leaves the column-by-column merge of the stored row and the record under the record's address and touches no other row. |
| AddressSnapshots.Table.UpsertAll | rust-solana-scanlink/rust-solana-scanlink-main/rust-solana--gemini/solana-copy-trader/src/filter/db.rs:491-519 | Upserting an address's records one after the other leaves their fold. |
| AddressSnapshots.FoldMeaning | rust-solana-scanlink/rust-solana-scanlink-main/rust-solana--gemini/solana-copy-trader/src/filter/db.rs:498-506 | Whatever was upserted, the oldest time is the least known one or 0, the age and fetch time are the greatest, the funder is the first known one, and the source is the last one. |
| AddressSnapshots.OrderFreeButOrigin | rust-solana-scanlink/rust-solana-scanlink-main/rust-solana--gemini/solana-copy-trader/src/filter/db.rs:491-519 | For any permutation of the records the row is the same up to its funder and its source. |
| AddressSnapshots.OrderFreeIff | rust-solana-scanlink/rust-solana-scanlink-main/rust-solana--gemini/solana-copy-trader/src/filter/db.rs:491-519 | The whole row is independent of arrival order if and only if no two known funders and no two sources differ. |
| FilterResults.Table.InsertFilterResult | rust-solana-scanlink/rust-solana-scanlink-main/rust-solana--gemini/solana-copy-trader/src/filter/db.rs:528-769 | The upsert leaves the merge of stored row and record, touches no other row, and never replaces a pass by a reject. |
| FilterResults.FoldLeader | rust-solana-scanlink/rust-solana-scanlink-main/rust-solana--gemini/solana-copy-trader/src/filter/db.rs:528-769 | For every list of records all non-time fields come from one of them, the last of the highest rank that is the first such or at least as late as everything before it; the time is the latest of all. |
| FilterResults.RankIsHighest | rust-solana-scanlink/rust-solana-scanlink-main/rust-solana--gemini/solana-copy-trader/src/filter/db.rs:528-769 | The stored rank is the highest ever inserted; a pass stays a pass. |
| FilterResults.RowGotFurthest | rust-solana-scanlink/rust-solana-scanlink-main/rust-solana--gemini/solana-copy-trader/src/filter/db.rs:529-660 | The row is a pass if any record is, and otherwise rejected at the latest gate any record was rejected at. |
| FilterResults.LastTopHeldIff | rust-solana-scanlink/rust-solana-scanlink-main/rust-solana--gemini/solana-copy-trader/src/filter/db.rs:528-769 | The row holds the last record of the highest rank if it is the only one of its rank or no earlier record was later, and only then when the records of that rank differ. |
| FilterResults.TimeOrderedHoldsLastTop | rust-solana-scanlink/rust-solana-scanlink-main/rust-solana--gemini/solana-copy-trader/src/filter/db.rs:528-769 | For records in time order the row holds the last record of the highest rank and the last record's time. |
| FilterResults.LeaderContends | rust-solana-scanlink/rust-solana-scanlink-main/rust-solana--gemini/solana-copy-trader/src/filter/db.rs:528-769 | Whatever the order, the record held is of the highest rank and, if one of that rank is the latest of all, such a one. |
| FilterResults.ContenderCanLead | rust-solana-scanlink/rust-solana-scanlink-main/rust-solana--gemini/solana-copy-trader/src/filter/db.rs:528-769 | Each record of that description is the one held for some order of arrival. |
| FilterResults.OrderFreeIff | rust-solana-scanlink/rust-solana-scanlink-main/rust-solana--gemini/solana-copy-trader/src/filter/db.rs:528-769 | The row is independent of arrival order if and only if all those records have the same fields. |
| FilterResults.OrderDependenceWitness | rust-solana-scanlink/rust-solana-scanlink-main/rust-solana--gemini/solana-copy-trader/src/filter/db.rs:528-769 | Three concrete records whose row depends on the order in which they arrive. |
| Consensus.Engine.SubmitSignal | rust-solana-scanlink/rust-solana-scanlink-main/rust-solana--gemini/solana-copy-trader/src/consensus/engine.rs:56-134 | Takes the window to the next state of the specification and reports a trigger exactly when the specification emits one. |
| Consensus.Engine.RevokeSignal | rust-solana-scanlink/rust-solana-scanlink-main/rust-solana--gemini/solana-copy-trader/src/consensus/engine.rs:136-153 | Removes the wallet's signals from an untriggered entry only, and returns whether anything was removed. |
| Consensus.Engine.CleanEntry | rust-solana-scanlink/rust-solana-scanlink-main/rust-solana--gemini/solana-copy-trader/src/consensus/engine.rs:161-176 | The cleanup's section for one entry takes the window to the next state of the specification; its clock reading may be older than the sections before it. |
| Consensus.Engine.CleanupRound | rust-solana-scanlink/rust-solana-scanlink-main/rust-solana--gemini/solana-copy-trader/src/consensus/engine.rs:155-179 | A round that nothing interrupts leaves exactly the entries that have a fresh signal, each with its fresh signals; interrupted rounds are sequences of sections. |
| Consensus.CleanupDropsIff | rust-solana-scanlink/rust-solana-scanlink-main/rust-solana--gemini/solana-copy-trader/src/consensus/engine.rs:161-176 | A cleanup drops an entry if and only if every signal is at least one timeout old, triggered or not. |
| Consensus.SubmitOk | rust-solana-scanlink/rust-solana-scanlink-main/rust-solana--gemini/solana-copy-trader/src/consensus/engine.rs:67-133 | Submitting keeps wallets distinct and an untriggered entry short of its quorum. |
| Consensus.StepOk | rust-solana-scanlink/rust-solana-scanlink-main/rust-solana--gemini/solana-copy-trader/src/consensus/engine.rs:56-179 | Every submit, revoke and cleanup keeps the same for every entry. |
| Consensus.EntryTerms | rust-solana-scanlink/rust-solana-scanlink-main/rust-solana--gemini/solana-copy-trader/src/consensus/engine.rs:67-72 | In every run an entry keeps the minimum and the timeout of the signal whose submission made it, the timeout in whole seconds and at least one, whatever later signals ask. |
| Consensus.SubmissionTriggersIff | rust-solana-scanlink/rust-solana-scanlink-main/rust-solana--gemini/solana-copy-trader/src/consensus/engine.rs:67-133 | A submission triggers if and only if the key has not triggered, its wallet is not among those of the fresh signals, and with it these are as many as the entry asks; a key without an entry triggers at once exactly if this signal asks for at most one. |
| Consensus.WindowStands | rust-solana-scanlink/rust-solana-scanlink-main/rust-solana--gemini/solana-copy-trader/src/consensus/engine.rs:56-179 | Every signal in the window was submitted earlier in the run and its wallet has not been revoked since. |
| Consensus.TriggerIsQuorum | rust-solana-scanlink/rust-solana-scanlink-main/rust-solana--gemini/solana-copy-trader/src/consensus/engine.rs:67-133 | Every trigger carries exactly as many wallets as the signal that made the entry asked for, and at least one; they are distinct, none revoked since it was submitted, and each but the new one was detected less than that signal's timeout before. |
| Consensus.TriggeredUntilDropped | rust-solana-scanlink/rust-solana-scanlink-main/rust-solana--gemini/solana-copy-trader/src/consensus/engine.rs:161-176 | From its trigger on an entry stays triggered until a cleanup of it finds all the trigger's signals aged, whatever runs in between. |
| Consensus.SubmittedAfterDrop | rust-solana-scanlink/rust-solana-scanlink-main/rust-solana--gemini/solana-copy-trader/src/consensus/engine.rs:67-72 | Once an entry was dropped, whatever is in the window later was submitted later. |
| Consensus.SecondTriggerNeedsNewWindow | rust-solana-scanlink/rust-solana-scanlink-main/rust-solana--gemini/solana-copy-trader/src/consensus/engine.rs:56-179 | For one group and token, between two triggers lies a cleanup of that entry by which all signals of the first were as old as the timeout of the signal that made the entry, and all signals of the second were submitted after it; entries are locked one by one and readings may be stale. |
| Failover.FailoverController.MaxFeed | rust-solana-scanlink/rust-solana-scanlink-main/rust-solana--gemini/solana-copy-trader/src/scanner/failover.rs:269-279 | Whatever the order in which the map lists the feeds, the loop returns the feed of the kind that outranks all others, or none if there is none. |
| Failover.FailoverController.RecomputePreferred | rust-solana-scanlink/rust-solana-scanlink-main/rust-solana--gemini/solana-copy-trader/src/scanner/failover.rs:258-297 | The kind's preference becomes that feed, the other kind's stays, and a change is reported exactly when the preference changed. |
| Failover.FailoverController.ObserveHealth | rust-solana-scanlink/rust-solana-scanlink-main/rust-solana--gemini/solana-copy-trader/src/scanner/failover.rs:170-194 | A health event creates or rewrites the feed, keeps its hit history, and re-elects for its kind. |
| Failover.FailoverController.ObserveFirstHit | rust-solana-scanlink/rust-solana-scanlink-main/rust-solana--gemini/solana-copy-trader/src/scanner/failover.rs:196-208 | A hit of an unknown label changes nothing; of a known one it counts, stops at 64 bits, and re-elects for the feed's kind. |
| Failover.BelowTotal | rust-solana-scanlink/rust-solana-scanlink-main/rust-solana--gemini/solana-copy-trader/src/scanner/failover.rs:273-278 | Any two feeds under different labels are ranked one below the other. |
| Failover.RanksByWorth | rust-solana-scanlink/rust-solana-scanlink-main/rust-solana--gemini/solana-copy-trader/src/scanner/failover.rs:84-123 | What decides between two feeds, counted in first hits: ready 60 over closed, connecting 50, unknown 30, disconnected 10; 25 for being fresh and 15 for being half stale; hits up to a hundred; then the last hit, then the label. |
| Failover.StatusDecides | rust-solana-scanlink/rust-solana-scanlink-main/rust-solana--gemini/solana-copy-trader/src/scanner/failover.rs:84-90 | With as many hits and heard of as recently, the better status ranks above: ready, connecting, unknown, disconnected, closed. |
| Failover.FeedIsItsHistory | rust-solana-scanlink/rust-solana-scanlink-main/rust-solana--gemini/solana-copy-trader/src/scanner/failover.rs:170-208 | In every run a feed's kind, status and report time are those of its latest health event, and its hits and last hit those reported since it was first known. |
| Failover.DeadFeedsYield | rust-solana-scanlink/rust-solana-scanlink-main/rust-solana--gemini/solana-copy-trader/src/scanner/failover.rs:258-297 | In every run, whenever a kind is elected, a feed last reported disconnected or closed is not preferred while one last reported ready has had as many hits and was heard of as recently. |
| Failover.PickUnique | rust-solana-scanlink/rust-solana-scanlink-main/rust-solana--gemini/solana-copy-trader/src/scanner/failover.rs:269-279 | The choice is unique. |
| Failover.StepDeterministic | rust-solana-scanlink/rust-solana-scanlink-main/rust-solana--gemini/solana-copy-trader/src/scanner/failover.rs:170-208 | An observation has one possible outcome, though the map's order is arbitrary. |
| Failover.FirstHitKeepsLeader | rust-solana-scanlink/rust-solana-scanlink-main/rust-solana--gemini/solana-copy-trader/src/scanner/failover.rs:107-123 | With a clock that does not run backwards, a first hit by the leading feed never dethrones it. |
| Failover.LatestElectionStands | rust-solana-scanlink/rust-solana-scanlink-main/rust-solana--gemini/solana-copy-trader/src/scanner/failover.rs:170-208 | In every run, from the latest observation that elects for a kind on, its preference is that observation's choice, and it stays the top feed as of that observation's time if and only if no health event has reported the preferred feed since. |
| Failover.OtherPreferenceBreaksIff | rust-solana-scanlink/rust-solana-scanlink-main/rust-solana--gemini/solana-copy-trader/src/scanner/failover.rs:188-193 | A health event leaves the other kind naming a feed that is no longer of that kind if and only if it re-labels that kind's preferred feed. |
| Failover.ReplayIsPreferred | rust-solana-scanlink/rust-solana-scanlink-main/rust-solana--gemini/solana-copy-trader/src/scanner/failover.rs:286-296 | Replaying the reported changes gives the current preference of each kind at every moment of a run. |
| Failover.ChangesFormAChain | rust-solana-scanlink/rust-solana-scanlink-main/rust-solana--gemini/solana-copy-trader/src/scanner/failover.rs:286-296 | Each reported change starts where the log before it ended and goes somewhere else. |
| Failover.FixedKindsAgree | rust-solana-scanlink/rust-solana-scanlink-main/rust-solana--gemini/solana-copy-trader/src/scanner/failover.rs:170-208 | In a run in which no label is reported under two kinds, each preference names a feed of its kind, and is empty only if there is none. |
| Failover.SwitchedKindWitness | rust-solana-scanlink/rust-solana-scanlink-main/rust-solana--gemini/solana-copy-trader/src/scanner/failover.rs:188-193 | Two health events that report one label under both kinds leave it preferred for both. |
| Quotes.MachineQuotesExact | rust-solana-scanlink/rust-solana-scanlink-main/rust-solana--gemini/solana-copy-trader/src/processor/pumpfun.rs:121-140 | No intermediate value overflows 128 bits and the narrowing to 64 bits loses nothing, for all 64-bit inputs. |
| Quotes.QuoteWithinReserve | rust-solana-scanlink/rust-solana-scanlink-main/rust-solana--gemini/solana-copy-trader/src/processor/pumpfun.rs:121-140 | A quote never exceeds the reserve it is taken from and never empties it. |
| Quotes.ProductNeverFalls | rust-solana-scanlink/rust-solana-scanlink-main/rust-solana--gemini/solana-copy-trader/src/processor/pumpfun.rs:121-140 | Over any sequence of buys and sells the product of the virtual reserves never decreases. |
| Quotes.TradesConserve | rust-solana-scanlink/rust-solana-scanlink-main/rust-solana--gemini/solana-copy-trader/src/processor/pumpfun.rs:121-140 | Over any sequence of buys and sells, what the traders gain in SOL and in tokens is what the curve loses. |
| Quotes.NothingForNothing | rust-solana-scanlink/rust-solana-scanlink-main/rust-solana--gemini/solana-copy-trader/src/processor/pumpfun.rs:121-140 | No sequence of trades takes out one side without leaving some of the other. |
| Quotes.SplitNeverHelps | rust-solana-scanlink/rust-solana-scanlink-main/rust-solana--gemini/solana-copy-trader/src/processor/pumpfun.rs:121-140 | On a non-empty SOL reserve, any number of partial buys yields no more tokens than one buy of the total. |
| Quotes.SplitSafeIff | rust-solana-scanlink/rust-solana-scanlink-main/rust-solana--gemini/solana-copy-trader/src/processor/pumpfun.rs:121-130 | Two buys never beat one, for all sizes, if and only if the SOL reserve is not empty or at most one token is to be had: the guard for an empty reserve breaks the law otherwise. |
| Quotes.SellBackNeverProfits | rust-solana-scanlink/rust-solana-scanlink-main/rust-solana--gemini/solana-copy-trader/src/processor/pumpfun.rs:121-140 | Selling straight back what was bought never returns more SOL than was paid. |
| Quotes.QuoteMonotone | rust-solana-scanlink/rust-solana-scanlink-main/rust-solana--gemini/solana-copy-trader/src/processor/pumpfun.rs:121-140 | Paying more never buys less. |
| Refresh.Shared.constructor | rust-solana-scanlink/rust-solana-scanlink-main/rust-solana--gemini/solana-copy-trader/src/filter/engine.rs:485-487 | At least one permit is free and nothing is in flight. |
| Refresh.Shared.ReadCooldown | rust-solana-scanlink/rust-solana-scanlink-main/rust-solana--gemini/solana-copy-trader/src/filter/engine.rs:2266-2269 | The caller returns during a cooldown and goes on otherwise. |
| Refresh.Shared.ReadInflight | rust-solana-scanlink/rust-solana-scanlink-main/rust-solana--gemini/solana-copy-trader/src/filter/engine.rs:2271-2276 | The caller returns when the creator is in flight. |
| Refresh.Shared.AcquirePermit | rust-solana-scanlink/rust-solana-scanlink-main/rust-solana--gemini/solana-copy-trader/src/filter/engine.rs:2278-2285 | The caller takes a free permit or is refused, without waiting. |
| Refresh.Shared.InsertInflight | rust-solana-scanlink/rust-solana-scanlink-main/rust-solana--gemini/solana-copy-trader/src/filter/engine.rs:2287-2309 | The caller that inserts the creator spawns the task with its permit; the caller that finds it there returns its permit and leaves everything else as it was. |
| Refresh.Shared.ClearInflight | rust-solana-scanlink/rust-solana-scanlink-main/rust-solana--gemini/solana-copy-trader/src/filter/engine.rs:2253-2256 | Removes the task's creator from the in-flight set. |
| Refresh.NextKeepsInv | rust-solana-scanlink/rust-solana-scanlink-main/rust-solana--gemini/solana-copy-trader/src/filter/engine.rs:2258-2358 | Every uninterrupted section of every caller and task keeps the correspondence of permits, in-flight entries and uncleared refreshes. |
| Refresh.PermitsAndFlightsBounded | rust-solana-scanlink/rust-solana-scanlink-main/rust-solana--gemini/solana-copy-trader/src/filter/engine.rs:2258-2358 | In every state of every interleaving: free plus held permits are the capacity, creators in flight are no more than held permits, and no creator has two uncleared refreshes. |
| Refresh.OnlyTheOwnerClears | rust-solana-scanlink/rust-solana-scanlink-main/rust-solana--gemini/solana-copy-trader/src/filter/engine.rs:2312-2358 | A task that clears an entry finds it there, and no other uncleared refresh of that creator exists. |
| Refresh.CooldownSteps | rust-solana-scanlink/rust-solana-scanlink-main/rust-solana--gemini/solana-copy-trader/src/filter/engine.rs:2233-2251 | Only the settling of a refresh of the creator, or a refused caller of it, changes whether its cooldown runs: failure and refusal set it, success clears it. |
| Refresh.Shared.SetRetryAfter | rust-solana-scanlink/rust-solana-scanlink-main/rust-solana--gemini/solana-copy-trader/src/filter/engine.rs:1814-1820 | A caller that is refused a permit and has no cached profile sets the creator's cooldown. |
| Refresh.Shared.SettleRefresh | rust-solana-scanlink/rust-solana-scanlink-main/rust-solana--gemini/solana-copy-trader/src/filter/engine.rs:2327-2346 | A refresh that succeeds clears its creator's cooldown, one that fails sets it, up to the largest 64-bit time. |
| Refresh.StartsWhileCoolingIff | rust-solana-scanlink/rust-solana-scanlink-main/rust-solana--gemini/solana-copy-trader/src/filter/engine.rs:2258-2345 | A refresh starts while a cooldown of its creator runs if and only if the last refresh settled or refused for the creator set one that is not over, and did so after the starting caller had read that there was none. |
| Refresh.StartsWhileCoolingWitness | rust-solana-scanlink/rust-solana-scanlink-main/rust-solana--gemini/solana-copy-trader/src/filter/engine.rs:2258-2345 | A whole interleaving of thirteen sections in which the second caller reads no cooldown, the first refresh then fails, and the second refresh starts with the cooldown running. |
| Refresh.LostRaceReturnsPermit | rust-solana-scanlink/rust-solana-scanlink-main/rust-solana--gemini/solana-copy-trader/src/filter/engine.rs:2278-2292 | Losing the insert race after taking a permit gives the permit back and changes nothing else. |
| Position.TrackedPosition.constructor | rust-solana-scanlink/rust-solana-scanlink-main/rust-solana--gemini/solana-copy-trader/src/autosell/position.rs:100-128 | A new position is pending, holds no tokens, and has one price for entry, peak and current. |
| Position.TrackedPosition.Submit | rust-solana-scanlink/rust-solana-scanlink-main/rust-solana--gemini/solana-copy-trader/src/autosell/position.rs:152-169 | Let through from Pending only. |
| Position.TrackedPosition.Confirm | rust-solana-scanlink/rust-solana-scanlink-main/rust-solana--gemini/solana-copy-trader/src/autosell/position.rs:172-182 | Let through from Submitted only. |
| Position.TrackedPosition.Activate | rust-solana-scanlink/rust-solana-scanlink-main/rust-solana--gemini/solana-copy-trader/src/autosell/position.rs:188-218 | Confirmation from Submitted or Confirming sets the tokens and, for a nonzero amount, one cost price for entry, peak and current. |
| Position.TrackedPosition.Sell | rust-solana-scanlink/rust-solana-scanlink-main/rust-solana--gemini/solana-copy-trader/src/autosell/position.rs:221-236 | A sale is let through from Active, Confirming or Submitted only, and is counted. |
| Position.TrackedPosition.Close | rust-solana-scanlink/rust-solana-scanlink-main/rust-solana--gemini/solana-copy-trader/src/autosell/position.rs:239-253 | Closing is let through from Selling only. |
| Position.TrackedPosition.SellPart | rust-solana-scanlink/rust-solana-scanlink-main/rust-solana--gemini/solana-copy-trader/src/autosell/position.rs:287-294 | A partial sale of a positive amount up to what is held is let through in any state and ends in Active. |
| Position.TrackedPosition.Revert | rust-solana-scanlink/rust-solana-scanlink-main/rust-solana--gemini/solana-copy-trader/src/autosell/position.rs:269-280 | Let through from Selling only. |
| Position.TrackedPosition.Restore | rust-solana-scanlink/rust-solana-scanlink-main/rust-solana--gemini/solana-copy-trader/src/autosell/position.rs:282-285 | Puts the position into the given state whatever its own. |
| Position.TrackedPosition.Fail | rust-solana-scanlink/rust-solana-scanlink-main/rust-solana--gemini/solana-copy-trader/src/autosell/position.rs:256-266 | Fails the position from any state. |
| Position.TrackedPosition.SetTokenEstimate | rust-solana-scanlink/rust-solana-scanlink-main/rust-solana--gemini/solana-copy-trader/src/autosell/position.rs:141-145 | An estimate is taken only by a position without tokens. |
| Position.TrackedPosition.SetPrice | rust-solana-scanlink/rust-solana-scanlink-main/rust-solana--gemini/solana-copy-trader/src/autosell/position.rs:301-309 | Moves current price and peak, and reports whether the peak rose. |
| Position.HighestCoversCurrent | rust-solana-scanlink/rust-solana-scanlink-main/rust-solana--gemini/solana-copy-trader/src/autosell/position.rs:188-309 | After every sequence of operations the peak is at least the current price. |
| Position.AttemptsCountSales | rust-solana-scanlink/rust-solana-scanlink-main/rust-solana--gemini/solana-copy-trader/src/autosell/position.rs:221-236 | After every sequence of operations the attempt counter is the number of sales let through. |
| Position.SalesAreSeparated | rust-solana-scanlink/rust-solana-scanlink-main/rust-solana--gemini/solana-copy-trader/src/autosell/position.rs:221-294 | Between two sales let through the position leaves Selling. |
| Position.TokensConserved | rust-solana-scanlink/rust-solana-scanlink-main/rust-solana--gemini/solana-copy-trader/src/autosell/position.rs:141-145 | Tokens held plus partial sales let through since the last activation or estimate are what was credited then. |
| Position.FollowsLifeCycleIff | rust-solana-scanlink/rust-solana-scanlink-main/rust-solana--gemini/solana-copy-trader/src/autosell/position.rs:8-13 | A run keeps to the documented edges throughout if and only if none of its calls is an activation or sale from Submitted, a restore to one of the listed stages, or a partial sale let through from Pending, Submitted, Closed or Failed. |
| Position.ClosedStaysIff | rust-solana-scanlink/rust-solana-scanlink-main/rust-solana--gemini/solana-copy-trader/src/autosell/position.rs:282-294 | A closed position stays closed over a whole sequence of operations if and only if the sequence has no failure, no restore to another stage, and no partial sale within the tokens it closed with or was re-estimated at since. |
| Position.ClosedRevivedWitness | rust-solana-scanlink/rust-solana-scanlink-main/rust-solana--gemini/solana-copy-trader/src/autosell/position.rs:287-294 | A concrete bought, sold and closed position that a partial sale makes active again. |
| Position.ExitAtPriceLevels | rust-solana-scanlink/rust-solana-scanlink-main/rust-solana--gemini/solana-copy-trader/src/autosell/manager.rs:452-509 | An active position with a known cost is sold exactly at the price levels its group's percentages mean, the loss level first, then profit, then trailing. |
| Position.LifetimeIff | rust-solana-scanlink/rust-solana-scanlink-main/rust-solana--gemini/solana-copy-trader/src/autosell/manager.rs:452-466 | Age sells exactly the active and confirming positions that have reached a limit their group sets, whatever their cost; nothing else sells one that follows the target. |
| Position.ExitsAreSellable | rust-solana-scanlink/rust-solana-scanlink-main/rust-solana--gemini/solana-copy-trader/src/autosell/manager.rs:452-509 | Every exit signal is for a position in a state from which a sale is let through. |
| Position.TrailingStopLocksProfit | rust-solana-scanlink/rust-solana-scanlink-main/rust-solana--gemini/solana-copy-trader/src/autosell/manager.rs:493-506 | A trailing stop implies 0 < entry < current < peak and a profit short of the target. |
| Position.FreePositionOnlyExpires | rust-solana-scanlink/rust-solana-scanlink-main/rust-solana--gemini/solana-copy-trader/src/autosell/manager.rs:452-509 | A position without a cost is sold by age only, when its thresholds are positive. |
| Position.TrackedPosition.SetEntryPrice | rust-solana-scanlink/rust-solana-scanlink-main/rust-solana--gemini/solana-copy-trader/src/autosell/manager.rs:81-86 | Corrects the entry price; the peak never falls. |
| Position.Dispatch | rust-solana-scanlink/rust-solana-scanlink-main/rust-solana--gemini/solana-copy-trader/src/autosell/manager.rs:58-129 | Every operation has the effect and the answer of the position's own method. |
| Position.Manager.AddPosition | rust-solana-scanlink/rust-solana-scanlink-main/rust-solana--gemini/solana-copy-trader/src/autosell/manager.rs:45-56 | Takes a prepared position over under its own group and mint; the others stay the same objects, and the map of positions is that of the calls so far. |
| Position.Manager.Update | rust-solana-scanlink/rust-solana-scanlink-main/rust-solana--gemini/solana-copy-trader/src/autosell/manager.rs:58-129 | Runs the position's own method in place: no other position changes, the answer is whether the key is known and the stage allowed it, and the map of positions is that of the calls so far. |
| Position.Manager.GetPosition | rust-solana-scanlink/rust-solana-scanlink-main/rust-solana--gemini/solana-copy-trader/src/autosell/manager.rs:131-133 | A managed position is the outcome of its own history, with its peak at least its current price and its attempts the sales let through. |
| Position.PositionsLiveApart | rust-solana-scanlink/rust-solana-scanlink-main/rust-solana--gemini/solana-copy-trader/src/autosell/manager.rs:45-129 | After any calls each managed position is the outcome of its own operations alone, under its own key. |
| Position.ManagedPositionsSound | rust-solana-scanlink/rust-solana-scanlink-main/rust-solana--gemini/solana-copy-trader/src/autosell/manager.rs:45-129 | So peak and attempt counter are right for every managed position. |
| Groups.ConfigRoundTrip | rust-solana-scanlink/rust-solana-scanlink-main/rust-solana--gemini/solana-copy-trader/src/groups.rs:36-86 | A group made from application settings gives those settings back. |
| Groups.GroupRoundTrip | rust-solana-scanlink/rust-solana-scanlink-main/rust-solana--gemini/solana-copy-trader/src/groups.rs:117-168 | A group survives being written and read field by field. |
| Groups.RecordKeptIff | rust-solana-scanlink/rust-solana-scanlink-main/rust-solana--gemini/solana-copy-trader/src/groups.rs:140-147 | A stored record is kept if and only if every one of its wallets parses. |
| Groups.ReadableMembers | rust-solana-scanlink/rust-solana-scanlink-main/rust-solana--gemini/solana-copy-trader/src/groups.rs:189-193 | The groups read are exactly those that some record holds. |
| Groups.NextGroupId | rust-solana-scanlink/rust-solana-scanlink-main/rust-solana--gemini/solana-copy-trader/src/groups.rs:379-387 | The id is that of the number after the largest one in use. |
| Groups.NextIdTakenIff | rust-solana-scanlink/rust-solana-scanlink-main/rust-solana--gemini/solana-copy-trader/src/groups.rs:379-387 | The new id is taken already if and only if the largest number is the largest 64-bit one and `g0` exists. |
| Groups.LoadMeetsInv | rust-solana-scanlink/rust-solana-scanlink-main/rust-solana--gemini/solana-copy-trader/src/groups.rs:178-233 | Any file, or none, starts a manager with at least one group, a selected group that exists, and each group under its own id. |
| Groups.FirstStart | rust-solana-scanlink/rust-solana-scanlink-main/rust-solana--gemini/solana-copy-trader/src/groups.rs:178-233 | Without a readable group there is exactly one, with the configured settings, enabled and selected; blocked mints are kept. |
| Groups.SaveLoadRoundTrip | rust-solana-scanlink/rust-solana-scanlink-main/rust-solana--gemini/solana-copy-trader/src/groups.rs:178-233 | Loading what was saved gives the same groups, selection and blocked mints. |
| Groups.StepKeepsInv | rust-solana-scanlink/rust-solana-scanlink-main/rust-solana--gemini/solana-copy-trader/src/groups.rs:277-373 | Every mutator keeps the groups nonempty, the selection present and the keys equal to the ids. |
| Groups.AddOverwritesIff | rust-solana-scanlink/rust-solana-scanlink-main/rust-solana--gemini/solana-copy-trader/src/groups.rs:291-302 | Adding a group changes an existing one if and only if the numbers have run out and `g0` exists; the new group is selected. |
| Groups.AddOverwritesWitness | rust-solana-scanlink/rust-solana-scanlink-main/rust-solana--gemini/solana-copy-trader/src/groups.rs:291-302 | Started from a file with `g0` and `g18446744073709551615`, adding a group replaces `g0`. |
| Groups.RemoveUndoesAddIff | rust-solana-scanlink/rust-solana-scanlink-main/rust-solana--gemini/solana-copy-trader/src/groups.rs:332-359 | Removing a wallet undoes adding it if and only if the group did not have it. |
| Groups.RunSound | rust-solana-scanlink/rust-solana-scanlink-main/rust-solana--gemini/solana-copy-trader/src/groups.rs:177-408 | In every run with restarts the invariant holds and the file is the saved state or the one first loaded. |
| Groups.RestartChangesNothing | rust-solana-scanlink/rust-solana-scanlink-main/rust-solana--gemini/solana-copy-trader/src/groups.rs:178-233 | A restart at any moment of any run loses nothing. |
| Groups.GroupManager.LoadOrDefault | rust-solana-scanlink/rust-solana-scanlink-main/rust-solana--gemini/solana-copy-trader/src/groups.rs:178-233 | Reads what can be read, falls back to one default group, and selects a group that exists. |
| Groups.GroupManager.AllGroups | rust-solana-scanlink/rust-solana-scanlink-main/rust-solana--gemini/solana-copy-trader/src/groups.rs:235-243 | Every group exactly once, ascending by id. |
| Groups.GroupManager.Save | rust-solana-scanlink/rust-solana-scanlink-main/rust-solana--gemini/solana-copy-trader/src/groups.rs:389-408 | The file then holds exactly the manager's state. |
| Groups.GroupManager.SetSelectedGroup | rust-solana-scanlink/rust-solana-scanlink-main/rust-solana--gemini/solana-copy-trader/src/groups.rs:277-284 | Selects an existing group; an unknown id changes neither state nor file. |
| Groups.GroupManager.AddGroup | rust-solana-scanlink/rust-solana-scanlink-main/rust-solana--gemini/solana-copy-trader/src/groups.rs:291-302 | Adds and selects a group without wallets, and saves. |
| Groups.GroupManager.DeleteGroup | rust-solana-scanlink/rust-solana-scanlink-main/rust-solana--gemini/solana-copy-trader/src/groups.rs:304-320 | Deletes an existing group that is not the last; if it was selected the least remaining id is. |
| Groups.GroupManager.ReplaceGroup | rust-solana-scanlink/rust-solana-scanlink-main/rust-solana--gemini/solana-copy-trader/src/groups.rs:286-289 | Stores the group under its own id, and saves. |
| Groups.GroupManager.SetGroupEnabled | rust-solana-scanlink/rust-solana-scanlink-main/rust-solana--gemini/solana-copy-trader/src/groups.rs:322-330 | Changes the flag of an existing group only, and saves. |
| Groups.GroupManager.BlockToken | rust-solana-scanlink/rust-solana-scanlink-main/rust-solana--gemini/solana-copy-trader/src/groups.rs:365-368 | Adds the mint to the blocklist, and saves. |
| Groups.GroupManager.UnblockToken | rust-solana-scanlink/rust-solana-scanlink-main/rust-solana--gemini/solana-copy-trader/src/groups.rs:370-373 | Removes the mint from the blocklist, and saves. |
| Groups.GroupManager.AddWallet | rust-solana-scanlink/rust-solana-scanlink-main/rust-solana--gemini/solana-copy-trader/src/groups.rs:332-344 | Adds the wallet once. |
| Groups.GroupManager.RemoveWallet | rust-solana-scanlink/rust-solana-scanlink-main/rust-solana--gemini/solana-copy-trader/src/groups.rs:346-359 | Removes the first occurrence, or fails without effect when group or wallet is unknown. |
| Codec.LeRoundTrip | rust-solana-scanlink/rust-solana-scanlink-main/rust-solana--gemini/solana-copy-trader/src/processor/pumpfun.rs:340-343 | A number that fits a width is read back from its little-endian bytes. |
| Codec.LeCanonical | rust-solana-scanlink/rust-solana-scanlink-main/rust-solana--gemini/solana-copy-trader/src/processor/pumpfun.rs:901-906 | Any bytes are the little-endian form of the number read from them. |
| Codec.LeByte | rust-solana-scanlink/rust-solana-scanlink-main/rust-solana--gemini/solana-copy-trader/src/processor/pumpfun.rs:340-343 | The least significant byte comes first. |
| Codec.BuildBuyData | rust-solana-scanlink/rust-solana-scanlink-main/rust-solana--gemini/solana-copy-trader/src/processor/pumpfun.rs:340-343 | The buffer has 24 bytes and begins with the discriminator, and for 64-bit amounts a reader of target buys gets both back, or its refusal of a zero. |
| Codec.BuyRoundTrip | rust-solana-scanlink/rust-solana-scanlink-main/rust-solana--gemini/solana-copy-trader/src/processor/pumpfun.rs:896-910 | For all 64-bit pairs the target reader returns what the trader wrote, with anything behind it, and refuses exactly the pairs with a zero. |
| Codec.BuyDataInjective | rust-solana-scanlink/rust-solana-scanlink-main/rust-solana--gemini/solana-copy-trader/src/processor/pumpfun.rs:340-343 | Equal data, equal amounts. |
| Codec.ReadBuyIsCanonical | rust-solana-scanlink/rust-solana-scanlink-main/rust-solana--gemini/solana-copy-trader/src/processor/pumpfun.rs:896-910 | Data the reader accepts is the encoding of what it read, up to discriminator and trailing bytes. |
| Codec.DecodedBuyCost | rust-solana-scanlink/rust-solana-scanlink-main/rust-solana--gemini/solana-copy-trader/src/scanner/decoder.rs:445-475 | Without metadata the scanner reports the written cost, or 0 when it is over the cap. |
| Codec.CompleteBuyDecodesIff | rust-solana-scanlink/rust-solana-scanlink-main/rust-solana--gemini/solana-copy-trader/src/scanner/decoder.rs:445-490 | With a complete account table a buy decodes if and only if it has 24 bytes and nine accounts, and its parties are the second, sixth and eighth of its accounts counted from zero. |
| Codec.PaidCost | rust-solana-scanlink/rust-solana-scanlink-main/rust-solana--gemini/solana-copy-trader/src/scanner/decoder.rs:613-647 | With balances the cost is what the buyer's balance fell by, without the fee for the paying account; only if it did not fall the written cost counts, up to 50 SOL. |
| Codec.AccountsAlignIff | rust-solana-scanlink/rust-solana-scanlink-main/rust-solana--gemini/solana-copy-trader/src/scanner/decoder.rs:509-514 | The account list lines up with the indices if and only if every index is in the table. |
| Codec.BuildAccountKeys | rust-solana-scanlink/rust-solana-scanlink-main/rust-solana--gemini/solana-copy-trader/src/scanner/decoder.rs:516-546 | The table is the well-formed static, writable and read-only keys, in this order. |
| Codec.KeysKeepTheirPlacesIff | rust-solana-scanlink/rust-solana-scanlink-main/rust-solana--gemini/solana-copy-trader/src/scanner/decoder.rs:521-532 | Every raw key keeps its place if and only if all are 32 bytes long. |
| Codec.Cursor.TakeString | rust-solana-scanlink/rust-solana-scanlink-main/rust-solana--gemini/solana-copy-trader/src/scanner/decoder.rs:548-560 | Reads one length-prefixed string; the offset never passes the end and a failure moves it by the prefix at most. |
| Codec.Cursor.TakePubkey | rust-solana-scanlink/rust-solana-scanlink-main/rust-solana--gemini/solana-copy-trader/src/scanner/decoder.rs:562-569 | Reads 32 bytes or leaves the offset. |
| Codec.StringRoundTrip | rust-solana-scanlink/rust-solana-scanlink-main/rust-solana--gemini/solana-copy-trader/src/scanner/decoder.rs:548-560 | A string encoded anywhere is read back whole and the offset stops right behind it. |
| Codec.ReadStringIsCanonical | rust-solana-scanlink/rust-solana-scanlink-main/rust-solana--gemini/solana-copy-trader/src/scanner/decoder.rs:548-560 | A successful read consumed exactly the encoding of what it returned. |
| Codec.CreateRoundTrip | rust-solana-scanlink/rust-solana-scanlink-main/rust-solana--gemini/solana-copy-trader/src/scanner/decoder.rs:404-423 | For all names, symbols, uris and creators the encoded payload decodes to them, with anything behind it. |
| Codec.CreateDecodesIff | rust-solana-scanlink/rust-solana-scanlink-main/rust-solana--gemini/solana-copy-trader/src/scanner/decoder.rs:404-423 | A payload decodes to given fields if and only if it begins with their encoding. |
| Codec.DecodeNewToken | rust-solana-scanlink/rust-solana-scanlink-main/rust-solana--gemini/solana-copy-trader/src/scanner/decoder.rs:404-443 | The decoder with its moving offset returns those fields and the two indexed accounts, or nothing if one is missing. |
| Codec.BuiltCreateIsRecognised | rust-solana-scanlink/rust-solana-scanlink-main/rust-solana--gemini/solana-copy-trader/src/scanner/decoder.rs:282-443 | The scanner takes every create instruction of either version: mint and bonding curve are its first and third account and the other fields those of the payload; nothing exactly when one of the two accounts is missing. |
| Codec.BuiltBuyIsRecognised | rust-solana-scanlink/rust-solana-scanlink-main/rust-solana--gemini/solana-copy-trader/src/scanner/decoder.rs:302-325 | The scanner takes every buy the trader builds for a buy, with its mint, buyer and cost. |
| Execution.ExecutionFeedbackFromReceipts | rust-solana-scanlink/rust-solana-scanlink-main/rust-solana--gemini/solana-copy-trader/src/main.rs:217-283 | The two passes over the receipts compute the feedback of the specification. |
| Execution.CountStreak | rust-solana-scanlink/rust-solana-scanlink-main/rust-solana--gemini/solana-copy-trader/src/main.rs:239-244 | The backward pass counts the failures that end the counted receipts. |
| Execution.StreakIsLongest | rust-solana-scanlink/rust-solana-scanlink-main/rust-solana--gemini/solana-copy-trader/src/main.rs:239-244 | The streak is the longest run of failures at the end. |
| Execution.FailureIsASample | rust-solana-scanlink/rust-solana-scanlink-main/rust-solana--gemini/solana-copy-trader/src/main.rs:285-298 | No status is both a failure and a success, and no failure is skipped. |
| Execution.FeedbackBounds | rust-solana-scanlink/rust-solana-scanlink-main/rust-solana--gemini/solana-copy-trader/src/main.rs:217-244 | Successes plus streak are at most the samples, and the rate is at most 10000, reaching it only without a streak. |
| Execution.OpenReceiptsAreNeutral | rust-solana-scanlink/rust-solana-scanlink-main/rust-solana--gemini/solana-copy-trader/src/main.rs:224-227 | Dry runs and open submissions leave the feedback as it was. |
| Execution.ReceiptKinds | rust-solana-scanlink/rust-solana-scanlink-main/rust-solana--gemini/solana-copy-trader/src/main.rs:224-298 | What one more receipt adds, by its text: four successes, six failures and any text ending in _failed, two that add nothing. |
| Execution.OtherReceipts | rust-solana-scanlink/rust-solana-scanlink-main/rust-solana--gemini/solana-copy-trader/src/main.rs:224-298 | Any other text is a sample that is neither a success nor a failure. |
| Execution.BoostsIff | rust-solana-scanlink/rust-solana-scanlink-main/rust-solana--gemini/solana-copy-trader/src/main.rs:251-272 | The boosts by shares of successes among four samples or more: under a half, under three quarters, or at least that with the last two failed. |
| Execution.FailureLowersRate | rust-solana-scanlink/rust-solana-scanlink-main/rust-solana--gemini/solana-copy-trader/src/main.rs:234-244 | A failed receipt adds one to samples and streak and never raises the rate. |
| Execution.SuccessRaisesFeeIff | rust-solana-scanlink/rust-solana-scanlink-main/rust-solana--gemini/solana-copy-trader/src/main.rs:251-261 | One more success raises the fee boost if and only if it is the fourth sample and at most one of the first three succeeded. |
| Execution.SuccessRaisesFeeWitness | rust-solana-scanlink/rust-solana-scanlink-main/rust-solana--gemini/solana-copy-trader/src/main.rs:251-261 | After three failed sends a confirmation raises the fee boost from 10000 to 13500. |
| Execution.FailureNeverCalms | rust-solana-scanlink/rust-solana-scanlink-main/rust-solana--gemini/solana-copy-trader/src/tx/execution_router.rs:94-160 | A failed receipt never lowers the tier, fee or tip of the next trade and never drops a channel. |
| Execution.FailuresOnlyEscalate | rust-solana-scanlink/rust-solana-scanlink-main/rust-solana--gemini/solana-copy-trader/src/tx/execution_router.rs:94-160 | Nor does any number of them. |
| Execution.TierIff | rust-solana-scanlink/rust-solana-scanlink-main/rust-solana--gemini/solana-copy-trader/src/tx/execution_router.rs:102-117 | Exactly when the tier is aggressive or conservative, from confidence, path, urgency and the failures that end the receipts. |
| Execution.ConfidenceNeverCalms | rust-solana-scanlink/rust-solana-scanlink-main/rust-solana--gemini/solana-copy-trader/src/tx/execution_router.rs:94-160 | More confidence or urgency never makes the next trade cheaper, calmer or narrower. |
| Execution.FeeRange | rust-solana-scanlink/rust-solana-scanlink-main/rust-solana--gemini/solana-copy-trader/src/tx/execution_router.rs:139-151 | What each tier pays with no boost and with the largest. |
| Execution.ChannelsIff | rust-solana-scanlink/rust-solana-scanlink-main/rust-solana--gemini/solana-copy-trader/src/tx/execution_router.rs:119-137 | Exactly which channels are used and how the route is labelled, from the configured ones and the shares of successes. |
| Execution.ProfileBpsBounds | rust-solana-scanlink/rust-solana-scanlink-main/rust-solana--gemini/solana-copy-trader/src/tx/execution_router.rs:139-151 | Fee and tip multipliers lie between 10000 and 20250 and between 10000 and 22400. |
| Execution.ScaledFeeExactIff | rust-solana-scanlink/rust-solana-scanlink-main/rust-solana--gemini/solana-copy-trader/src/tx/execution_router.rs:208-210 | The scaled fee is exact, and then not below the base, if and only if the exact value fits 64 bits; a stated largest base is within that for every profile. |
| Execution.FailureNeverLowersFee | rust-solana-scanlink/rust-solana-scanlink-main/rust-solana--gemini/solana-copy-trader/src/tx/execution_router.rs:181-187 | Within that base a failed receipt never lowers the fee or tip paid. |

## Left out

- LoopHistory.EarlyBuysFaithful: a delivery that arrives while the score is outstanding is dropped by the code and is not among the deliveries it speaks of.
- EventLoop.ScoreCandidate: the scoring task reads hot lists, clocks and lookups that may have changed since the trigger; these readings are inputs of the event, so nothing is said about them.
- Position.AttemptsCountSales: the 32-bit counter is unbounded in the model.
- Scoring.ScoreBounds: the unchecked 32-bit additions of the score total and of the base components are taken as exact.
- Groups.NextGroupId: the addition wraps around, as a release build does; a debug build stops there instead.
- Spawned tasks are reliable: each sends its message once. A panic or a closed channel is not modelled, and the loop is not claimed to return.
- Gate 1, the creator gate's rules, hot keywords and every remote lookup are inputs: only what the loop does with their answers is modelled.
- Floating point is real arithmetic: rounding, NaN and infinities are outside the model, also in the price path behind the target reader.
- The trigger's own time stamp in the consensus engine, which no code compares with anything, is not kept; each section carries one reading of the clock.
- The refresh task's lookup and the writes it makes to caches are one atomic end with an outcome; a task that is aborted half-way is not modelled.
- Decoding bytes that are not UTF-8 into replacement characters: strings are their bytes.
- JSON and base58 text: printing and parsing are taken to be inverse, and other text to parse to nothing.
- Recovering create-like instructions of unknown discriminators, and walking a message's inner instructions.
- Writing the groups file is taken to succeed; the source only logs a failure.
- The fallback monitor of the auto-sell manager and its removal of old closed positions: only the position operations it calls.
- `scoring_breakdowns`: its upsert has the shape of `filter_results`, with ranks given by the path and the latest time kept.
- Slippage arithmetic over 10,000 basis points, PumpSwap and Raydium processors, prefetch and blockhash caches, transaction building and sending, Telegram, configuration and logging.
- Gate-1 template identity and its penalties: the same capped accumulation as the runtime risk, over text that is an input here.
