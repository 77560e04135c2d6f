# Moon Signal backend — a verified Dafny model of its decision logic and stores

Moon Signal is a Node/Express backend that scores Solana and EVM tokens
from Dexscreener data, wallet activity and social mentions. It turns those
scores into trade actions (WAIT, ARM, READY, ENTER, APE, "RUG WARNING"), and
it keeps small in-memory stores: convergence trackers, wallet rankings, a
watchlist, a Telegram mention window, the signal feed and per-license user
state. This project models that core in Dafny and proves what each piece
promises. Every route handler, timer and file access is reduced to the
logic under it. `Date.now()` is an explicit `now` parameter. Network
results are parameters too.

One module per source file:

- `ScoreEngine` (`score_engine.js`): the tier tables `TIER_THRESHOLDS`,
  `normalizeTier`, `extractTier`, the four leading indicators and the
  tier-aware decision ladder with its rug-warning override.
- `DecisionEngine` (`decision_engine.js`): the older APE/WAIT gate with its
  extreme-rug override and severity bands.
- `DecisionRoute` (`src/routes/decision.js`): address validation, log
  sanitising, the Dexscreener URL path parser, the route's own alpha score,
  rug risk and decision, and the `GET /decision` handler.
- `RugRisk` (`rugrisk.js`): the rug report of a Dexscreener pair.
- `AdvancedMetrics` (`advanced_metrics.js`): the convergence tracker
  (a class over a map of per-token hit lists), the liquidity-trap test and
  the entry-zone test.
- `Scoring` (`scoring.js`): `scoreSignal` and `buildReasons`.
- `WalletRank` (`wallet_rank.js`): per-wallet performance records with
  score, wins, losses and a tier bucket, and the ranked listing.
- `Velocity` (`velocity.js`): the sliding window of social-velocity
  samples.
- `WatchlistStore` (`watchlist_store.js`): the capped, key-distinct
  watchlist.
- `Telegram` (`telegram.js`): ticker and mint extraction, the per-key
  mention window and the update loop of the poller.
- `FeedIndex` (`index.js`): the newest-first signal feed and the
  convergence counters behind `/convergence`.
- `ServerGate` (`src/server.js`, pure part): the CORS origin test, the
  configured license keys and open mode, the license lookup of a request,
  the tier wallet allowance, the Solana address test and the wallet-list
  cleaning loop.
- `ServerStore` (`src/server.js`, stateful part): users by license hash,
  per-user wallet-buy and convergence-hit logs, the Helius webhook ingest
  and the feedback log.
- `Auth` (`auth.js`): the license table, the plan gate of
  `authMiddleware` and the two admin helpers.

Shared modules: `Js` models the JavaScript built-ins the code relies on
(`trim`, ASCII `toUpperCase`/`toLowerCase`, `split`, `slice(0, k)` with a
negative `k`, clamps, `Option` for `??` defaults). `Sorting` is an
insertion sort against a total preorder, proved sorted and a permutation;
the order it leaves between equal elements is not part of its contract.
`DexPair` and `Overlay` hold the two input records shared by several
engines.

Facts about the source that the proofs establish:

- The route's `computeAlphaScore` always lies in [2, 64]
  (`DecisionRoute.AlphaRange`). READY needs 65 and ENTER needs 72, so
  `GET /decision` only ever answers "RUG WARNING", WAIT or ARM
  (`DecisionRoute.HandleDecision`).
- `extractTier` looks for `earlyAccess` or `allAlgorithms`, but the PROPLUS
  feature object of `src/routes/license.js` is keyed `earlyFeatureAccess`.
  Handing that object to `extractTier` therefore yields PRO
  (`ScoreEngine.ProPlusFeaturesResolveToPro`).
- The wallet-cleaning loop tests its cap only after a push. A CORE user,
  whose allowance is 0, therefore still keeps one wallet
  (`ServerGate.CoreKeepsOneWallet`).
- A header `Authorization: Bearer` followed only by two or more white-space
  characters, the last not a line terminator, gives the key "". That empty key also hides a valid
  `x-ms-key` header (`ServerGate.BlankBearerHidesKeyHeader`). Node removes
  trailing spaces and tabs from header values, so over HTTP this needs other
  white space that `trim()` removes, such as U+00A0.
- A wallet record created by `ensure` has tier A, but the bucket of its
  score 50 is B (`WalletRank.FreshTierIsNotItsBucket`).

## Model

| member | source | states |
|---|---|---|
| ScoreEngine.TierLadderOrdered | score_engine.js:7-47 | In every tier table the score bars rise strictly from ARM through READY to ENTER, and the rug ceilings fall strictly. |
| ScoreEngine.NormalizeTier | score_engine.js:114-120 | An empty name gives BASIC; PROPLUS exactly for "pro+" or "proplus" in any case; PRO exactly for "pro" in any case; BASIC otherwise. |
| ScoreEngine.ExtractTier | score_engine.js:123-139 | A feature object gives PROPLUS exactly when `allAlgorithms` or `earlyAccess` is true, and BASIC exactly when none of `allAlgorithms`, `earlyAccess`, `aiDecisionEngine` and `momentumAcceleration` is true, so PRO exactly when a PRO flag is true without a PROPLUS one; a name goes through `normalizeTier`. |
| ScoreEngine.ProPlusFeaturesResolveToPro | src/routes/license.js:77-105 | The PROPLUS feature object of the license routes resolves to PRO, because its early-access flag has another name. |
| ScoreEngine.TierThresholdsQuietSafe | score_engine.js:7-47 | Every tier table has a non-negative buy-ratio bar and transaction and volume multipliers above 1, the conditions under which a quiet overlay raises nothing. |
| ScoreEngine.QuietOverlayRaisesNothing | score_engine.js:50-111 | With no transactions, no previous values, no baseline and no sell streak, no leading indicator fires. |
| ScoreEngine.DetectLeadingIndicators | score_engine.js:50-111 | Each flag is its indicator's condition, and `count` is the number of flags set, so it lies in 0..4. |
| ScoreEngine.RugWarningDecision | score_engine.js:176-190 | The override answers RUG WARNING with confidence 85 for an early sell-streak signal without a crash and 98 otherwise. Its reasons are 2 to 6 lines, headed by "Rug/crash conditions detected" and ending with the rug line. |
| ScoreEngine.RugGradient | score_engine.js:193-194 | Confidence rises exactly for rug ≤ 35 and falls exactly for rug ≥ 65, by between -16 and +10, with at most one reason. |
| ScoreEngine.TrapPenalty | score_engine.js:197-200 | A liquidity trap lowers confidence, by at most 20, and nothing else does. |
| ScoreEngine.AlphaBand | score_engine.js:203-205 | Confidence rises exactly for a score ≥ 78 and falls exactly for a score < 60, by between -12 and +18. |
| ScoreEngine.RisingBand | score_engine.js:208-209 | Always one reason; confidence rises exactly when the flow is rising, by between -6 and +10. |
| ScoreEngine.BreakoutBand | score_engine.js:211-212 | Always one reason; confidence rises exactly on a breakout, by between -6 and +12. |
| ScoreEngine.ConvergenceBand | score_engine.js:215-218 | Always one reason; confidence falls exactly when the status is none of STRONG, MED and WEAK, by between -3 and +18. |
| ScoreEngine.LiquidityBand | score_engine.js:221-223 | Always one reason; confidence rises exactly for liquidity ≥ 15000, by between -12 and +10. |
| ScoreEngine.VolumeBand | score_engine.js:225-227 | Confidence rises exactly for volume ≥ 120000 and falls exactly for volume in (0, 60000), by between -8 and +10. |
| ScoreEngine.ZoneBand | score_engine.js:230-231 | Confidence falls exactly for a CHASE entry and rises exactly for an EARLY one, by between -18 and +8. |
| ScoreEngine.AdjustConfidence | score_engine.js:192-233 | Below the override, confidence is `ClampInt(ScoreConfidence(ov), 1, 99)`, that is 55 plus the nine adjustments, clamped. The reasons are `ScoreReasons(ov)`, the nine bands' reasons in the order they are pushed, 4 to 9 of them. |
| ScoreEngine.ScoreReasonsCount | score_engine.js:192-231 | The nine bands give 4 to 9 reasons. |
| ScoreEngine.ScoreConfidenceRange | score_engine.js:166-231 | 55 plus the nine adjustments lies in [-46, 151], so the clamp can bite at both ends. |
| ScoreEngine.ScoreConfidenceMonotone | score_engine.js:193-205 | With the other inputs fixed, the unclamped confidence never falls as the score rises or as the rug risk falls. |
| ScoreEngine.LadderDecision | score_engine.js:235-285 | Below the override: the ladder's action (each of ENTER, READY, ARM and WAIT exactly when its conditions hold), confidence `ClampInt(ScoreConfidence(ov), 1, 99)`, and the reasons `SlicePrefix(ScoreReasons(ov) + ["Early entry"] if only the early path enters, 7)`. |
| ScoreEngine.PickAction | score_engine.js:235-279 | ENTER exactly on the standard path or, on PRO and PROPLUS, the early path; READY exactly when not ENTER and the READY bars hold; ARM exactly when neither and the ARM bars hold; WAIT exactly when score < `scoreArm` or rug > `rugMaxArm`. |
| ScoreEngine.ComputeDecision | score_engine.js:141-299 | RUG WARNING exactly when the tier's rug trigger fires, which includes every crash and every rug ≥ 82. A crash gives confidence 98. Otherwise confidence is `ClampInt(ScoreConfidence(ov), 1, 99)`, and the reasons are the first seven of `ScoreReasons(ov)` plus "Early entry" when only the early path enters. ENTER implies the score and rug bars, rising, no trap and no CHASE entry. A BASIC ENTER also needs STRONG or MED convergence and a breakout or strong liquidity and volume. READY implies rising or breakout. Outside the override, WAIT exactly below the ARM bars. |
| DecisionEngine.SeverityMonotone | decision_engine.js:75 | Severity never goes down as the rug risk goes up, and off the override it is never EXTREME. |
| DecisionEngine.RugGate | decision_engine.js:29-35 | The rug gradient changes confidence by between -18 and +10 and adds at most one reason. |
| DecisionEngine.ScoreBand | decision_engine.js:38-40 | The score band changes confidence by between -12 and +18 and adds at most one reason. |
| DecisionEngine.AccelBand | decision_engine.js:43-44 | The acceleration branch changes confidence by between -6 and +10 and always adds exactly one reason. |
| DecisionEngine.BreakoutBand | decision_engine.js:46-47 | The breakout branch changes confidence by between -6 and +12 and always adds exactly one reason. |
| DecisionEngine.LiquidityBand | decision_engine.js:50-52 | The liquidity branch changes confidence by between -12 and +10 and always adds exactly one reason. |
| DecisionEngine.VolumeBand | decision_engine.js:54-56 | The volume band changes confidence by between -8 and +10 and adds at most one reason. |
| DecisionEngine.ExtensionBand | decision_engine.js:59-60 | The 1h-extension band only lowers confidence, by at most 10, and adds at most one reason. |
| DecisionEngine.Adjust | decision_engine.js:17-60 | Returns `EngineConfidence(ov)`, 50 plus the seven adjustments in [-22, 120], and `EngineReasons(ov)`, the seven bands' reasons in the order they are pushed, 3 to 7 of them. |
| DecisionEngine.EngineReasonsCount | decision_engine.js:29-60 | The seven bands give 3 to 7 reasons. |
| DecisionEngine.EngineConfidenceRange | decision_engine.js:17-60 | 50 plus the seven adjustments lies in [-22, 120], so the clamp can bite at both ends. |
| DecisionEngine.EngineConfidenceMonotone | decision_engine.js:29-40 | With the other inputs fixed, the unclamped confidence never falls as the score rises or as the rug risk falls. |
| DecisionEngine.EmptyOverlayConfidence | decision_engine.js:8-62 | An empty overlay is below the rug gate, is not APE, and gets a clamped confidence of 24. |
| DecisionEngine.ComputeDecision | decision_engine.js:7-84 | Rug ≥ 80 gives WAIT, confidence 95, severity EXTREME, and a headline followed by at most three of the rug reasons. Otherwise confidence is `ClampInt(EngineConfidence(ov), 1, 99)` (50 plus the seven adjustments) and the reasons are `SlicePrefix(EngineReasons(ov), 6)`, the first six of the seven bands' reasons in order. APE holds exactly when score ≥ 78, rug ≤ 60, rising, and a breakout or strong liquidity and volume. Severity comes from the bands. An empty overlay gives WAIT with confidence 24. |
| DecisionRoute.IsValidAddress | src/routes/decision.js:13-23 | An address is valid exactly when it is `0x` with 40 hex digits, or 32 to 44 base58 characters; a valid address is 32 to 44 word characters and "" is refused. |
| DecisionRoute.RemoveLogControls | src/routes/decision.js:26-30 | The result holds no CR, LF and tab; one character is dropped exactly when it is one of the three; a text without them is unchanged. |
| DecisionRoute.RemoveLogControlsAppend | src/routes/decision.js:26-30 | Removing the controls from `a + b` gives the result for `a` followed by the result for `b`, so the kept characters stay in their order. |
| DecisionRoute.SanitizeForLog | src/routes/decision.js:26-30 | The log form has at most 100 characters and no CR, LF or tab. |
| DecisionRoute.SanitizeIdempotent | src/routes/decision.js:26-30 | Sanitising twice is the same as sanitising once. |
| DecisionRoute.ValidAddressFitsLog | src/routes/decision.js:13-30 | A valid address is logged unchanged. |
| DecisionRoute.Segments | src/routes/decision.js:44-45 | Every segment is non-empty and slash-free, and a slash-free path is one segment, or none when empty; with `SegmentsAtSlash` the segments are exactly the non-empty pieces between slashes, in order. |
| DecisionRoute.SegmentsAtSlash | src/routes/decision.js:44-45 | The segments of `a/b`, for a slash-free `a`, are the segments of `a` followed by those of `b`. |
| DecisionRoute.ParseDexscreenerUrl | src/routes/decision.js:33-69 | `pair/c/p...` gives chain c and pair p; `token/a...` gives a token lookup of a with no chain; any other path of two or more segments, including `pair/x`, takes its first two segments as chain and pair; fewer segments, an empty URL or a URL that does not parse gives nothing. |
| DecisionRoute.CanonicalPathRoundTrip | src/routes/decision.js:44-65 | Parsing the path `/c/p` built from two slash-free, non-empty names gives back chain c and pair p. |
| DecisionRoute.AlphaMonotone | src/routes/decision.js:150-166 | More liquidity or more volume never lowers the alpha score. |
| DecisionRoute.AlphaRange | src/routes/decision.js:144-176 | The raw alpha score lies in [2, 64], so the final clamp never changes it. |
| DecisionRoute.ComputeAlphaScore | src/routes/decision.js:144-176 | The alpha score equals the band sum and lies in [2, 64]. |
| DecisionRoute.RouteRiskFloor | src/routes/decision.js:179-223 | The raw route risk is at least 12, and its clamp lies in [12, 100]. |
| DecisionRoute.ComputeRugRisk | src/routes/decision.js:179-223 | The route's rug risk is the clamped band sum and lies in [12, 100]. |
| DecisionRoute.RouteConfidenceMonotone | src/routes/decision.js:243-257 | The unclamped confidence lies in [7, 103], so the clamp can bite only at the top. It never falls as alpha rises or as the rug risk falls. |
| DecisionRoute.ComputeDecision | src/routes/decision.js:226-278 | Meets `RouteDecides`: RUG WARNING with confidence 98 exactly on a crash or rug ≥ 82. Otherwise the confidence is 55 plus the rug, alpha, liquidity and volume bands (`RouteConfidence`), clamped to [1, 99]. ENTER exactly under the ENTER bars. READY exactly when not ENTER and the READY bars hold. ARM exactly when neither and the ARM bars hold. WAIT exactly when the ARM bars fail. |
| DecisionRoute.HandleDecision | src/routes/decision.js:281-382 | A missing URL gives 400 `missing_url`, an unparsable one 400 `invalid_url`, a bad token address 400 `invalid_token_address`. After a valid parse, no fetched pair gives 404 `pair_not_found`. An empty chain (`RouteChain`: the pair's chain for a token, else the pair's or the URL's) gives 400 `chain_not_identified`, and a non-empty one a success. A success reports that chain, the pair address or the parsed pair or token, and the pair's URL or the canonical one. It reports alpha = `RawAlpha` of the pair, in [2, 64], and rug = the clamped `RawRouteRisk`, in [12, 100]. Its decision and confidence meet `RouteDecides` for those two values, so the decision is RUG WARNING, WAIT or ARM. The token name, symbol and mint come from the base token, else token0. |
| RugRisk.RawRiskBounds | rugrisk.js:7-26 | The raw risk lies in [25, 92], so the clamp never bites. |
| RugRisk.LevelMonotone | rugrisk.js:34-37 | Off the hard-fail path the level never goes down as the risk goes up, and it is never HARD. |
| RugRisk.ComputeRugRiskFromDexPair | rugrisk.js:2-40 | Risk is the penalty sum, in [25, 92]. The hard fail is exactly its test. The level is HARD exactly on a hard fail. There are 1 to 3 reasons, the liquidity verdict first. There is an FDV reason exactly when the FDV penalty applies, and a volume reason exactly when the volume penalty does. An empty pair gives risk 55, HARD, hard fail and "Very low liquidity". |
| AdvancedMetrics.KeepRecentKeeps | advanced_metrics.js:20 | The filter keeps exactly the hits at or after the cutoff. |
| AdvancedMetrics.TierWalletsSnoc | advanced_metrics.js:33-36 | Each hit of the loop adds its wallet to the set of its own tier and to no other, so the loop builds the set of wallets with a hit of that tier. |
| AdvancedMetrics.ListedWalletsUnion | advanced_metrics.js:40 | The union of the S and the A wallet sets is the set of wallets with a hit of tier S or A. |
| AdvancedMetrics.StatusCharacterised | advanced_metrics.js:47-51 | STRONG exactly for sCount ≥ 2 or (sCount ≥ 1 and aCount ≥ 2); MED exactly for the rest with sCount ≥ 1 or aCount ≥ 2; WEAK exactly for sCount 0 and aCount 1; NONE exactly for no wallets. |
| AdvancedMetrics.NoWalletsIffNoTierHits | advanced_metrics.js:40 | `total` is 0 exactly when no hit has tier S or A. |
| AdvancedMetrics.ClampedStrength | advanced_metrics.js:42-45 | The clamped strength equals min(100, 45·sCount + 18·aCount). |
| AdvancedMetrics.Summarize | advanced_metrics.js:30-53 | The summary counts the distinct S wallets, the distinct A wallets and the wallets of either tier. Its total is 0 exactly when no hit has tier S or A. Strength is min(100, 45·sCount + 18·aCount), in [0, 100]. Status follows the ladder. |
| AdvancedMetrics.RankSummaries | advanced_metrics.js:62-63 | Sorted by strength then total, both descending, with the `slice(0, limit)` length for both signs of the limit. Only given summaries, tokens distinct. Every kept summary ranks at or above every given summary that was cut. With nothing cut the result is a permutation of the input. |
| AdvancedMetrics.ConvergenceTracker.constructor | advanced_metrics.js:3-5 | The tracker starts empty with the given window. |
| AdvancedMetrics.ConvergenceTracker.PruneToken | advanced_metrics.js:16-23 | An unknown token changes nothing. Otherwise the token keeps its recent hits, or is deleted when none are left. Every kept hit is inside the window, and no key maps to an empty list. |
| AdvancedMetrics.ConvergenceTracker.Note | advanced_metrics.js:7-14 | A falsy token, wallet or tier changes nothing. Otherwise the new hit goes first under the upper-cased token and the list is pruned. With a non-negative window the new hit is kept. |
| AdvancedMetrics.ConvergenceTracker.Get | advanced_metrics.js:25-54 | The summary is that of the upper-cased token's hits inside the window, so `note("abc")` is seen by `get("ABC")`. That token's list is replaced by those hits, or deleted when none is left. Other tokens are untouched. |
| AdvancedMetrics.ConvergenceTracker.ListTop | advanced_metrics.js:56-64 | Afterwards every stored token is pruned: the map is `PruneAll` of the old one. Each listed summary is what `get` reports for a distinct stored token, and it has an S or A wallet. The list is sorted by strength then total, descending. A stored token with an S or A wallet that is left out ranks no higher than any listed one. When fewer than `limit` (default 30) are listed, every such token is listed. |
| AdvancedMetrics.ConvergenceTracker.CollectAll | advanced_metrics.js:57-61 | The loop calls `get` on every stored token. It leaves the map pruned and gathers, for distinct tokens, exactly the reported summaries that have an S or A wallet. |
| AdvancedMetrics.ConvergenceTracker.CollectOne | advanced_metrics.js:59-60 | One turn prunes the token and keeps its reported summary exactly when `g.total > 0`. |
| AdvancedMetrics.RankCollected | advanced_metrics.js:62-63 | Sorting and cutting the gathered summaries gives the listing promised by `listTop` over the stored tokens. |
| AdvancedMetrics.PrunesIsPruneAll | advanced_metrics.js:16-23 | A map that holds the recent hits of exactly the stored tokens that have some is `PruneAll` of the stored map. |
| Js.NatToString | telegram.js:105 | The `${n}` rendering of a velocity: at least one character, all decimal digits, and no leading zero. |
| Js.NatToStringRoundTrip | telegram.js:105 | Reading the rendered digits back gives the number. |
| Js.ToFixed2 | advanced_metrics.js:86 | The result has at most two decimals and lies within 0.005 of the input, with the half-way case rounded away from zero. |
| AdvancedMetrics.ComputeLiquidityTrap | advanced_metrics.js:69-89 | Trap exactly when (vol ≥ 300k and liq < 25k) or (vol ≥ 600k and liq < 50k). HIGH exactly for the second clause, MED for any other trap, LOW otherwise. The ratio is vol/liq rounded by `toFixed(2)`, or 9999 when liq ≤ 0. |
| AdvancedMetrics.ComputeEntryZone | advanced_metrics.js:91-115 | CHASE exactly for 1h ≥ 25 or (1h ≥ 18 and 24h ≥ 80). EARLY exactly when not CHASE and 1h ≤ 8 and 24h ≤ 45. NEUTRAL otherwise. The entry score is 30, 82 or 62, and never 60. |
| Scoring.SocialBoost | scoring.js:18 | The social term never exceeds 30 and is non-negative for a non-negative velocity. |
| Scoring.TierBoostOrdered | scoring.js:12-15 | The tier boost follows S > A > B > C > none strictly. |
| Scoring.ScoreMonotoneInTier | scoring.js:9-49 | With every other input fixed, a better wallet tier never lowers the score. |
| Scoring.BandsMonotone | scoring.js:21-36 | The liquidity and volume bands never go down as their input goes up. |
| Scoring.NonNumbersContributeNothing | scoring.js:21-47 | Dex fields that are not numbers add nothing to the score. |
| Scoring.ScoreSignal | scoring.js:1-51 | The score is the clamped band sum, an integer in [0, 100]. |
| Scoring.SocialLabelBands | scoring.js:65-67 | HIGH exactly for velocity ≥ 60, MED for [30, 60), LOW for (0, 30), and no label otherwise. |
| Scoring.BuildReasons | scoring.js:53-76 | One line per present input, wallet tier first and the social label next, at most 6 lines. |
| WalletRank.Bucket | wallet_rank.js:47-52 | The bucket is always one of S, A, B and C. |
| WalletRank.FreshTierIsNotItsBucket | wallet_rank.js:33-45 | A record created by `ensure` has tier A, while the bucket of its score 50 is B. |
| WalletRank.BetterFirstIsTotalPreorder | wallet_rank.js:89 | The `topWallets` comparator is a total preorder, so sorting by it is well defined. |
| WalletRank.WalletRanker.constructor | wallet_rank.js:1-29 | The ranker starts with no records. |
| WalletRank.WalletRanker.Ensure | wallet_rank.js:33-45 | The record returned is the stored one, or the fresh record {A, 50, 0, 0} stored under that address; nothing else changes. |
| WalletRank.WalletRanker.NoteActivity | wallet_rank.js:54-62 | Score + 2 clamped to [0, 100], tier rebucketed, last seen set to now, last token kept when the new one is falsy. Only that address changes. |
| WalletRank.WalletRanker.NoteWin | wallet_rank.js:64-71 | One more win and score + 10 clamped, tier rebucketed; losses and other addresses unchanged. |
| WalletRank.WalletRanker.NoteLoss | wallet_rank.js:73-80 | One more loss and score − 10 clamped, tier rebucketed; wins and other addresses unchanged. |
| WalletRank.WalletRanker.GetTier | wallet_rank.js:82-85 | An unknown address answers "A" and gets the fresh record. A known one answers its stored tier. The answer is always S, A, B or C. |
| WalletRank.WalletRanker.Entries | wallet_rank.js:88 | Exactly one row per stored address, carrying that address's record. |
| WalletRank.WalletRanker.TopWallets | wallet_rank.js:87-91 | `slice(0, limit)` lengths (default 20), sorted by score and wins descending then losses ascending. Each row is a stored record under its own address, with distinct addresses. A stored record that is cut ranks no higher than any listed one. When fewer than `limit` are listed, every record is listed. |
| WalletRank.RankEntries | wallet_rank.js:89-90 | Sorted by the comparator, drawn from the input, distinct and of `slice` length. Every kept row ranks at or above every input row that was cut. With nothing cut the result is a permutation of the input. |
| Velocity.LastAtMost | velocity.js:9-10 | The shifting loop keeps the newest `windowSize` samples, in arrival order. |
| Velocity.VelocityTracker.constructor | velocity.js:4-5 | The tracker starts with no samples and the given window. |
| Velocity.VelocityTracker.Push | velocity.js:7-11 | The value is clamped into [0, 100] and appended. The oldest samples are dropped down to the window. With a window of at least 1, the new sample is last. |
| Velocity.VelocityTracker.Current | velocity.js:13-15 | 0 when empty, otherwise the last value, always in [0, 100]. |
| Velocity.VelocityTracker.IsRising | velocity.js:18-26 | True exactly when there are at least 3 samples, the last three values do not decrease, the last is at least `minNow`, and it exceeds the third-last by at least `minDelta`. |
| Velocity.VelocityTracker.Slope | velocity.js:28-33 | 0 with fewer than 2 samples, otherwise newest minus oldest, in [−100, 100]. |
| WatchlistStore.Without | watchlist_store.js:32 | No item of the result has the key, every item comes from the list, and a list without the key is unchanged. |
| WatchlistStore.WithoutSplitsAtKey | watchlist_store.js:32 | Filtering out a present key keeps every item before its first occurrence, in order, and only filters what follows. |
| WatchlistStore.WithoutRemovesItemAt | watchlist_store.js:32 | On distinct keys, filtering out a present key removes exactly its item and keeps all others in order. |
| WatchlistStore.WithoutKeepsDistinct | watchlist_store.js:32 | Filtering out a key keeps keys distinct. |
| WatchlistStore.WithoutRemovesOne | watchlist_store.js:30-35 | On distinct keys, removing a present key shortens the list by exactly one. |
| WatchlistStore.IndexOf | watchlist_store.js:42 | `find` gives the first item with that key. |
| WatchlistStore.Watchlist.constructor | watchlist_store.js:1-14 | The watchlist starts empty. |
| WatchlistStore.Watchlist.Add | watchlist_store.js:20-28 | No key gives false and no change. A present key gives true and no change. A new key goes first with no decision and last seen 0, and the list is cut to 200. Keys stay distinct. |
| WatchlistStore.Watchlist.Remove | watchlist_store.js:30-35 | True exactly when the key was present. The new list is the filtered old list; when the key was present it is the old list without exactly that item, the others in order, and no item has the key. |
| WatchlistStore.Watchlist.List | watchlist_store.js:37-39 | The items themselves: at most 200, keys distinct. |
| WatchlistStore.Watchlist.UpdateDecision | watchlist_store.js:41-48 | False exactly when the key is absent, with no change. Otherwise only that item's last seen and last decision change. |
| Telegram.WordRun | telegram.js:35 | The run has at most `cap` word characters and is maximal below the cap. |
| Telegram.Base58Run | telegram.js:40 | The run has at most `cap` base58 characters and is maximal below the cap. |
| Telegram.MintIsRun | telegram.js:40 | A mint-like match at a position is the whole base58 run there, so the expression matches there at most once. |
| Telegram.TickerFound | telegram.js:35-36 | A `$TICKER` match yields a key extracted from the text. |
| Telegram.MintFound | telegram.js:40-41 | A mint-like match yields a key extracted from the text. |
| Telegram.TickerKeys | telegram.js:35-37 | The ticker pass gives distinct keys, each "$" and 2 to 12 upper-cased characters found in the text. Every match of the expression contributes its key: each `$` followed by at least two word characters, taking up to twelve of them. |
| Telegram.AddMintKeys | telegram.js:40-42 | The mint pass extends the keys found so far with distinct mint-like strings of the text. Every match is in the result: each base58 run of 32 to 44 characters that stands between word boundaries. |
| Telegram.ExtractMentions | telegram.js:30-45 | Distinct, non-empty keys, each found in the text. A key starting with "$" has 3 to 13 characters. Every ticker match and every mint-like match of the text gives a key. |
| Telegram.TelegramWatcher.constructor | telegram.js:9-15 | The allow-list is the non-empty chat ids. The offset and the clock are 0, with no mentions and no signals. |
| Telegram.TelegramWatcher.DropOld | telegram.js:22 | The front-shifting loop keeps a non-empty suffix that is within the window, in ascending order, ending with now. Every kept time is at most now. Every dropped time lies more than the window before now. |
| Telegram.TelegramWatcher.AddMention | telegram.js:17-28 | Now is appended to the key's list. Every kept time is within 10 minutes of now, and every dropped time lies further back. Only that key's list changes. The velocity is min(100, 10·count), in [10, 100]. |
| Telegram.TelegramWatcher.ProcessUpdate | telegram.js:69-108 | The offset becomes max(offset, id + 1). The update appends exactly the returned chunk after the old signals, with every velocity in [10, 100], and the chunk meets `ChunkFits`. An update that does not emit (`Emits`: no message, a chat outside a non-empty allow-list, or no text) appends nothing and leaves the mentions alone. An emitting one appends signals that meet `MessageSignals`. Either they are exactly the one "Telegram" record (`QuietSignal`), with velocity 20, message `TG <who>: <first 180 characters>` and reasons "Telegram message", "No token detected". Or they are one or more spike records (`IsSpike`) with that message, each for a key found in the text. No mention key is lost. |
| Telegram.TelegramWatcher.EmitMessage | telegram.js:81-107 | An allowed message with text appends, after the old signals, a chunk that meets `MessageSignals`, with every velocity in [10, 100]. The offset is unchanged and no mention key is lost. |
| Telegram.TelegramWatcher.ChunkFitsEmpty | telegram.js:72-79 | An update's chunk is empty exactly when the update does not emit, so every emitting update adds at least one signal. |
| Telegram.UpdateMessage | telegram.js:72 | The update has a message exactly when it has a message or a channel post, and the message wins when both are present. |
| Telegram.ConcatEmpty | telegram.js:69-108 | A batch's signals are empty exactly when every update's chunk is. |
| Telegram.TelegramWatcher.Spike | telegram.js:98-106 | Appends exactly the "Telegram Spike" record for the key (`SpikeSignal`): chain SOCIAL, velocity min(100, 10 × the mentions of the key now in the window), the given message, and reasons "Telegram mention", "Velocity <v>/100". |
| Telegram.TelegramWatcher.SignalMentions | telegram.js:97-107 | One spike record (`IsSpike`) per key, in key order, with the given message, appended after the old signals. Every key is then in the mention map. |
| Telegram.TelegramWatcher.ProcessUpdates | telegram.js:69-108 | The offset is exactly the one reached by taking `max(offset, id + 1)` for each update in turn. The batch appends one chunk per update, in order, after the old signals (`Concat`): nothing for an update that does not emit, what `MessageSignals` allows for the message of one that does. A batch with no emitting update leaves the signals and the mentions unchanged. No mention key is lost, and every new signal has a velocity in [10, 100]. |
| Telegram.OffsetAfterBounds | telegram.js:69-70 | After a batch the offset is at least the start offset and above every update id, and it is either the start offset or one past some update id. |
| FeedIndex.Strength | index.js:40 | min(100, 45·sCount + 18·aCount), in [0, 100]; 100 exactly when the sum reaches 100. |
| FeedIndex.StrengthMonotone | index.js:40 | More notes never lower the strength. |
| FeedIndex.ConvergenceLimit | index.js:83 | The limit is the query value, or 25 when there is none. |
| FeedIndex.Backend.constructor | index.js:1-26 | An empty feed and no counters. |
| FeedIndex.Backend.AddSignal | index.js:28-31 | The signal goes first, the older ones follow in order, and the feed is cut to 200. |
| FeedIndex.Backend.NoteConvergence | index.js:33-42 | Exactly one counter of the upper-cased token goes up by one: `sCount` for tier S, `aCount` otherwise. Its strength is recomputed, and no other row changes. |
| FeedIndex.Backend.Rows | index.js:85 | Exactly one row per stored token, each the stored row. |
| FeedIndex.Backend.Convergence | index.js:82-90 | `slice(0, limit)` lengths, sorted by strength descending, each a stored row, tokens distinct. A stored row that is cut is no stronger than any listed one. When fewer than the limit are listed, every stored row is listed. |
| FeedIndex.RankRows | index.js:86-87 | Sorted by strength, drawn from the input, distinct, of `slice` length. Every kept row is at least as strong as every input row that was cut. With nothing cut the result is a permutation of the input. |
| ServerGate.HttpsHost | src/server.js:34 | The host is what follows an `https://` prefix in any case. |
| ServerGate.IsAllowedOrigin | src/server.js:26-41 | An empty origin is refused. A `chrome-extension://` origin is accepted. Any other accepted origin is https on axiom.trade, dexscreener.com or one of their dotted subdomains. |
| ServerGate.AllowedOriginShape | src/server.js:33-38 | An accepted web origin has an https host that is one of the two domains or a subdomain of one. |
| ServerGate.SubdomainAdmitted | src/server.js:38 | A one-label subdomain of dexscreener.com is accepted. |
| ServerGate.LookalikeRefused | src/server.js:34 | A host that merely ends with "axiom.trade", with no dot in front, is refused. |
| ServerGate.PlainHttpRefused | src/server.js:26-41 | A plain-http origin is refused. |
| ServerGate.TrimmedNonBlank | src/server.js:79-82 | Trimmed, non-blank pieces; empty exactly when every piece is blank; each one comes from a piece. |
| ServerGate.LicenseKeys | src/server.js:79-82 | Every configured key is non-blank, trimmed and free of commas. |
| ServerGate.OpenModeIff | src/server.js:83 | Open mode holds exactly when every comma-separated piece is blank. |
| ServerGate.LicenseOkOutsideOpenMode | src/server.js:102-105 | With keys configured, "" and keys with surrounding white space are refused, and listed keys are accepted. |
| ServerGate.WhiteRun | src/server.js:92 | The greedy `\s+` run: all white space, and followed by none. |
| ServerGate.BearerGroup | src/server.js:92 | A match captures a non-empty suffix of the header. |
| ServerGate.BearerGroupMatchesPattern | src/server.js:92-93 | The capture exists exactly when some split of the header matches `^Bearer\s+(.+)$` case-insensitively. It is the capture of the longest white-space run that leaves a non-empty, line-terminator-free rest. |
| ServerGate.GetLicenseFromReq | src/server.js:85-100 | A trimmed `x-ms-license` wins. Then a Bearer capture, trimmed. Then the trimmed `x-ms-key`. The answer is always trimmed. |
| ServerGate.BlankBearerHidesKeyHeader | src/server.js:91-97 | "Bearer" followed by two or more white-space characters, the last not a line terminator, matches with the last character as the group. It gives the key "", even when `x-ms-key` holds a key. "Bearer" followed by a single white-space character does not match, and gives the trimmed `x-ms-key`. |
| ServerGate.MaxWalletsForTier | src/server.js:168-173 | 0 exactly for CORE, 10 exactly for PRO or a missing tier, 50 for anything else, case-insensitively. |
| ServerGate.SolanaAddrTrimmed | src/server.js:179-187 | A valid Solana address stays valid after trimming and contains no white space and no `\|`. |
| ServerGate.Cleaned | src/server.js:401-406 | The pushed entry has the trimmed address and a label of at most 24 characters. It is enabled unless explicitly false, and its creation time is the given one or now. |
| ServerGate.AllCleaned | src/server.js:400-406 | The acceptable entries, cleaned, are each a trimmed Solana address. |
| ServerGate.CleanWallets | src/server.js:399-408 | The loop returns the first max(1, max) acceptable entries, cleaned, in input order. |
| ServerGate.CoreKeepsOneWallet | src/server.js:406-407 | A CORE user with any acceptable wallet keeps exactly one. |
| ServerGate.AcceptableIsKept | src/server.js:400-406 | The cleaned list is empty exactly when no entry is acceptable. |
| ServerStore.PushCappedShape | src/server.js:371-372 | `unshift` then one `pop` past the cap: the new entry first, the older ones in order, and the cap still holds. |
| ServerStore.PushNewPairKeepsDistinct | src/server.js:472-475 | Logging a (wallet, mint) pair that is not yet logged keeps the pairs distinct. |
| ServerStore.RecentWallets | src/server.js:481-484 | The distinct wallets of recent buys of the mint number at most the buys. |
| ServerStore.RecentWalletsIff | src/server.js:481-484 | A wallet is counted exactly when one of its buys of the mint is in the window. |
| ServerStore.HitWallets | src/server.js:491-493 | The hit lists only counted wallets, at most one per user wallet. |
| ServerStore.HitWalletsComplete | src/server.js:491-493 | Every counted wallet of the user is listed in the hit. |
| ServerStore.MinWallets | src/server.js:434 | At least 2; 3 when unset; the configured value when it is 2 or more. |
| ServerStore.TierOf | src/server.js:388 | The tier upper-cased, "PRO" when missing; the result holds no lower-case letter and has the length of the tier it came from. |
| ServerStore.Upserted | src/server.js:149-157 | The map then holds the hash and no other new key; every existing entry is kept, and a missing hash gets the initial value. |
| ServerStore.UpsertKeepsOk | src/server.js:149-157 | Upserting keeps every user row and log well formed. |
| ServerStore.SetWalletsKeepsOk | src/server.js:410-411 | Storing a list the tier allows keeps every user row well formed. |
| ServerStore.Backend.constructor | src/server.js:138-141 | Empty users, logs and feedback. |
| ServerStore.Backend.UpsertUser | src/server.js:149-157 | A new hash gets tier PRO, no wallets and empty logs. An existing one is untouched. |
| ServerStore.Backend.PostWalletHit | src/server.js:350-375 | 400 exactly without a token or a chain, and the user is upserted either way. Otherwise the hit, with its defaults and at most 25 wallets, goes first in a log capped at 1000. |
| ServerStore.Backend.WalletHits | src/server.js:377-382 | The newest min(100, limit or 25) hits: a prefix of the log. |
| ServerStore.Backend.GetWallets | src/server.js:385-390 | The upper-cased tier, its allowance and the stored wallets, which never exceed max(1, allowance). |
| ServerStore.Backend.PutWallets | src/server.js:392-414 | The cleaned list replaces the user's wallets. Nothing else changes beyond the upsert. |
| ServerStore.Backend.WalletIndex | src/server.js:438-448 | Each enabled, non-blank address maps to users that list it, and every such listing is indexed. |
| ServerStore.Backend.IndexUser | src/server.js:440-447 | The user is pushed under each of its enabled, non-blank addresses, and earlier entries are kept. |
| ServerStore.Backend.CountRecent | src/server.js:480-484 | The `uniq` map built by the loop holds exactly the recent wallets of the mint. |
| ServerStore.Backend.MaybeConverge | src/server.js:480-506 | A hit is logged exactly when the distinct recent wallets reach `minWallets` and no hit for the mint is in the window. It lists the counted wallets and goes first in the capped log. |
| ServerStore.Backend.IngestBuy | src/server.js:468-479 | A pair is logged exactly when it is new to this batch and to the user's buys. It then goes first in a log capped at 5000 and is marked as seen, and the hit log changes exactly as the convergence test over the new buy log says: a hit goes first when at least `minWallets` wallets bought the mint in the window and no hit for it lies in the window. Otherwise nothing changes. |
| ServerStore.Backend.IngestForUsers | src/server.js:468-508 | At most one buy per user is logged, and only pairs of these users, this wallet and this mint are marked as seen. |
| ServerStore.Backend.HeliusIngest | src/server.js:417-514 | 401 exactly when a secret is configured and the header differs. A 401 or an empty batch logs nothing. Users and feedback never change, and caps and pair uniqueness are kept. |
| ServerStore.Backend.PostFeedback | src/server.js:518-531 | 400 exactly without a chain, a pair or an outcome, with no change. Otherwise the entry goes first in a log capped at 5000. |
| ServerStore.Backend.RecentFeedback | src/server.js:532-535 | The newest min(200, limit or 50) entries: a prefix of the log. |
| Auth.Status | auth.js:26-41 | Only a passing request continues; 401, 403 and 402 are refusals. |
| Auth.PlanRank | auth.js:32-34 | Ranks are at most 3, and a plan outside basic, pro and enterprise ranks 0. |
| Auth.PlanOrder | auth.js:32-34 | free < basic < pro < enterprise, and an unknown name ranks with free. |
| Auth.RequestKey | auth.js:25 | The header key wins, then the query key; the key is empty only when both are. |
| Auth.Authorize | auth.js:23-43 | 401 exactly without a key. 403 exactly for an unknown or inactive key. Pass exactly for an active key whose plan ranks at least the requirement (default free), carrying that key's row. Otherwise 402 with both plan names. |
| Auth.FreeAdmitsEveryActiveKey | auth.js:23-38 | The default "free" requirement admits every active key. |
| Auth.PassIsDownwardClosed | auth.js:32-38 | A key admitted for a plan is admitted for every plan ranked no higher. |
| Auth.LicenseDb.constructor | auth.js:6-15 | Without a file the table holds the example key on plan pro. |
| Auth.LicenseDb.AddLicense | auth.js:46-50 | The key gets a new active row on the plan (default basic), replacing any earlier one. |
| Auth.LicenseDb.DeactivateLicense | auth.js:52-57 | False with no change for an unknown key. Otherwise the row is kept with `active` cleared. |
| Auth.AddedKeyPasses | auth.js:46-50 | After `addLicense(k, p)` a request with k passes every requirement ranked at most p. |
| Auth.DeactivatedKeyRefused | auth.js:52-57 | After `deactivateLicense(k)` a request with k gets 403 whatever it needs, and other keys are treated as before. |

## Left out

- Network and foreign calls are not modelled. This covers Dexscreener fetches, `fetchDexscreenerPair` (its result is a parameter), the Telegram `tg` call, the Helius watchers, the influencer stubs, the honeypot and rugcheck checks, key generation and the Shopify webhooks with their HMAC.
- The SHA-256 `licenseHash` is not modelled: the user's hash is a parameter.
- File persistence is not modelled. This covers `readJson`/`writeJson`/`saveAll` and the load/save of `wallet_rank.js`, `watchlist_store.js` and `auth.js`; every store starts from its empty or fallback in-memory state.
- Timers, `start`/`stop`, `server.listen`, the CORS middleware wiring, the `/assist` heuristics, `/test-signal`, `/feed`, `/feed/hc`, `/auth/verify`, `/health`, `/contract`, `onVelocity` and velocity `debug()` are not modelled. They carry no decision logic, or only floating-point heuristics.
- Reasons that embed numbers (`toFixed`, `toLocaleString`, template strings) are fixed tokens, except the Telegram spike's `Velocity <v>/100`, which is rendered with `Js.NatToString`; tags are left out.
- JavaScript `Number(...)` parsing and NaN are not modelled. Limits and counts are `Option<int>`, and `??`/`||` defaults are `Option` fields.
- Case mapping is ASCII only. Strings are sequences of code points, while JavaScript `.length` and `slice` (`slice(0, 100)`, `slice(0, 180)`, `slice(0, 24)`) count UTF-16 code units. A character outside the Basic Multilingual Plane therefore counts once here and twice in the source, and the source can cut it in half.
- Map and object iteration order is not modelled, so the order of ties in the sorts is left open.
- `new URL(...)` is not modelled: the parsed pathname is a parameter, `None` when the URL does not parse.
- The route handlers that sit behind `requireLicense` are modelled without that gate; the gate itself is `ServerGate.LicenseOk`.
- Object-prototype names inherited by plain-object tables are not modelled. This covers the `order` table and the license table in `auth.js`, and `state.wallets` in `wallet_rank.js`, where `ensure("constructor")` finds `Object.prototype.constructor` and creates no record.
- The watchlist item's other fields are a single opaque `rest` value. Non-string inputs to the decision-route helpers are not modelled.
- The `seenPairs` string keys are modelled as (user, wallet, mint) triples. The transfer-field fallbacks (`toUserAccount`/`toAccount`/`to`, `tokenAmount`/`amount`/`uiAmount`) are collapsed into one field each. Hit wallets posted to `POST /wallet/hit` are `HitWallet` records.
- `getState` of `wallet_rank.js` and `listLicenses` of `auth.js` are not modelled. They only return the whole state.
- Velocity.VelocityTracker.constructor: requires a non-negative window, because with a negative one the shifting loop of `push` never ends.
- Telegram.TelegramWatcher.AddMention: requires that `now` never runs backwards, because the front-only pruning keeps an old time behind a newer one when the clock steps back.
- Js.ToFixed2: rounds the exact real quotient. JavaScript rounds the nearest double, so a quotient that lies just off a half-way point can round the other way.
- Telegram.TickerKeys: states that every match of the expression gives its key and that each key is a `$` match of the text, not that each key comes from the greedy (longest) match.
- Telegram.TelegramWatcher.ProcessUpdate: states that an allowed message with text adds the quiet record or one or more spike records whose keys are found in the text, not the exact number of spikes, because the keys are computed inside the step. The same holds for each chunk of `EmitMessage` and `ProcessUpdates`.
- ServerStore.Backend.HeliusIngest: states the refusal and empty-batch cases and the preserved store invariant, not the full new logs of a batch. `IngestBuy` and `MaybeConverge` state each step exactly.
- ServerStore.Backend.HeliusIngest: the secret is one parameter, standing for the `x-ms-webhook-secret` header or, when that is absent or empty, the `x-helius-secret` header.
- WatchlistStore.Watchlist.List: returns the items as a value. The source returns the internal array itself, so a caller that mutates it changes the store; that aliasing is not modelled.
- ServerStore.Backend.IngestForUsers: bounds the number of buys logged rather than giving it exactly.
