/**
  The tier-aware decision engine of `score_engine.js`: a WAIT / ARM / READY /
  ENTER ladder over an overlay reading, with a "RUG WARNING" override and
  leading-indicator confirmations. Each tier carries its own threshold table.
*/
module ScoreEngine {
  import opened Js
  import opened Overlay

  datatype Tier = BASIC | PRO | PROPLUS

  datatype Thresholds = Thresholds(
    scoreEnter: real, scoreReady: real, scoreArm: real,
    rugMaxEnter: real, rugMaxReady: real, rugMaxArm: real,
    minConfirmations: int,
    volumeSurgeMultiplier: real, txAccelThreshold: real, buyRatioAccelMin: real,
    sellStreakMax: int)

  /** Hard rug warning threshold, the same on every tier. */
  const RugWarningThreshold: real := 82.0

  /** `TIER_THRESHOLDS`. */
  function TierThresholds(t: Tier): Thresholds {
    match t
    case BASIC => Thresholds(78.0, 70.0, 62.0, 60.0, 65.0, 70.0, 3, 3.0, 1.8, 0.15, 4)
    case PRO => Thresholds(72.0, 65.0, 58.0, 65.0, 70.0, 75.0, 2, 2.5, 1.5, 0.12, 5)
    case PROPLUS => Thresholds(68.0, 62.0, 55.0, 68.0, 72.0, 78.0, 2, 2.0, 1.4, 0.10, 6)
  }

  /** Every tier table is a proper ladder: stricter score bars and lower rug
      ceilings the further up the ladder a state is. */
  lemma TierLadderOrdered(t: Tier)
    ensures var th := TierThresholds(t);
            && th.scoreEnter > th.scoreReady > th.scoreArm
            && th.rugMaxEnter < th.rugMaxReady < th.rugMaxArm
  {
  }

  // ---------------------------------------------------------------------------
  // Tier resolution
  // ---------------------------------------------------------------------------

  /** What `extractTier` is handed: a tier name (`""` for a falsy value) or a
      feature object, given by the set of its keys whose value is `=== true`. */
  datatype TierInput = TierName(name: string) | TierFeatures(trueKeys: set<string>)

  /** `normalizeTier`. */
  function NormalizeTier(name: string): (t: Tier)
    ensures name == "" ==> t == BASIC
    ensures t == PROPLUS <==> ToLower(name) == "pro+" || ToLower(name) == "proplus"
    ensures t == PRO <==> ToLower(name) == "pro"
  {
    CaseInsensitiveEq(name, "PRO+", "pro+");
    CaseInsensitiveEq(name, "PROPLUS", "proplus");
    CaseInsensitiveEq(name, "PRO", "pro");
    if name == "" then BASIC
    else
      var u := ToUpper(name);
      if u == "PRO+" || u == "PROPLUS" then PROPLUS
      else if u == "PRO" then PRO
      else BASIC
  }

  /** For a word `up` of upper-case letters and symbols and `low` its lower-case
      spelling, `s` upper-cases to `up` exactly when it lower-cases to `low`. */
  lemma CaseInsensitiveEq(s: string, up: string, low: string)
    requires |up| == |low|
    requires forall i :: 0 <= i < |up| ==> !IsLower(up[i]) && UpperChar(low[i]) == up[i] && LowerChar(up[i]) == low[i] && (IsUpper(up[i]) || low[i] == up[i])
    ensures ToUpper(s) == up <==> ToLower(s) == low
  {
    if ToUpper(s) == up {
      assert |s| == |up|;
      forall i | 0 <= i < |s| ensures ToLower(s)[i] == low[i] {
        assert UpperChar(s[i]) == up[i];
      }
    }
    if ToLower(s) == low {
      assert |s| == |low|;
      forall i | 0 <= i < |s| ensures ToUpper(s)[i] == up[i] {
        assert LowerChar(s[i]) == low[i];
      }
    }
  }

  /** `extractTier`. */
  function ExtractTier(input: TierInput): (t: Tier)
    ensures input.TierFeatures? ==>
              (t == PROPLUS <==> "allAlgorithms" in input.trueKeys || "earlyAccess" in input.trueKeys)
    ensures input.TierFeatures? ==>
              (t == BASIC <==> "allAlgorithms" !in input.trueKeys && "earlyAccess" !in input.trueKeys
                               && "aiDecisionEngine" !in input.trueKeys && "momentumAcceleration" !in input.trueKeys)
    ensures input.TierName? ==> t == NormalizeTier(input.name)
  {
    match input
    case TierFeatures(keys) =>
      if "allAlgorithms" in keys || "earlyAccess" in keys then PROPLUS
      else if "aiDecisionEngine" in keys || "momentumAcceleration" in keys then PRO
      else BASIC
    case TierName(name) => NormalizeTier(name)
  }

  /** The keys set to `true` in the PROPLUS object of `TIER_FEATURES`
      (src/routes/license.js). */
  const ProPlusFeatureKeys: set<string> := {
    "rugWarnings", "waitWatchSignals", "liquidityDetection", "whaleDetection",
    "exitAlerts", "overlay", "aiDecisionEngine", "momentumDetection",
    "volumeSurgeAnalysis", "sellPressureTracking", "enterHoldExitStates",
    "multiTimeframeAnalysis", "smartMoneyFlow", "advancedRiskScoring",
    "earlyDistributionDetection", "prioritySignalExecution", "earlyFeatureAccess"
  }

  /** The PROPLUS feature object names its early-access flag `earlyFeatureAccess`
      while `extractTier` looks for `earlyAccess`, so a PROPLUS customer whose
      feature object is passed in is treated as PRO. */
  lemma ProPlusFeaturesResolveToPro()
    ensures ExtractTier(TierFeatures(ProPlusFeatureKeys)) == PRO
  {
    assert "earlyAccess" !in ProPlusFeatureKeys;
    assert "allAlgorithms" !in ProPlusFeatureKeys;
    assert "aiDecisionEngine" in ProPlusFeatureKeys;
  }

  // ---------------------------------------------------------------------------
  // Leading indicators
  // ---------------------------------------------------------------------------

  datatype Indicators = Indicators(buyRatioAccel: bool, txAccel: bool, volumeSurge: bool,
                                   sellStreak: bool, count: int)

  function Buys5(ov: Overlay): int { ov.buys5m.GetOr(0) }
  function Sells5(ov: Overlay): int { ov.sells5m.GetOr(0) }

  /** Share of buys among the 5-minute transactions, 0.5 when there are none. */
  function BuyRatio(ov: Overlay): real {
    var tx5 := Buys5(ov) + Sells5(ov);
    if tx5 > 0 then Buys5(ov) as real / tx5 as real else 0.5
  }

  predicate BuyRatioAccelFires(ov: Overlay, th: Thresholds) {
    BuyRatio(ov) - ov.buyRatioPrev.GetOr(0.5) > th.buyRatioAccelMin
  }

  predicate TxAccelFires(ov: Overlay, th: Thresholds) {
    var tx5 := Buys5(ov) + Sells5(ov);
    var prev := ov.tx5mPrev.GetOr(0);
    (if prev > 0 then tx5 as real / prev as real else 1.0) >= th.txAccelThreshold
  }

  predicate VolumeSurgeFires(ov: Overlay, th: Thresholds) {
    var vol5m := ov.volume5m.GetOr(0.0);
    var baseline := ov.volume5mBaseline.GetOr(vol5m);
    (if baseline > 0.0 then vol5m / baseline else 1.0) >= th.volumeSurgeMultiplier
  }

  /** The sell-streak bar is two below the tier's maximum, but never below 3. */
  function SellStreakMin(th: Thresholds): int { MaxInt(3, th.sellStreakMax - 2) }

  predicate SellStreakFires(ov: Overlay, th: Thresholds) {
    ov.sellStreakCount.GetOr(0) >= SellStreakMin(th)
  }

  function B2I(b: bool): int { if b then 1 else 0 }

  /** How many of the four leading indicators fire. */
  function IndicatorCount(ov: Overlay, th: Thresholds): int {
    B2I(BuyRatioAccelFires(ov, th)) + B2I(TxAccelFires(ov, th))
    + B2I(VolumeSurgeFires(ov, th)) + B2I(SellStreakFires(ov, th))
  }

  /** Thresholds under which a quiet overlay raises no indicator. */
  predicate QuietSafe(th: Thresholds) {
    th.buyRatioAccelMin >= 0.0 && th.txAccelThreshold > 1.0 && th.volumeSurgeMultiplier > 1.0
  }

  /** No transactions, no previous values, no baseline and no sell streak. */
  predicate QuietOverlay(ov: Overlay) {
    ov.buys5m.None? && ov.sells5m.None? && ov.buyRatioPrev.None? && ov.tx5mPrev.None?
    && ov.volume5mBaseline.None? && ov.sellStreakCount.None?
  }

  lemma TierThresholdsQuietSafe(t: Tier)
    ensures QuietSafe(TierThresholds(t))
  {
  }

  /** With no transactions, no previous values, no baseline and no sell
      streak, no leading indicator fires. */
  lemma QuietOverlayRaisesNothing(ov: Overlay, th: Thresholds)
    requires QuietOverlay(ov) && QuietSafe(th)
    ensures IndicatorCount(ov, th) == 0
  {
    var vol5m := ov.volume5m.GetOr(0.0);
    if vol5m > 0.0 {
      assert vol5m / vol5m == 1.0;
    }
  }

  /** `detectLeadingIndicators`. */
  method DetectLeadingIndicators(ov: Overlay, th: Thresholds) returns (ind: Indicators)
    ensures ind.buyRatioAccel == BuyRatioAccelFires(ov, th)
    ensures ind.txAccel == TxAccelFires(ov, th)
    ensures ind.volumeSurge == VolumeSurgeFires(ov, th)
    ensures ind.sellStreak == SellStreakFires(ov, th)
    ensures ind.count == IndicatorCount(ov, th)
    ensures 0 <= ind.count <= 4
    ensures ind.count == B2I(ind.buyRatioAccel) + B2I(ind.txAccel) + B2I(ind.volumeSurge) + B2I(ind.sellStreak)
  {
    ind := Indicators(false, false, false, false, 0);

    var buys5 := Buys5(ov);
    var sells5 := Sells5(ov);
    var tx5 := buys5 + sells5;
    var buyRatio := if tx5 > 0 then buys5 as real / tx5 as real else 0.5;
    var buyRatioPrev := ov.buyRatioPrev.GetOr(0.5);
    var buyRatioAccel := buyRatio - buyRatioPrev;
    if buyRatioAccel > th.buyRatioAccelMin {
      ind := ind.(buyRatioAccel := true, count := ind.count + 1);
    }
    assert ind.buyRatioAccel == BuyRatioAccelFires(ov, th);
    assert ind.count == B2I(ind.buyRatioAccel) && !ind.txAccel && !ind.volumeSurge && !ind.sellStreak;

    var tx5Prev := ov.tx5mPrev.GetOr(0);
    var txAccelRatio := if tx5Prev > 0 then tx5 as real / tx5Prev as real else 1.0;
    if txAccelRatio >= th.txAccelThreshold {
      ind := ind.(txAccel := true, count := ind.count + 1);
    }
    assert ind.txAccel == TxAccelFires(ov, th);
    assert ind.count == B2I(ind.buyRatioAccel) + B2I(ind.txAccel) && !ind.volumeSurge && !ind.sellStreak;

    var vol5m := ov.volume5m.GetOr(0.0);
    var vol5mBaseline := ov.volume5mBaseline.GetOr(vol5m);
    var volumeSurgeRatio := if vol5mBaseline > 0.0 then vol5m / vol5mBaseline else 1.0;
    if volumeSurgeRatio >= th.volumeSurgeMultiplier {
      ind := ind.(volumeSurge := true, count := ind.count + 1);
    }
    assert ind.volumeSurge == VolumeSurgeFires(ov, th);
    assert ind.count == B2I(ind.buyRatioAccel) + B2I(ind.txAccel) + B2I(ind.volumeSurge) && !ind.sellStreak;

    var sellStreakCount := ov.sellStreakCount.GetOr(0);
    var sellStreakMinThreshold := MaxInt(3, th.sellStreakMax - 2);
    if sellStreakCount >= sellStreakMinThreshold {
      ind := ind.(sellStreak := true, count := ind.count + 1);
    }
  }

  // ---------------------------------------------------------------------------
  // The decision
  // ---------------------------------------------------------------------------

  /** The actions of the ladder; `Label` gives the strings the engine emits. */
  datatype Action = Wait | Arm | Ready | Enter | RugWarning

  function Label(a: Action): string {
    match a
    case Wait => "WAIT"
    case Arm => "ARM"
    case Ready => "READY"
    case Enter => "ENTER"
    case RugWarning => "RUG WARNING"
  }

  datatype Decision = Decision(action: Action, confidence: int, reasons: seq<string>)

  /** A crash seen right now: the rug reading's crash flag, a 5-minute drop of
      18% or more, a 1-hour drop of 35% or more, or 35% of liquidity gone. */
  predicate CrashNow(ov: Overlay) {
    RugCrash(ov) || Chg5m(ov) <= -18.0 || Chg1h(ov) <= -35.0 || LiqDrop(ov) >= 35.0
  }

  predicate EarlyRugSignal(ov: Overlay, th: Thresholds) {
    SellStreakFires(ov, th) && (Chg5m(ov) <= -10.0 || LiqDrop(ov) >= 25.0)
  }

  predicate RugTrigger(ov: Overlay, tier: Tier) {
    var th := TierThresholds(tier);
    CrashNow(ov) || Rug(ov) >= RugWarningThreshold
    || (tier != BASIC && EarlyRugSignal(ov, th) && IndicatorCount(ov, th) >= th.minConfirmations)
  }

  predicate BaseEnter(ov: Overlay, th: Thresholds) {
    Score(ov) >= th.scoreEnter && Rug(ov) <= th.rugMaxEnter && Rising(ov)
    && !Trap(ov).trap && Zone(ov) != "CHASE"
  }

  predicate StandardEnter(ov: Overlay, th: Thresholds) {
    BaseEnter(ov, th)
    && (Breakout(ov) || (Liq(ov) >= 50000.0 && Vol(ov) >= 120000.0))
    && (ConvStatus(ov) == "STRONG" || ConvStatus(ov) == "MED")
  }

  predicate EarlyEnter(ov: Overlay, tier: Tier) {
    var th := TierThresholds(tier);
    tier != BASIC && BaseEnter(ov, th) && IndicatorCount(ov, th) >= th.minConfirmations
    && (BuyRatioAccelFires(ov, th) || TxAccelFires(ov, th) || VolumeSurgeFires(ov, th))
    && (Liq(ov) >= 30000.0 || Vol(ov) >= 80000.0)
  }

  predicate ReadyCond(ov: Overlay, th: Thresholds) {
    Score(ov) >= th.scoreReady && Rug(ov) <= th.rugMaxReady && (Rising(ov) || Breakout(ov))
  }

  predicate ArmCond(ov: Overlay, th: Thresholds) {
    Score(ov) >= th.scoreArm && Rug(ov) <= th.rugMaxArm
  }

  /** The override branch: reasons headed by the fixed crash line. */
  method RugWarningDecision(ov: Overlay, ind: Indicators, earlyRugSignal: bool, crashNow: bool)
    returns (d: Decision)
    ensures d.action == RugWarning
    ensures d.confidence == (if earlyRugSignal && !crashNow then 85 else 98)
    ensures 2 <= |d.reasons| <= 6 && d.reasons[0] == "Rug/crash conditions detected"
    ensures d.reasons[|d.reasons| - 1] == "Rug risk"
  {
    var chg5m := Chg5m(ov);
    var chg1h := Chg1h(ov);
    var liqDrop := LiqDrop(ov);
    var why: seq<string> := [];
    if chg5m <= -18.0 { why := why + ["Crash 5m"]; }
    if chg1h <= -35.0 { why := why + ["Crash 1h"]; }
    if liqDrop >= 18.0 { why := why + ["Liquidity drop"]; }
    if ind.sellStreak { why := why + ["Sell streak detected"]; }
    why := why + ["Rug risk"];
    var all := ["Rug/crash conditions detected"] + why;
    d := Decision(RugWarning, if earlyRugSignal && !crashNow then 85 else 98, SlicePrefix(all, 7));
  }

  function RugGradient(rug: real): (a: Adjustment)
    ensures |a.why| <= 1 && (a.delta > 0 <==> rug <= 35.0) && (a.delta < 0 <==> rug >= 65.0)
    ensures -16 <= a.delta <= 10
  {
    if rug <= 35.0 then Adjustment(10, ["Rug risk reasonable"])
    else if rug >= 65.0 then Adjustment(-16, ["High rug risk"])
    else Adjustment(0, [])
  }

  function TrapPenalty(trap: TrapReading): (a: Adjustment)
    ensures |a.why| <= 1 && (a.delta < 0 <==> trap.trap) && -20 <= a.delta <= 0
  {
    if trap.trap then Adjustment(if trap.severity == "HIGH" then -20 else -12, ["Liquidity trap"])
    else Adjustment(0, [])
  }

  function AlphaBand(score: real): (a: Adjustment)
    ensures |a.why| <= 1 && (a.delta > 0 <==> score >= 78.0) && (a.delta < 0 <==> score < 60.0)
    ensures -12 <= a.delta <= 18
  {
    if score >= 85.0 then Adjustment(18, ["Alpha score very high"])
    else if score >= 78.0 then Adjustment(10, ["Alpha score high"])
    else if score < 60.0 then Adjustment(-12, ["Alpha score low"])
    else Adjustment(0, [])
  }

  function RisingBand(rising: bool): (a: Adjustment)
    ensures |a.why| == 1 && (a.delta > 0 <==> rising)
    ensures -6 <= a.delta <= 10
  {
    if rising then Adjustment(10, ["Social/flow rising"]) else Adjustment(-6, ["No acceleration"])
  }

  function BreakoutBand(breakout: bool): (a: Adjustment)
    ensures |a.why| == 1 && (a.delta > 0 <==> breakout)
    ensures -6 <= a.delta <= 12
  {
    if breakout then Adjustment(12, ["Breakout confirmed"]) else Adjustment(-6, ["No breakout confirmation"])
  }

  function ConvergenceBand(status: string): (a: Adjustment)
    ensures |a.why| == 1
    ensures a.delta < 0 <==> status != "STRONG" && status != "MED" && status != "WEAK"
    ensures -3 <= a.delta <= 18
  {
    if status == "STRONG" then Adjustment(18, ["Convergence STRONG"])
    else if status == "MED" then Adjustment(9, ["Convergence MED"])
    else if status == "WEAK" then Adjustment(3, ["Convergence WEAK"])
    else Adjustment(-3, ["No convergence yet"])
  }

  function LiquidityBand(liq: real): (a: Adjustment)
    ensures |a.why| == 1 && (a.delta > 0 <==> liq >= 15000.0)
    ensures -12 <= a.delta <= 10
  {
    if liq >= 50000.0 then Adjustment(10, ["Liquidity healthy"])
    else if liq >= 15000.0 then Adjustment(4, ["Liquidity acceptable"])
    else Adjustment(-12, ["Liquidity low"])
  }

  function VolumeBand(vol: real): (a: Adjustment)
    ensures |a.why| <= 1 && (a.delta > 0 <==> vol >= 120000.0) && (a.delta < 0 <==> 0.0 < vol < 60000.0)
    ensures -8 <= a.delta <= 10
  {
    if vol >= 250000.0 then Adjustment(10, ["Volume strong"])
    else if vol >= 120000.0 then Adjustment(6, ["Volume decent"])
    else if vol > 0.0 && vol < 60000.0 then Adjustment(-8, ["Volume weak"])
    else Adjustment(0, [])
  }

  function ZoneBand(zone: string): (a: Adjustment)
    ensures |a.why| <= 1 && (a.delta < 0 <==> zone == "CHASE") && (a.delta > 0 <==> zone == "EARLY")
    ensures -18 <= a.delta <= 8
  {
    if zone == "CHASE" then Adjustment(-18, ["Entry = CHASE (overextended)"])
    else if zone == "EARLY" then Adjustment(8, ["Entry = EARLY (better RR)"])
    else Adjustment(0, [])
  }

  /** The confidence below the override before the clamp: 55 plus the nine
      adjustments. */
  function ScoreConfidence(ov: Overlay): int {
    55 + RugGradient(Rug(ov)).delta + TrapPenalty(Trap(ov)).delta + AlphaBand(Score(ov)).delta
    + RisingBand(Rising(ov)).delta + BreakoutBand(Breakout(ov)).delta + ConvergenceBand(ConvStatus(ov)).delta
    + LiquidityBand(Liq(ov)).delta + VolumeBand(Vol(ov)).delta + ZoneBand(Zone(ov)).delta
  }

  /** The reasons below the override, in the order the engine pushes them. */
  function ScoreReasons(ov: Overlay): seq<string> {
    RugGradient(Rug(ov)).why + TrapPenalty(Trap(ov)).why + AlphaBand(Score(ov)).why
    + RisingBand(Rising(ov)).why + BreakoutBand(Breakout(ov)).why + ConvergenceBand(ConvStatus(ov)).why
    + LiquidityBand(Liq(ov)).why + VolumeBand(Vol(ov)).why + ZoneBand(Zone(ov)).why
  }

  /** Four to nine reasons: the momentum, breakout, convergence and liquidity
      rules always give one. */
  lemma ScoreReasonsCount(ov: Overlay)
    ensures 4 <= |ScoreReasons(ov)| <= 9
  {
  }

  /** The unclamped confidence lies in [-46, 151], so the clamp can bite at
      both ends. */
  lemma ScoreConfidenceRange(ov: Overlay)
    ensures -46 <= ScoreConfidence(ov) <= 151
  {
  }

  /** With the other inputs fixed, the unclamped confidence never falls as the
      alpha score rises or as the rug risk falls. */
  lemma ScoreConfidenceMonotone(ov1: Overlay, ov2: Overlay)
    requires Score(ov1) <= Score(ov2) && Rug(ov1) >= Rug(ov2)
    requires Trap(ov1) == Trap(ov2) && Rising(ov1) == Rising(ov2) && Breakout(ov1) == Breakout(ov2)
    requires ConvStatus(ov1) == ConvStatus(ov2) && Liq(ov1) == Liq(ov2) && Vol(ov1) == Vol(ov2)
    requires Zone(ov1) == Zone(ov2)
    ensures ScoreConfidence(ov1) <= ScoreConfidence(ov2)
  {
    assert RugGradient(Rug(ov1)).delta <= RugGradient(Rug(ov2)).delta;
    assert AlphaBand(Score(ov1)).delta <= AlphaBand(Score(ov2)).delta;
  }

  /** The confidence adjustments below the override, in the order the engine
      applies them, clamped to [1, 99]. */
  method AdjustConfidence(ov: Overlay) returns (confidence: int, reasons: seq<string>)
    ensures confidence == ClampInt(ScoreConfidence(ov), 1, 99) && 1 <= confidence <= 99
    ensures reasons == ScoreReasons(ov) && 4 <= |reasons| <= 9
  {
    confidence := 55;
    var step := RugGradient(Rug(ov));
    confidence, reasons := confidence + step.delta, step.why;
    step := TrapPenalty(Trap(ov));
    confidence, reasons := confidence + step.delta, reasons + step.why;
    step := AlphaBand(Score(ov));
    confidence, reasons := confidence + step.delta, reasons + step.why;
    step := RisingBand(Rising(ov));
    confidence, reasons := confidence + step.delta, reasons + step.why;
    step := BreakoutBand(Breakout(ov));
    confidence, reasons := confidence + step.delta, reasons + step.why;
    step := ConvergenceBand(ConvStatus(ov));
    confidence, reasons := confidence + step.delta, reasons + step.why;
    step := LiquidityBand(Liq(ov));
    confidence, reasons := confidence + step.delta, reasons + step.why;
    step := VolumeBand(Vol(ov));
    confidence, reasons := confidence + step.delta, reasons + step.why;
    step := ZoneBand(Zone(ov));
    confidence, reasons := confidence + step.delta, reasons + step.why;
    ScoreReasonsCount(ov);
    confidence := ClampInt(confidence, 1, 99);
  }

  /** The tier-aware ladder: ARM, then READY, then ENTER by the standard path
      or, on PRO and PROPLUS, the early path. */
  method PickAction(ov: Overlay, tier: Tier, ind: Indicators) returns (action: Action, earlyOnly: bool)
    requires ind.buyRatioAccel == BuyRatioAccelFires(ov, TierThresholds(tier))
    requires ind.txAccel == TxAccelFires(ov, TierThresholds(tier))
    requires ind.volumeSurge == VolumeSurgeFires(ov, TierThresholds(tier))
    requires ind.count == IndicatorCount(ov, TierThresholds(tier))
    ensures var th := TierThresholds(tier);
            && (action == Enter <==> StandardEnter(ov, th) || EarlyEnter(ov, tier))
            && (action == Ready <==> !(StandardEnter(ov, th) || EarlyEnter(ov, tier)) && ReadyCond(ov, th))
            && (action == Arm <==> !(StandardEnter(ov, th) || EarlyEnter(ov, tier)) && !ReadyCond(ov, th) && ArmCond(ov, th))
            && (action == Wait <==> Score(ov) < th.scoreArm || Rug(ov) > th.rugMaxArm)
            && action != RugWarning
            && (earlyOnly <==> EarlyEnter(ov, tier) && !StandardEnter(ov, th))
  {
    var th := TierThresholds(tier);
    TierLadderOrdered(tier);
    var score := Score(ov);
    var rug := Rug(ov);
    var liq := Liq(ov);
    var vol := Vol(ov);
    var conv := ConvStatus(ov);
    var rising := Rising(ov);
    var breakout := Breakout(ov);

    action := Wait;
    if score >= th.scoreArm && rug <= th.rugMaxArm {
      action := Arm;
    }
    if score >= th.scoreReady && rug <= th.rugMaxReady && (rising || breakout) {
      action := Ready;
    }

    var baseEnterConditions := score >= th.scoreEnter && rug <= th.rugMaxEnter && rising
                               && !Trap(ov).trap && Zone(ov) != "CHASE";
    var confirmationsMet := ind.count >= th.minConfirmations;
    var standardEnter := baseEnterConditions
                         && (breakout || (liq >= 50000.0 && vol >= 120000.0))
                         && (conv == "STRONG" || conv == "MED");
    var earlyEnter := tier != BASIC && baseEnterConditions && confirmationsMet
                      && (ind.buyRatioAccel || ind.txAccel || ind.volumeSurge)
                      && (liq >= 30000.0 || vol >= 80000.0);
    earlyOnly := false;
    if standardEnter || earlyEnter {
      action := Enter;
      earlyOnly := earlyEnter && !standardEnter;
    }
  }

  /** `computeDecision(overlay, tierInput)`. */
  /** The decision below the override: the ladder's action, the adjusted
      confidence, and the reasons with "Early entry" appended for an entry
      that only the early path allows, cut to seven. */
  method LadderDecision(ov: Overlay, tier: Tier, ind: Indicators) returns (d: Decision)
    requires ind.buyRatioAccel == BuyRatioAccelFires(ov, TierThresholds(tier))
    requires ind.txAccel == TxAccelFires(ov, TierThresholds(tier))
    requires ind.volumeSurge == VolumeSurgeFires(ov, TierThresholds(tier))
    requires ind.count == IndicatorCount(ov, TierThresholds(tier))
    ensures var th := TierThresholds(tier);
            && (d.action == Enter <==> StandardEnter(ov, th) || EarlyEnter(ov, tier))
            && (d.action == Ready <==> !(StandardEnter(ov, th) || EarlyEnter(ov, tier)) && ReadyCond(ov, th))
            && (d.action == Arm <==> !(StandardEnter(ov, th) || EarlyEnter(ov, tier)) && !ReadyCond(ov, th) && ArmCond(ov, th))
            && (d.action == Wait <==> Score(ov) < th.scoreArm || Rug(ov) > th.rugMaxArm)
            && d.action != RugWarning
    ensures d.confidence == ClampInt(ScoreConfidence(ov), 1, 99) && 1 <= d.confidence <= 99
    ensures d.reasons == SlicePrefix(ScoreReasons(ov) + (if EarlyEnter(ov, tier) && !StandardEnter(ov, TierThresholds(tier))
                                                         then ["Early entry"] else []), 7)
    ensures |d.reasons| <= 7
  {
    var confidence, reasons := AdjustConfidence(ov);
    var action, earlyOnly := PickAction(ov, tier, ind);
    if earlyOnly {
      reasons := reasons + ["Early entry"];
    }
    d := Decision(action, confidence, SlicePrefix(reasons, 7));
  }

  method ComputeDecision(ov: Overlay, tierInput: TierInput) returns (d: Decision)
    ensures var tier := ExtractTier(tierInput);
            d.action == RugWarning <==> RugTrigger(ov, tier)
    // the override fires on every tier for a crash or a rug risk of 82 or more
    ensures CrashNow(ov) || Rug(ov) >= 82.0 ==> d.action == RugWarning
    ensures CrashNow(ov) ==> d.confidence == 98
    ensures d.action == RugWarning ==>
              && (d.confidence == 85 || d.confidence == 98)
              && d.reasons != [] && d.reasons[0] == "Rug/crash conditions detected"
    ensures d.action != RugWarning ==> 1 <= d.confidence <= 99
    ensures d.action != RugWarning ==> d.confidence == ClampInt(ScoreConfidence(ov), 1, 99)
    ensures var tier := ExtractTier(tierInput); var th := TierThresholds(tier);
            d.action != RugWarning ==>
              d.reasons == SlicePrefix(ScoreReasons(ov) + (if EarlyEnter(ov, tier) && !StandardEnter(ov, th)
                                                           then ["Early entry"] else []), 7)
    ensures |d.reasons| <= 7
    // the ladder below the override
    ensures var tier := ExtractTier(tierInput); var th := TierThresholds(tier);
            && (d.action == Enter <==> !RugTrigger(ov, tier) && (StandardEnter(ov, th) || EarlyEnter(ov, tier)))
            && (d.action == Enter ==> Score(ov) >= th.scoreEnter && Rug(ov) <= th.rugMaxEnter
                                      && Rising(ov) && !Trap(ov).trap && Zone(ov) != "CHASE")
            && (d.action == Enter && tier == BASIC ==>
                  (ConvStatus(ov) == "STRONG" || ConvStatus(ov) == "MED")
                  && (Breakout(ov) || (Liq(ov) >= 50000.0 && Vol(ov) >= 120000.0)))
            && (d.action == Ready ==> ReadyCond(ov, th) && (Rising(ov) || Breakout(ov)))
            && (d.action == Arm ==> ArmCond(ov, th) && !ReadyCond(ov, th))
            && (!RugTrigger(ov, tier) ==>
                  (d.action == Wait <==> Score(ov) < th.scoreArm || Rug(ov) > th.rugMaxArm))
  {
    var tier := ExtractTier(tierInput);
    var th := TierThresholds(tier);

    var indicators := DetectLeadingIndicators(ov, th);

    var crashNow := RugCrash(ov) || Chg5m(ov) <= -18.0 || Chg1h(ov) <= -35.0 || LiqDrop(ov) >= 35.0;
    var earlyRugSignal := indicators.sellStreak && (Chg5m(ov) <= -10.0 || LiqDrop(ov) >= 25.0);
    var rugTrigger := crashNow || Rug(ov) >= RugWarningThreshold
                      || (tier != BASIC && earlyRugSignal && indicators.count >= th.minConfirmations);

    if rugTrigger {
      d := RugWarningDecision(ov, indicators, earlyRugSignal, crashNow);
      return;
    }

    d := LadderDecision(ov, tier, indicators);
  }
}
