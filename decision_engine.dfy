/**
  `computeDecision(overlay)` of `decision_engine.js`: the older APE/WAIT gate
  with an extreme-rug override, a clamped confidence and a severity band.
*/
module DecisionEngine {
  import opened Js
  import opened Overlay

  datatype Action = Ape | Wait

  function ActionLabel(a: Action): string {
    match a
    case Ape => "APE"
    case Wait => "WAIT"
  }

  datatype Severity = Low | Med | High | Extreme

  function SeverityRank(s: Severity): int {
    match s
    case Low => 0
    case Med => 1
    case High => 2
    case Extreme => 3
  }

  datatype EngineDecision = EngineDecision(action: Action, confidence: int, severity: Severity, reasons: seq<string>)

  /** The severity band below the extreme override. */
  function SeverityFor(rug: real): Severity {
    if rug >= 65.0 then High else if rug >= 45.0 then Med else Low
  }

  /** A higher rug risk never gives a lower severity. */
  lemma SeverityMonotone(r1: real, r2: real)
    requires r1 <= r2
    ensures SeverityRank(SeverityFor(r1)) <= SeverityRank(SeverityFor(r2))
    ensures SeverityFor(r2) != Extreme
  {
  }

  predicate ApeCond(ov: Overlay) {
    Score(ov) >= 78.0 && Rug(ov) <= 60.0 && Rising(ov)
    && (Breakout(ov) || (Liq(ov) >= 50000.0 && Vol(ov) >= 120000.0))
  }

  // The adjustments below the override, one function per rule.

  function RugGate(rug: real): (a: Adjustment)
    ensures |a.why| <= 1 && (a.why == [] <==> a.delta == 0)
    ensures a.delta < 0 <==> rug >= 65.0
    ensures a.delta > 0 <==> rug <= 35.0
    ensures -18 <= a.delta <= 10
  {
    if rug >= 65.0 then Adjustment(-18, ["High rug risk \U{2014} size down / avoid"])
    else if rug <= 35.0 then Adjustment(10, ["Rug risk looks reasonable"])
    else Adjustment(0, [])
  }

  function ScoreBand(score: real): (a: Adjustment)
    ensures |a.why| <= 1 && (a.why == [] <==> a.delta == 0)
    ensures a.delta > 0 <==> score >= 78.0
    ensures a.delta < 0 <==> score < 60.0
    ensures -12 <= a.delta <= 18
  {
    if score >= 85.0 then Adjustment(18, ["Alpha score very high"])
    else if score >= 78.0 then Adjustment(10, ["Alpha score high"])
    else if score < 60.0 then Adjustment(-12, ["Alpha score low"])
    else Adjustment(0, [])
  }

  function AccelBand(rising: bool): (a: Adjustment)
    ensures |a.why| == 1 && a.delta != 0
    ensures a.delta > 0 <==> rising
    ensures -6 <= a.delta <= 10
  {
    if rising then Adjustment(10, ["Social velocity accelerating"])
    else Adjustment(-6, ["No clear social acceleration yet"])
  }

  function BreakoutBand(breakout: bool): (a: Adjustment)
    ensures |a.why| == 1 && a.delta != 0
    ensures a.delta > 0 <==> breakout
    ensures -6 <= a.delta <= 12
  {
    if breakout then Adjustment(12, ["Breakout confirmation present"])
    else Adjustment(-6, ["No breakout confirmation yet"])
  }

  function LiquidityBand(liq: real): (a: Adjustment)
    ensures |a.why| == 1 && a.delta != 0
    ensures a.delta > 0 <==> liq >= 15000.0
    ensures -12 <= a.delta <= 10
  {
    if liq >= 50000.0 then Adjustment(10, ["Liquidity healthy"])
    else if liq >= 15000.0 then Adjustment(4, ["Liquidity acceptable"])
    else Adjustment(-12, ["Liquidity low (slippage risk)"])
  }

  function VolumeBand(vol: real): (a: Adjustment)
    ensures |a.why| <= 1 && (a.why == [] <==> a.delta == 0)
    ensures a.delta > 0 <==> vol >= 120000.0
    ensures a.delta < 0 <==> 0.0 < vol < 60000.0
    ensures -8 <= a.delta <= 10
  {
    if vol >= 250000.0 then Adjustment(10, ["Volume strong"])
    else if vol >= 120000.0 then Adjustment(6, ["Volume decent"])
    else if vol > 0.0 && vol < 60000.0 then Adjustment(-8, ["Volume weak"])
    else Adjustment(0, [])
  }

  function ExtensionBand(ch1h: real): (a: Adjustment)
    ensures |a.why| <= 1 && (a.why == [] <==> a.delta == 0)
    ensures a.delta < 0 <==> ch1h >= 12.0
    ensures -10 <= a.delta <= 0
  {
    if ch1h >= 35.0 then Adjustment(-10, ["Overextended 1h move \U{2014} chase risk"])
    else if ch1h >= 12.0 then Adjustment(-4, ["Fast 1h move \U{2014} be careful"])
    else Adjustment(0, [])
  }

  /** The confidence below the override before the clamp: 50 plus the seven
      adjustments. */
  function EngineConfidence(ov: Overlay): int {
    50 + RugGate(Rug(ov)).delta + ScoreBand(Score(ov)).delta + AccelBand(Rising(ov)).delta
    + BreakoutBand(Breakout(ov)).delta + LiquidityBand(Liq(ov)).delta + VolumeBand(Vol(ov)).delta
    + ExtensionBand(Chg1h(ov)).delta
  }

  /** The reasons below the override, in rule order, before the cut to six. */
  function EngineReasons(ov: Overlay): seq<string> {
    RugGate(Rug(ov)).why + ScoreBand(Score(ov)).why + AccelBand(Rising(ov)).why
    + BreakoutBand(Breakout(ov)).why + LiquidityBand(Liq(ov)).why + VolumeBand(Vol(ov)).why
    + ExtensionBand(Chg1h(ov)).why
  }

  /** Three to seven reasons: the acceleration, breakout and liquidity rules
      always give one. */
  lemma EngineReasonsCount(ov: Overlay)
    ensures 3 <= |EngineReasons(ov)| <= 7
  {
    assert |RugGate(Rug(ov)).why| <= 1 && |ScoreBand(Score(ov)).why| <= 1;
    assert |VolumeBand(Vol(ov)).why| <= 1 && |ExtensionBand(Chg1h(ov)).why| <= 1;
  }

  /** The unclamped confidence lies in [-22, 120], so the clamp can bite at
      both ends. */
  lemma EngineConfidenceRange(ov: Overlay)
    ensures -22 <= EngineConfidence(ov) <= 120
  {
  }

  /** With the other inputs fixed, the unclamped confidence never falls as the
      score rises or as the rug risk falls. */
  lemma EngineConfidenceMonotone(ov1: Overlay, ov2: Overlay)
    requires Score(ov1) <= Score(ov2) && Rug(ov1) >= Rug(ov2)
    requires Rising(ov1) == Rising(ov2) && Breakout(ov1) == Breakout(ov2)
    requires Liq(ov1) == Liq(ov2) && Vol(ov1) == Vol(ov2) && Chg1h(ov1) == Chg1h(ov2)
    ensures EngineConfidence(ov1) <= EngineConfidence(ov2)
  {
    assert RugGate(Rug(ov1)).delta <= RugGate(Rug(ov2)).delta;
    assert ScoreBand(Score(ov1)).delta <= ScoreBand(Score(ov2)).delta;
  }

  /** The empty overlay `{}` takes the WAIT path at confidence 24. */
  lemma EmptyOverlayConfidence()
    ensures Rug(EmptyOverlay) < 80.0 && !ApeCond(EmptyOverlay)
    ensures ClampInt(EngineConfidence(EmptyOverlay), 1, 99) == 24
  {
  }

  /** The adjustment steps of `computeDecision` below the override, each
      adding to the confidence and pushing its reason. */
  method Adjust(ov: Overlay) returns (confidence: int, reasons: seq<string>)
    ensures confidence == EngineConfidence(ov) && -22 <= confidence <= 120
    ensures reasons == EngineReasons(ov) && 3 <= |reasons| <= 7
  {
    confidence := 50;
    var a1 := RugGate(Rug(ov));
    confidence := confidence + a1.delta;
    reasons := a1.why;
    var a2 := ScoreBand(Score(ov));
    confidence, reasons := confidence + a2.delta, reasons + a2.why;
    var a3 := AccelBand(Rising(ov));
    confidence, reasons := confidence + a3.delta, reasons + a3.why;
    var a4 := BreakoutBand(Breakout(ov));
    confidence, reasons := confidence + a4.delta, reasons + a4.why;
    var a5 := LiquidityBand(Liq(ov));
    confidence, reasons := confidence + a5.delta, reasons + a5.why;
    var a6 := VolumeBand(Vol(ov));
    confidence, reasons := confidence + a6.delta, reasons + a6.why;
    var a7 := ExtensionBand(Chg1h(ov));
    confidence, reasons := confidence + a7.delta, reasons + a7.why;
    EngineReasonsCount(ov);
    EngineConfidenceRange(ov);
  }

  /** `computeDecision(overlay)`. */
  method ComputeDecision(ov: Overlay) returns (d: EngineDecision)
    ensures Rug(ov) >= 80.0 ==>
              && d.action == Wait && d.confidence == 95 && d.severity == Extreme
              && 1 <= |d.reasons| <= 4 && d.reasons[0] == "EXTREME rug risk \U{2014} do not ape"
              && d.reasons[1..] == SlicePrefix(RugReasons(ov), 3)
    ensures Rug(ov) < 80.0 ==>
              && (d.action == Ape <==> ApeCond(ov))
              && 1 <= d.confidence <= 99
              && d.severity == SeverityFor(Rug(ov))
              && d.confidence == ClampInt(EngineConfidence(ov), 1, 99)
              && d.reasons == SlicePrefix(EngineReasons(ov), 6)
              && 3 <= |d.reasons| <= 6
    ensures ov == EmptyOverlay ==> d.action == Wait && d.confidence == 24
  {
    var score := Score(ov);
    var rug := Rug(ov);
    var liq := Liq(ov);
    var vol := Vol(ov);
    var ch1h := Chg1h(ov);
    var rising := Rising(ov);
    var breakout := Breakout(ov);

    if rug >= 80.0 {
      d := EngineDecision(Wait, 95, Extreme,
                          ["EXTREME rug risk \U{2014} do not ape"] + SlicePrefix(RugReasons(ov), 3));
      return;
    }
    var confidence, reasons := Adjust(ov);
    if ov == EmptyOverlay {
      EmptyOverlayConfidence();
    }

    confidence := ClampInt(confidence, 1, 99);

    var ape := score >= 78.0 && rug <= 60.0 && rising && (breakout || (liq >= 50000.0 && vol >= 120000.0));

    d := EngineDecision(if ape then Ape else Wait, confidence,
                        if rug >= 65.0 then High else if rug >= 45.0 then Med else Low,
                        SlicePrefix(reasons, 6));
  }
}
