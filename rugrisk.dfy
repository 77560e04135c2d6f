/**
  `computeRugRiskFromDexPair` of `rugrisk.js`: a base risk of 25 plus
  penalties for thin liquidity, a high FDV-to-liquidity ratio and volume
  without liquidity behind it, clamped to [0, 100]; a hard-fail flag; and a
  four-step level.
*/
module RugRisk {
  import opened Js
  import opened DexPair

  datatype Level = Low | Med | High | Hard

  function LevelLabel(l: Level): string {
    match l
    case Low => "LOW"
    case Med => "MED"
    case High => "HIGH"
    case Hard => "HARD"
  }

  /** Position of a level on the LOW < MED < HIGH < HARD scale. */
  function LevelRank(l: Level): int {
    match l
    case Low => 0
    case Med => 1
    case High => 2
    case Hard => 3
  }

  datatype RugReport = RugReport(risk: int, level: Level, hardFail: bool, reasons: seq<string>)

  // ---------------------------------------------------------------------------
  // The penalty table, one function per rule
  // ---------------------------------------------------------------------------

  function LiquidityPenalty(liq: real): int {
    if liq < 10000.0 then 30 else if liq < 25000.0 then 18 else 0
  }

  function LiquidityVerdict(liq: real): string {
    if liq < 10000.0 then "Very low liquidity"
    else if liq < 25000.0 then "Low liquidity"
    else "Liquidity looks ok"
  }

  /** Applies only when both FDV and liquidity are positive. */
  function FdvPenalty(fdv: real, liq: real): int {
    if fdv > 0.0 && liq > 0.0 then
      (if fdv / liq >= 400.0 then 22 else if fdv / liq >= 200.0 then 14 else 0)
    else 0
  }

  function VolumePenalty(vol: real, liq: real): int {
    if vol >= 300000.0 && liq < 25000.0 then 15 else 0
  }

  /** The risk before the clamp. */
  function RawRisk(liq: real, fdv: real, vol: real): int {
    25 + LiquidityPenalty(liq) + FdvPenalty(fdv, liq) + VolumePenalty(vol, liq)
  }

  /** The penalties are non-negative and add up to at most 67, so the raw
      risk is already inside [25, 92] and the [0, 100] clamp never changes it. */
  lemma RawRiskBounds(liq: real, fdv: real, vol: real)
    ensures 25 <= RawRisk(liq, fdv, vol) <= 92
    ensures ClampInt(RawRisk(liq, fdv, vol), 0, 100) == RawRisk(liq, fdv, vol)
  {
  }

  predicate HardFail(risk: int, liq: real, fdv: real) {
    risk >= 85 || liq < 5000.0 || (fdv > 0.0 && liq > 0.0 && fdv / liq > 500.0)
  }

  function LevelFor(hardFail: bool, risk: int): Level {
    if hardFail then Hard else if risk >= 65 then High else if risk >= 45 then Med else Low
  }

  /** Off the hard-fail path the level never goes down as the risk goes up. */
  lemma LevelMonotone(r1: int, r2: int)
    requires r1 <= r2
    ensures LevelRank(LevelFor(false, r1)) <= LevelRank(LevelFor(false, r2))
    ensures LevelFor(false, r2) != Hard
  {
  }

  /** `computeRugRiskFromDexPair(pair)`. */
  method ComputeRugRiskFromDexPair(pair: Pair) returns (r: RugReport)
    ensures var liq, fdv, vol := LiquidityUsd(pair), Fdv(pair), Volume24h(pair);
            && r.risk == RawRisk(liq, fdv, vol)
            && 25 <= r.risk <= 92
            && (r.hardFail <==> HardFail(r.risk, liq, fdv))
            && r.level == LevelFor(r.hardFail, r.risk)
            && (r.level == Hard <==> r.hardFail)
            && 1 <= |r.reasons| <= 3
            && r.reasons[0] == LiquidityVerdict(liq)
            && (FdvPenalty(fdv, liq) > 0 <==> r.reasons[1..] != [] && r.reasons[1] in {"FDV/LP extremely high", "FDV/LP high"})
            && (VolumePenalty(vol, liq) > 0 <==> r.reasons[|r.reasons| - 1] == "High vol without liquidity support")
    ensures pair == EmptyPair ==> r == RugReport(55, Hard, true, ["Very low liquidity"])
  {
    var liqUsd := LiquidityUsd(pair);
    var vol24 := Volume24h(pair);
    var fdv := Fdv(pair);

    var risk := 25;
    var reasons: seq<string> := [];

    if liqUsd < 10000.0 { risk := risk + 30; reasons := reasons + ["Very low liquidity"]; }
    else if liqUsd < 25000.0 { risk := risk + 18; reasons := reasons + ["Low liquidity"]; }
    else { reasons := reasons + ["Liquidity looks ok"]; }

    if fdv > 0.0 && liqUsd > 0.0 {
      var ratio := fdv / liqUsd;
      if ratio >= 400.0 { risk := risk + 22; reasons := reasons + ["FDV/LP extremely high"]; }
      else if ratio >= 200.0 { risk := risk + 14; reasons := reasons + ["FDV/LP high"]; }
    }

    if vol24 >= 300000.0 && liqUsd < 25000.0 {
      risk := risk + 15;
      reasons := reasons + ["High vol without liquidity support"];
    }

    RawRiskBounds(liqUsd, fdv, vol24);
    risk := ClampInt(risk, 0, 100);

    var hardFail := risk >= 85 || liqUsd < 5000.0 || (fdv > 0.0 && liqUsd > 0.0 && fdv / liqUsd > 500.0);
    var level := if hardFail then Hard else if risk >= 65 then High else if risk >= 45 then Med else Low;
    r := RugReport(risk, level, hardFail, reasons);
  }
}
