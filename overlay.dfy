/**
  The "overlay" reading that the decision engines of `score_engine.js` and
  `decision_engine.js` receive: market metrics of one pair plus readings
  computed elsewhere (rug risk, convergence, liquidity trap, entry zone).
  Every field may be absent; the accessors below apply the defaults those
  files write with `?? 0`, `=== true` and `|| { ... }`.
*/
module Overlay {
  import opened Js

  /** `overlay.rug`: `{ risk, crash, reasons }`. */
  datatype RugReading = RugReading(risk: Option<real>, crash: Option<bool>, reasons: Option<seq<string>>)

  /** `overlay.convergence`: only its `status` steers a decision. */
  datatype ConvergenceReading = ConvergenceReading(status: string)

  /** `overlay.liqTrap`: `{ trap, severity }`. */
  datatype TrapReading = TrapReading(trap: bool, severity: string)

  /** `overlay.entryZone`: `{ zone }`. */
  datatype ZoneReading = ZoneReading(zone: string)

  datatype Overlay = Overlay(
    score: Option<real>,
    rug: Option<RugReading>,
    dexLiquidityUsd: Option<real>,
    dexVolume24hUsd: Option<real>,
    priceChange5m: Option<real>,
    priceChange1h: Option<real>,
    liqDropPct: Option<real>,
    rising: Option<bool>,
    breakout: Option<bool>,
    convergence: Option<ConvergenceReading>,
    liqTrap: Option<TrapReading>,
    entryZone: Option<ZoneReading>,
    buys5m: Option<int>,
    sells5m: Option<int>,
    buyRatioPrev: Option<real>,
    tx5mPrev: Option<int>,
    volume5m: Option<real>,
    volume5mBaseline: Option<real>,
    sellStreakCount: Option<int>
  )

  /** One step of a confidence accumulator: the change of confidence and the
      reasons it appends (none, or one). */
  datatype Adjustment = Adjustment(delta: int, why: seq<string>)

  /** The empty overlay `{}`. */
  const EmptyOverlay: Overlay :=
    Overlay(None, None, None, None, None, None, None, None, None, None, None, None,
            None, None, None, None, None, None, None)

  function Score(ov: Overlay): real { ov.score.GetOr(0.0) }

  /** `Number(overlay?.rug?.risk ?? 0)`. */
  function Rug(ov: Overlay): real {
    if ov.rug.Some? then ov.rug.value.risk.GetOr(0.0) else 0.0
  }

  /** `overlay?.rug?.crash === true`. */
  predicate RugCrash(ov: Overlay) {
    ov.rug.Some? && ov.rug.value.crash == Some(true)
  }

  /** `overlay?.rug?.reasons || []`. */
  function RugReasons(ov: Overlay): seq<string> {
    if ov.rug.Some? then ov.rug.value.reasons.GetOr([]) else []
  }

  function Liq(ov: Overlay): real { ov.dexLiquidityUsd.GetOr(0.0) }
  function Vol(ov: Overlay): real { ov.dexVolume24hUsd.GetOr(0.0) }
  function Chg5m(ov: Overlay): real { ov.priceChange5m.GetOr(0.0) }
  function Chg1h(ov: Overlay): real { ov.priceChange1h.GetOr(0.0) }
  function LiqDrop(ov: Overlay): real { ov.liqDropPct.GetOr(0.0) }

  /** `overlay?.rising === true`. */
  predicate Rising(ov: Overlay) { ov.rising == Some(true) }

  /** `overlay?.breakout === true`. */
  predicate Breakout(ov: Overlay) { ov.breakout == Some(true) }

  /** `overlay?.convergence || { status: "NONE", ... }`. */
  function ConvStatus(ov: Overlay): string {
    if ov.convergence.Some? then ov.convergence.value.status else "NONE"
  }

  /** `overlay?.liqTrap || { trap: false, severity: "LOW" }`. */
  function Trap(ov: Overlay): TrapReading {
    ov.liqTrap.GetOr(TrapReading(false, "LOW"))
  }

  /** `overlay?.entryZone || { zone: "NEUTRAL", ... }`. */
  function Zone(ov: Overlay): string {
    if ov.entryZone.Some? then ov.entryZone.value.zone else "NEUTRAL"
  }
}
