/**
  `scoreSignal` and `buildReasons` of `scoring.js`: the 0..100 signal score
  built from the wallet tier, the social velocity and optional Dexscreener
  numbers, and the matching list of human-readable reasons. A Dexscreener
  field that is not a number is `None` and is skipped.
*/
module Scoring {
  import opened Js

  datatype SignalInput = SignalInput(
    walletTier: string,          // "" when absent
    socialVelocity: real,
    dexLiquidityUsd: Option<real>,
    dexVolume24hUsd: Option<real>,
    priceChange1h: Option<real>,
    priceChange24h: Option<real>
  )

  // ---------------------------------------------------------------------------
  // The bands
  // ---------------------------------------------------------------------------

  function TierBoost(tier: string): int {
    if tier == "S" then 50 else if tier == "A" then 35 else if tier == "B" then 20
    else if tier == "C" then 10 else 0
  }

  /** `Math.min(30, Math.floor(socialVelocity / 3))`. */
  function SocialBoost(sv: real): (b: int)
    ensures b <= 30
    ensures sv >= 0.0 ==> b >= 0
  {
    MinInt(30, (sv / 3.0).Floor)
  }

  function LiquidityBoost(liq: real): int {
    if liq >= 100000.0 then 18 else if liq >= 50000.0 then 14 else if liq >= 20000.0 then 10
    else if liq >= 10000.0 then 6 else if liq >= 5000.0 then 3 else -4
  }

  function VolumeBoost(vol: real): int {
    if vol >= 500000.0 then 12 else if vol >= 200000.0 then 9 else if vol >= 100000.0 then 7
    else if vol >= 25000.0 then 4 else -2
  }

  function Momentum1hBoost(chg: real): int {
    if chg >= 80.0 then 8 else if chg >= 30.0 then 5 else if chg <= -40.0 then -6 else 0
  }

  function Momentum24hBoost(chg: real): int {
    if chg >= 200.0 then 6 else if chg <= -60.0 then -6 else 0
  }

  /** A band applied only when the field is a number. */
  function WhenNumber(x: Option<real>, band: real -> int): int {
    if x.Some? then band(x.value) else 0
  }

  /** The score before the final clamp. */
  function RawScore(input: SignalInput): int {
    20 + TierBoost(input.walletTier) + SocialBoost(input.socialVelocity)
    + WhenNumber(input.dexLiquidityUsd, LiquidityBoost)
    + WhenNumber(input.dexVolume24hUsd, VolumeBoost)
    + WhenNumber(input.priceChange1h, Momentum1hBoost)
    + WhenNumber(input.priceChange24h, Momentum24hBoost)
  }

  /** Position of a wallet tier: S above A above B above C above anything else. */
  function TierRank(tier: string): int {
    if tier == "S" then 4 else if tier == "A" then 3 else if tier == "B" then 2
    else if tier == "C" then 1 else 0
  }

  /** The tier boost follows the tier order strictly. */
  lemma TierBoostOrdered(t1: string, t2: string)
    ensures TierRank(t1) < TierRank(t2) ==> TierBoost(t1) < TierBoost(t2)
    ensures TierRank(t1) == TierRank(t2) ==> TierBoost(t1) == TierBoost(t2)
  {
  }

  /** With every other input fixed, a better wallet tier never lowers the score. */
  lemma ScoreMonotoneInTier(input: SignalInput, better: string)
    requires TierRank(input.walletTier) <= TierRank(better)
    ensures ClampInt(RawScore(input), 0, 100) <= ClampInt(RawScore(input.(walletTier := better)), 0, 100)
  {
    TierBoostOrdered(input.walletTier, better);
  }

  /** The liquidity and volume bands never go down as their input goes up. */
  lemma BandsMonotone(a: real, b: real)
    requires a <= b
    ensures LiquidityBoost(a) <= LiquidityBoost(b)
    ensures VolumeBoost(a) <= VolumeBoost(b)
  {
  }

  /** Fields that are not numbers add nothing: such an input scores like one
      with only the wallet tier and the social velocity. */
  lemma NonNumbersContributeNothing(input: SignalInput)
    requires input.dexLiquidityUsd.None? && input.dexVolume24hUsd.None?
    requires input.priceChange1h.None? && input.priceChange24h.None?
    ensures RawScore(input) == 20 + TierBoost(input.walletTier) + SocialBoost(input.socialVelocity)
  {
  }

  /** `scoreSignal(input)`: an integer in [0, 100]. */
  method ScoreSignal(input: SignalInput) returns (score: int)
    ensures score == ClampInt(RawScore(input), 0, 100)
    ensures 0 <= score <= 100
  {
    score := 20;

    if input.walletTier == "S" { score := score + 50; }
    else if input.walletTier == "A" { score := score + 35; }
    else if input.walletTier == "B" { score := score + 20; }
    else if input.walletTier == "C" { score := score + 10; }
    assert score == 20 + TierBoost(input.walletTier);

    score := score + MinInt(30, (input.socialVelocity / 3.0).Floor);
    ghost var partial := score;
    assert partial == 20 + TierBoost(input.walletTier) + SocialBoost(input.socialVelocity);

    if input.dexLiquidityUsd.Some? {
      var liq := input.dexLiquidityUsd.value;
      if liq >= 100000.0 { score := score + 18; }
      else if liq >= 50000.0 { score := score + 14; }
      else if liq >= 20000.0 { score := score + 10; }
      else if liq >= 10000.0 { score := score + 6; }
      else if liq >= 5000.0 { score := score + 3; }
      else { score := score - 4; }
    }
    assert score == partial + WhenNumber(input.dexLiquidityUsd, LiquidityBoost);
    partial := score;

    if input.dexVolume24hUsd.Some? {
      var vol := input.dexVolume24hUsd.value;
      if vol >= 500000.0 { score := score + 12; }
      else if vol >= 200000.0 { score := score + 9; }
      else if vol >= 100000.0 { score := score + 7; }
      else if vol >= 25000.0 { score := score + 4; }
      else { score := score - 2; }
    }
    assert score == partial + WhenNumber(input.dexVolume24hUsd, VolumeBoost);
    partial := score;

    if input.priceChange1h.Some? {
      var chg := input.priceChange1h.value;
      if chg >= 80.0 { score := score + 8; }
      else if chg >= 30.0 { score := score + 5; }
      else if chg <= -40.0 { score := score - 6; }
    }
    assert score == partial + WhenNumber(input.priceChange1h, Momentum1hBoost);
    partial := score;
    if input.priceChange24h.Some? {
      var chg := input.priceChange24h.value;
      if chg >= 200.0 { score := score + 6; }
      else if chg <= -60.0 { score := score - 6; }
    }
    assert score == partial + WhenNumber(input.priceChange24h, Momentum24hBoost);

    // the score is a whole number already, so Math.round leaves it as it is
    score := ClampInt(score, 0, 100);
  }

  // ---------------------------------------------------------------------------
  // buildReasons
  // ---------------------------------------------------------------------------

  /** The social-velocity label, absent for a velocity of 0 or less. */
  function SocialLabel(sv: real): Option<string> {
    if sv >= 60.0 then Some("Social velocity: HIGH")
    else if sv >= 30.0 then Some("Social velocity: MED")
    else if sv > 0.0 then Some("Social velocity: LOW")
    else None
  }

  /** Each label belongs to exactly one velocity band. */
  lemma SocialLabelBands(sv: real)
    ensures SocialLabel(sv) == Some("Social velocity: HIGH") <==> sv >= 60.0
    ensures SocialLabel(sv) == Some("Social velocity: MED") <==> 30.0 <= sv < 60.0
    ensures SocialLabel(sv) == Some("Social velocity: LOW") <==> 0.0 < sv < 30.0
    ensures SocialLabel(sv).None? <==> sv <= 0.0
  {
    var high, med, low := "Social velocity: HIGH", "Social velocity: MED", "Social velocity: LOW";
    assert high[17] == 'H' && med[17] == 'M' && low[17] == 'L';
  }

  function Count(b: bool): int { if b then 1 else 0 }

  /** The one line pushed when `present` holds. */
  function Line(present: bool, line: string): (r: seq<string>)
    ensures |r| == Count(present)
  {
    if present then [line] else []
  }

  lemma AppendKeepsHead(head: seq<string>, a: seq<string>, b: seq<string>, c: seq<string>, d: seq<string>)
    ensures var r := head + a + b + c + d;
            |r| == |head| + |a| + |b| + |c| + |d| && r[..|head|] == head
  {
    var r := head + a + b + c + d;
    assert r == head + (a + b + c + d);
  }

  /** `buildReasons(input)`: one line per present input, the wallet tier first,
      the social label next; at most six lines, so the final `slice(0, 6)`
      never drops one. */
  method BuildReasons(input: SignalInput) returns (r: seq<string>)
    ensures |r| == Count(input.walletTier != "") + Count(SocialLabel(input.socialVelocity).Some?)
                   + Count(input.dexLiquidityUsd.Some?) + Count(input.dexVolume24hUsd.Some?)
                   + Count(input.priceChange1h.Some?) + Count(input.priceChange24h.Some?)
    ensures |r| <= 6
    ensures input.walletTier != "" ==> r[0] == "Wallet tier: " + input.walletTier
    ensures SocialLabel(input.socialVelocity).Some? ==>
              r[Count(input.walletTier != "")] == SocialLabel(input.socialVelocity).value
  {
    r := [];
    if input.walletTier != "" { r := r + ["Wallet tier: " + input.walletTier]; }

    var sv := input.socialVelocity;
    if sv >= 60.0 { r := r + ["Social velocity: HIGH"]; }
    else if sv >= 30.0 { r := r + ["Social velocity: MED"]; }
    else if sv > 0.0 { r := r + ["Social velocity: LOW"]; }
    ghost var head := r;
    assert |head| == Count(input.walletTier != "") + Count(SocialLabel(sv).Some?);
    assert input.walletTier != "" ==> head[0] == "Wallet tier: " + input.walletTier;
    assert SocialLabel(sv).Some? ==> head[Count(input.walletTier != "")] == SocialLabel(sv).value;

    ghost var a, b, c, d := Line(input.dexLiquidityUsd.Some?, "Liquidity"), Line(input.dexVolume24hUsd.Some?, "Vol(24h)"),
                            Line(input.priceChange1h.Some?, "1h"), Line(input.priceChange24h.Some?, "24h");
    r := r + Line(input.dexLiquidityUsd.Some?, "Liquidity");
    r := r + Line(input.dexVolume24hUsd.Some?, "Vol(24h)");
    r := r + Line(input.priceChange1h.Some?, "1h");
    r := r + Line(input.priceChange24h.Some?, "24h");
    AppendKeepsHead(head, a, b, c, d);
    assert |r| <= 6;

    r := SlicePrefix(r, 6);
  }
}
