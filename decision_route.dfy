/**
  The `/decision` route of `src/routes/decision.js`: address and log-text
  helpers, the Dexscreener URL path parser, its own alpha score, rug risk and
  WAIT/ARM/READY/ENTER decision (constants differ from `score_engine.js`),
  and the request handler with the network fetch given as a parameter.
*/
module DecisionRoute {
  import opened Js
  import opened DexPair
  import ScoreEngine

  type Action = ScoreEngine.Action

  // ---------------------------------------------------------------------------
  // isValidAddress / sanitizeForLog
  // ---------------------------------------------------------------------------

  /** `/^0x[a-fA-F0-9]{40}$/`. */
  predicate IsEvmAddress(a: string) {
    |a| == 42 && a[0] == '0' && a[1] == 'x' && AllHex(a[2..])
  }

  /** `/^[1-9A-HJ-NP-Za-km-z]{32,44}$/`. */
  predicate IsBase58Address(a: string) {
    32 <= |a| <= 44 && AllBase58(a)
  }

  /** `isValidAddress(address)`; the empty string is falsy and fails. */
  function IsValidAddress(a: string): (ok: bool)
    ensures ok <==> IsEvmAddress(a) || IsBase58Address(a)
    ensures ok ==> 32 <= |a| <= 44
    ensures ok ==> forall i :: 0 <= i < |a| ==> IsWordChar(a[i])
    ensures a == [] ==> !ok
  {
    if a == [] then false
    else if IsEvmAddress(a) then
      assert forall j :: 0 <= j < |a| - 2 ==> IsHexChar(a[2..][j]);
      assert forall i :: 2 <= i < |a| ==> a[i] == a[2..][i - 2];
      true
    else if IsBase58Address(a) then
      assert forall i :: 0 <= i < |a| ==> IsBase58Char(a[i]);
      true
    else false
  }

  predicate IsLogControl(c: char) { c == '\r' || c == '\n' || c == '\t' }

  /** `replace(/[\r\n\t]/g, "")`. */
  function RemoveLogControls(s: string): (r: string)
    ensures |r| <= |s|
    ensures |s| == 1 ==> r == (if IsLogControl(s[0]) then [] else s)
    ensures forall i :: 0 <= i < |r| ==> !IsLogControl(r[i])
    ensures (forall i :: 0 <= i < |s| ==> !IsLogControl(s[i])) ==> r == s
  {
    if s == [] then []
    else if IsLogControl(s[0]) then RemoveLogControls(s[1..])
    else [s[0]] + RemoveLogControls(s[1..])
  }

  /** Removing the controls of a concatenation removes them piece by piece, so
      together with the one-character case the kept characters stay in order. */
  lemma {:induction false} RemoveLogControlsAppend(a: string, b: string)
    ensures RemoveLogControls(a + b) == RemoveLogControls(a) + RemoveLogControls(b)
  {
    if a != [] {
      RemoveLogControlsAppend(a[1..], b);
      assert (a + b)[0] == a[0];
      assert (a + b)[1..] == a[1..] + b;
    } else {
      assert a + b == b;
    }
  }

  /** `sanitizeForLog(input)`: at most 100 characters and no CR, LF or tab. */
  function SanitizeForLog(input: string): (r: string)
    ensures |r| <= 100
    ensures forall i :: 0 <= i < |r| ==> !IsLogControl(r[i])
    ensures input == [] ==> r == []
    ensures |input| <= 100 && (forall i :: 0 <= i < |input| ==> !IsLogControl(input[i])) ==> r == input
  {
    if input == [] then [] else RemoveLogControls(SlicePrefix(input, 100))
  }

  /** Sanitising an already sanitised text changes nothing. */
  lemma SanitizeIdempotent(input: string)
    ensures SanitizeForLog(SanitizeForLog(input)) == SanitizeForLog(input)
  {
  }

  /** A valid address is at most 44 characters long, so the 100-character
      limit checked after validation never fails, and its log form is itself. */
  lemma ValidAddressFitsLog(a: string)
    requires IsValidAddress(a)
    ensures |a| <= 100
    ensures SanitizeForLog(a) == a
  {
    assert forall i :: 0 <= i < |a| ==> IsWordChar(a[i]) ==> !IsLogControl(a[i]);
  }

  // ---------------------------------------------------------------------------
  // parseDexscreenerUrl
  // ---------------------------------------------------------------------------

  /** `split("/").filter(Boolean)`. */
  function Segments(path: string): (parts: seq<string>)
    ensures forall i :: 0 <= i < |parts| ==> parts[i] != "" && '/' !in parts[i]
    ensures '/' !in path ==> parts == (if path == "" then [] else [path])
  {
    var pieces := Split(path, '/');
    assert '/' !in path ==> NonEmpty(pieces) == (if path == "" then [] else [path]) by {
      if '/' !in path {
        SplitNoSep(path);
        assert [path][1..] == [];
        assert NonEmpty([path][1..]) == [];
      }
    }
    NonEmpty(pieces)
  }

  function NonEmpty(parts: seq<string>): (r: seq<string>)
    requires forall i :: 0 <= i < |parts| ==> '/' !in parts[i]
    ensures forall i :: 0 <= i < |r| ==> r[i] != "" && '/' !in r[i]
  {
    if parts == [] then []
    else if parts[0] == "" then NonEmpty(parts[1..])
    else [parts[0]] + NonEmpty(parts[1..])
  }

  datatype Parsed = Parsed(chain: Option<string>, pairOrToken: string, isPair: bool, isToken: bool)

  /** `parseDexscreenerUrl(url)`. `pathname` is what `new URL(url)` gives,
      `None` when that constructor throws. */
  function ParseDexscreenerUrl(url: string, pathname: Option<string>): (r: Option<Parsed>)
    ensures r.Some? <==> url != "" && pathname.Some? && |Segments(pathname.value)| >= 2
    ensures r.Some? ==> var parts := Segments(pathname.value);
              && r.value.pairOrToken != "" && '/' !in r.value.pairOrToken
              && (r.value.isToken <==> parts[0] == "token")
              && (r.value.isToken <==> r.value.chain.None?)
              && (r.value.isPair <==> !r.value.isToken)
              && (parts[0] == "pair" && |parts| >= 3 ==> r.value == Parsed(Some(parts[1]), parts[2], true, false))
              && (parts[0] == "token" ==> r.value == Parsed(None, parts[1], false, true))
              && (!(parts[0] == "pair" && |parts| >= 3) && parts[0] != "token"
                  ==> r.value == Parsed(Some(parts[0]), parts[1], true, false))
  {
    if url == "" || pathname.None? then None
    else
      var parts := Segments(pathname.value);
      if |parts| == 0 then None
      else if parts[0] == "pair" && |parts| >= 3 then Some(Parsed(Some(parts[1]), parts[2], true, false))
      else if parts[0] == "token" && |parts| >= 2 then Some(Parsed(None, parts[1], false, true))
      else if |parts| >= 2 then Some(Parsed(Some(parts[0]), parts[1], true, false))
      else None
  }

  lemma SplitSlash(a: string)
    requires '/' !in a
    ensures Split("/" + a, '/') == [""] + Split(a, '/')
    ensures Split(a, '/') == [a]
  {
    SplitNoSep(a);
    assert ("/" + a)[1..] == a;
  }

  lemma {:induction false} SplitNoSep(a: string)
    requires '/' !in a
    ensures Split(a, '/') == [a]
  {
    if a != [] {
      SplitNoSep(a[1..]);
      assert [a[0]] + a[1..] == a;
    }
  }

  lemma {:induction false} SplitConcat(a: string, b: string)
    requires '/' !in a
    ensures Split(a + "/" + b, '/') == [a] + Split(b, '/')
  {
    if a == [] {
      assert a + "/" + b == "/" + b;
      assert ("/" + b)[1..] == b;
    } else {
      SplitConcat(a[1..], b);
      assert (a + "/" + b)[1..] == a[1..] + "/" + b;
      var rest := Split(a[1..] + "/" + b, '/');
      assert rest[0] == a[1..];
      assert [a[0]] + a[1..] == a;
    }
  }

  /** Cutting at the first slash: the segments of `a/b` are the segments of
      `a` followed by those of `b`. With the slash-free case of `Segments` this
      says the pieces are the non-empty runs between slashes, in order. */
  lemma SegmentsAtSlash(a: string, b: string)
    requires '/' !in a
    ensures Segments(a + "/" + b) == Segments(a) + Segments(b)
  {
    SplitConcat(a, b);
    var rest := Split(b, '/');
    assert NonEmpty([a] + rest) == NonEmpty([a]) + NonEmpty(rest) by {
      assert ([a] + rest)[0] == a && ([a] + rest)[1..] == rest;
      assert [a][1..] == [];
    }
    SplitNoSep(a);
  }

  /** The canonical pair URL the handler builds, `https://dexscreener.com/<chain>/<pair>`,
      has the path `/<chain>/<pair>`, and parsing that path gives back the same
      chain and pair address. */
  lemma CanonicalPathRoundTrip(chain: string, pair: string)
    requires chain != "" && pair != "" && '/' !in chain && '/' !in pair
    requires chain != "pair" && chain != "token"
    ensures ParseDexscreenerUrl("https://dexscreener.com/" + chain + "/" + pair,
                                Some("/" + chain + "/" + pair))
            == Some(Parsed(Some(chain), pair, true, false))
  {
    var path := "/" + chain + "/" + pair;
    SplitConcat(chain, pair);
    SplitNoSep(pair);
    assert Split(chain + "/" + pair, '/') == [chain, pair];
    assert path == "/" + (chain + "/" + pair);
    assert path[1..] == chain + "/" + pair;
    assert Split(path, '/') == [""] + [chain, pair];
    assert NonEmpty([chain, pair]) == [chain] + NonEmpty([pair]);
    assert Segments(path) == [chain, pair];
  }

  // ---------------------------------------------------------------------------
  // computeAlphaScore
  // ---------------------------------------------------------------------------

  function AlphaLiquidity(liq: real): int {
    if liq >= 100000.0 then 18 else if liq >= 50000.0 then 14 else if liq >= 20000.0 then 10
    else if liq >= 10000.0 then 6 else if liq >= 5000.0 then 3 else -4
  }

  function AlphaVolume(vol: real): int {
    if vol >= 500000.0 then 12 else if vol >= 200000.0 then 9 else if vol >= 100000.0 then 7
    else if vol >= 25000.0 then 4 else -2
  }

  function AlphaMomentum1h(chg: real): int {
    if chg >= 80.0 then 8 else if chg >= 30.0 then 5 else if chg <= -40.0 then -6 else 0
  }

  function AlphaMomentum24h(chg: real): int {
    if chg >= 200.0 then 6 else if chg <= -60.0 then -6 else 0
  }

  /** The alpha score before the clamp. */
  function RawAlpha(p: Pair): int {
    20 + AlphaLiquidity(LiquidityUsd(p)) + AlphaVolume(Volume24h(p))
    + AlphaMomentum1h(Change1h(p)) + AlphaMomentum24h(Change24h(p))
  }

  /** More liquidity or more volume never lowers the alpha score. */
  lemma AlphaMonotone(l1: real, l2: real, v1: real, v2: real)
    requires l1 <= l2 && v1 <= v2
    ensures AlphaLiquidity(l1) <= AlphaLiquidity(l2)
    ensures AlphaVolume(v1) <= AlphaVolume(v2)
  {
  }

  /** `computeAlphaScore(pair)`: never outside [2, 64], so never the 65
      READY needs nor the 72 ENTER needs. */
  method ComputeAlphaScore(pair: Pair) returns (score: int)
    ensures score == RawAlpha(pair)
    ensures 2 <= score <= 64
  {
    score := 20;
    var liqUsd := LiquidityUsd(pair);
    var vol24 := Volume24h(pair);
    var chg1h := Change1h(pair);
    var chg24h := Change24h(pair);

    if liqUsd >= 100000.0 { score := score + 18; }
    else if liqUsd >= 50000.0 { score := score + 14; }
    else if liqUsd >= 20000.0 { score := score + 10; }
    else if liqUsd >= 10000.0 { score := score + 6; }
    else if liqUsd >= 5000.0 { score := score + 3; }
    else { score := score - 4; }
    assert score == 20 + AlphaLiquidity(liqUsd);

    if vol24 >= 500000.0 { score := score + 12; }
    else if vol24 >= 200000.0 { score := score + 9; }
    else if vol24 >= 100000.0 { score := score + 7; }
    else if vol24 >= 25000.0 { score := score + 4; }
    else { score := score - 2; }
    assert score == 20 + AlphaLiquidity(liqUsd) + AlphaVolume(vol24);

    if chg1h >= 80.0 { score := score + 8; }
    else if chg1h >= 30.0 { score := score + 5; }
    else if chg1h <= -40.0 { score := score - 6; }

    if chg24h >= 200.0 { score := score + 6; }
    else if chg24h <= -60.0 { score := score - 6; }
    assert score == RawAlpha(pair);

    AlphaRange(pair);
    score := ClampInt(score, 0, 100);
  }

  /** Every term is bounded, so the raw score already lies in [2, 64] and the
      clamp never changes it. */
  lemma AlphaRange(p: Pair)
    ensures 2 <= RawAlpha(p) <= 64
    ensures ClampInt(RawAlpha(p), 0, 100) == RawAlpha(p)
  {
    assert -4 <= AlphaLiquidity(LiquidityUsd(p)) <= 18;
    assert -2 <= AlphaVolume(Volume24h(p)) <= 12;
    assert -6 <= AlphaMomentum1h(Change1h(p)) <= 8;
    assert -6 <= AlphaMomentum24h(Change24h(p)) <= 6;
  }

  // ---------------------------------------------------------------------------
  // computeRugRisk
  // ---------------------------------------------------------------------------

  /** `buys5 / t5`, or 0.5 with no transactions. */
  function BuyRatio5(buys: int, sells: int): real {
    if buys + sells > 0 then (buys as real) / ((buys + sells) as real) else 0.5
  }

  function SellPressure(buys: int, sells: int): int {
    var t5 := buys + sells;
    if t5 >= 12 && BuyRatio5(buys, sells) <= 0.38 then 18
    else if t5 >= 12 && BuyRatio5(buys, sells) >= 0.65 then -6
    else 0
  }

  function LiquidityRisk(liq: real): int {
    if liq < 5000.0 then 35 else if liq < 10000.0 then 26 else if liq < 25000.0 then 14 else 0
  }

  function FdvRisk(fdv: real, liq: real): int {
    if fdv > 0.0 && liq > 0.0 then
      (if fdv / liq >= 500.0 then 22 else if fdv / liq >= 250.0 then 14 else 0)
    else 0
  }

  function DropRisk(chg5m: real, chg1h: real, chg24h: real): int {
    (if chg5m <= -18.0 then 32 else 0) + (if chg1h <= -35.0 then 28 else 0) + (if chg24h <= -70.0 then 22 else 0)
  }

  /** The route's rug risk before the clamp. */
  function RawRouteRisk(p: Pair): int {
    var liq := LiquidityUsd(p);
    18 + LiquidityRisk(liq) + FdvRisk(Fdv(p), liq)
    + DropRisk(Change5m(p), Change1h(p), Change24h(p))
    + SellPressure(Buys5m(p), Sells5m(p))
    + (if Volume24h(p) >= 300000.0 && liq < 25000.0 then 14 else 0)
  }

  /** Every term but the buy-pressure bonus of -6 is non-negative. */
  lemma RouteRiskFloor(p: Pair)
    ensures RawRouteRisk(p) >= 12
    ensures 12 <= ClampInt(RawRouteRisk(p), 0, 100) <= 100
  {
    var liq := LiquidityUsd(p);
    assert LiquidityRisk(liq) >= 0 && FdvRisk(Fdv(p), liq) >= 0;
    assert DropRisk(Change5m(p), Change1h(p), Change24h(p)) >= 0;
    assert SellPressure(Buys5m(p), Sells5m(p)) >= -6;
  }

  /** `computeRugRisk(pair)`: clamped to [0, 100]; the only negative term is
      the 6-point buy-pressure bonus, so it never drops below 12. */
  method ComputeRugRisk(pair: Pair) returns (risk: int)
    ensures risk == ClampInt(RawRouteRisk(pair), 0, 100)
    ensures 12 <= risk <= 100
  {
    var liqUsd := LiquidityUsd(pair);
    var vol24 := Volume24h(pair);
    var fdv := Fdv(pair);
    var chg5m := Change5m(pair);
    var chg1h := Change1h(pair);
    var chg24h := Change24h(pair);

    var buys5 := Buys5m(pair);
    var sells5 := Sells5m(pair);
    var t5 := buys5 + sells5;
    var buyRatio5 := BuyRatio5(buys5, sells5);

    risk := 18;

    if liqUsd < 5000.0 { risk := risk + 35; }
    else if liqUsd < 10000.0 { risk := risk + 26; }
    else if liqUsd < 25000.0 { risk := risk + 14; }
    assert risk == 18 + LiquidityRisk(liqUsd);

    if fdv > 0.0 && liqUsd > 0.0 {
      var ratio := fdv / liqUsd;
      if ratio >= 500.0 { risk := risk + 22; }
      else if ratio >= 250.0 { risk := risk + 14; }
    }
    assert risk == 18 + LiquidityRisk(liqUsd) + FdvRisk(fdv, liqUsd);

    if chg5m <= -18.0 { risk := risk + 32; }
    if chg1h <= -35.0 { risk := risk + 28; }
    if chg24h <= -70.0 { risk := risk + 22; }
    assert risk == 18 + LiquidityRisk(liqUsd) + FdvRisk(fdv, liqUsd) + DropRisk(chg5m, chg1h, chg24h);

    if t5 >= 12 && buyRatio5 <= 0.38 { risk := risk + 18; }
    else if t5 >= 12 && buyRatio5 >= 0.65 { risk := risk - 6; }
    assert risk == 18 + LiquidityRisk(liqUsd) + FdvRisk(fdv, liqUsd) + DropRisk(chg5m, chg1h, chg24h)
                   + SellPressure(buys5, sells5);

    if vol24 >= 300000.0 && liqUsd < 25000.0 { risk := risk + 14; }

    assert risk == RawRouteRisk(pair);
    risk := ClampInt(risk, 0, 100);
    RouteRiskFloor(pair);
  }

  // ---------------------------------------------------------------------------
  // computeDecision
  // ---------------------------------------------------------------------------

  const RouteRugWarningThreshold: int := 82

  datatype RouteDecision = RouteDecision(decision: Action, confidence: int)

  predicate RouteCrash(p: Pair) { Change5m(p) <= -18.0 || Change1h(p) <= -35.0 }

  predicate RouteArm(alpha: int, rug: int) { alpha >= 58 && rug <= 75 }

  predicate RouteReady(alpha: int, rug: int, p: Pair) {
    alpha >= 65 && rug <= 70 && (Change5m(p) > 0.0 || Change1h(p) > 5.0)
  }

  predicate RouteEnter(alpha: int, rug: int, p: Pair) {
    alpha >= 72 && rug <= 65 && Change5m(p) > 0.0 && LiquidityUsd(p) >= 30000.0 && Volume24h(p) >= 80000.0
  }

  /** The confidence bands of the route's `computeDecision`, added to 55. */
  function RouteRugBand(rug: int): int {
    if rug <= 35 then 10 else if rug >= 65 then -16 else 0
  }

  function RouteAlphaBand(alpha: int): int {
    if alpha >= 85 then 18 else if alpha >= 78 then 10 else if alpha < 60 then -12 else 0
  }

  function RouteLiquidityBand(liq: real): int {
    if liq >= 50000.0 then 10 else if liq >= 15000.0 then 4 else -12
  }

  function RouteVolumeBand(vol: real): int {
    if vol >= 250000.0 then 10 else if vol >= 120000.0 then 6 else if vol > 0.0 && vol < 60000.0 then -8 else 0
  }

  /** The confidence before the clamp to [1, 99]. */
  function RouteConfidence(alpha: int, rug: int, p: Pair): int {
    55 + RouteRugBand(rug) + RouteAlphaBand(alpha) + RouteLiquidityBand(LiquidityUsd(p)) + RouteVolumeBand(Volume24h(p))
  }

  /** The unclamped confidence lies in [7, 103], so the clamp can bite only
      at the top; it never falls as alpha rises or as the rug risk falls. */
  lemma RouteConfidenceMonotone(alpha1: int, alpha2: int, rug1: int, rug2: int, p: Pair)
    requires alpha1 <= alpha2 && rug1 >= rug2
    ensures 7 <= RouteConfidence(alpha1, rug1, p) <= RouteConfidence(alpha2, rug2, p) <= 103
  {
    assert RouteRugBand(rug1) <= RouteRugBand(rug2);
    assert RouteAlphaBand(alpha1) <= RouteAlphaBand(alpha2);
  }

  /** What the route's `computeDecision(alpha, rug, pair)` returns: RUG
      WARNING at 98 on a crash or a rug risk of 82 or more; otherwise the
      highest of ENTER, READY and ARM whose bars are met, else WAIT, with the
      clamped band-sum confidence. */
  predicate RouteDecides(alpha: int, rug: int, pair: Pair, d: RouteDecision) {
    && (d.decision == ScoreEngine.RugWarning <==> RouteCrash(pair) || rug >= 82)
    && (d.decision == ScoreEngine.RugWarning ==> d.confidence == 98)
    && (!(RouteCrash(pair) || rug >= 82) ==>
          && d.confidence == ClampInt(RouteConfidence(alpha, rug, pair), 1, 99)
          && (d.decision == ScoreEngine.Enter <==> RouteEnter(alpha, rug, pair))
          && (d.decision == ScoreEngine.Ready <==> !RouteEnter(alpha, rug, pair) && RouteReady(alpha, rug, pair))
          && (d.decision == ScoreEngine.Arm <==> !RouteEnter(alpha, rug, pair) && !RouteReady(alpha, rug, pair)
                                                 && RouteArm(alpha, rug))
          && (d.decision == ScoreEngine.Wait <==> !RouteArm(alpha, rug)))
  }

  /** `computeDecision(alpha, rug, pair)` of the route. */
  method ComputeDecision(alpha: int, rug: int, pair: Pair) returns (d: RouteDecision)
    ensures RouteDecides(alpha, rug, pair, d)
    ensures 1 <= d.confidence <= 99
  {
    var liq := LiquidityUsd(pair);
    var vol := Volume24h(pair);
    var chg5m := Change5m(pair);
    var chg1h := Change1h(pair);

    var confidence := 55;

    var crashNow := chg5m <= -18.0 || chg1h <= -35.0;
    if crashNow || rug >= RouteRugWarningThreshold {
      d := RouteDecision(ScoreEngine.RugWarning, 98);
      return;
    }

    if rug <= 35 { confidence := confidence + 10; }
    else if rug >= 65 { confidence := confidence - 16; }
    assert confidence == 55 + RouteRugBand(rug);

    if alpha >= 85 { confidence := confidence + 18; }
    else if alpha >= 78 { confidence := confidence + 10; }
    else if alpha < 60 { confidence := confidence - 12; }
    assert confidence == 55 + RouteRugBand(rug) + RouteAlphaBand(alpha);

    if liq >= 50000.0 { confidence := confidence + 10; }
    else if liq >= 15000.0 { confidence := confidence + 4; }
    else { confidence := confidence - 12; }
    assert confidence == 55 + RouteRugBand(rug) + RouteAlphaBand(alpha) + RouteLiquidityBand(liq);

    if vol >= 250000.0 { confidence := confidence + 10; }
    else if vol >= 120000.0 { confidence := confidence + 6; }
    else if vol > 0.0 && vol < 60000.0 { confidence := confidence - 8; }

    assert confidence == RouteConfidence(alpha, rug, pair);
    confidence := ClampInt(confidence, 1, 99);

    var decision := ScoreEngine.Wait;
    if alpha >= 58 && rug <= 75 {
      decision := ScoreEngine.Arm;
    }
    if alpha >= 65 && rug <= 70 && (chg5m > 0.0 || chg1h > 5.0) {
      decision := ScoreEngine.Ready;
    }
    if alpha >= 72 && rug <= 65 && chg5m > 0.0 && liq >= 30000.0 && vol >= 80000.0 {
      decision := ScoreEngine.Enter;
    }
    assert decision == ScoreEngine.Enter <==> RouteEnter(alpha, rug, pair);
    assert decision == ScoreEngine.Wait <==> !RouteArm(alpha, rug);
    d := RouteDecision(decision, confidence);
  }

  // ---------------------------------------------------------------------------
  // GET /decision
  // ---------------------------------------------------------------------------

  /** What `fetchDexscreenerPair` returns once its address check has passed:
      the best pair, or `null` (every network failure is caught and gives null). */
  type FetchResult = Option<Pair>

  datatype Response =
    | Failure(status: int, error: string)
    | Success(chain: string, pair: string, url: string, decision: Action,
              alpha: int, rug: int, confidence: int,
              tokenName: string, tokenSymbol: string, mint: string)

  /** The chain of the response: the pair's own for a token lookup, else the
      pair's or, when that is empty, the URL's. */
  function RouteChain(p: Parsed, pair: Pair): string {
    if p.isToken then pair.chainId
    else if pair.chainId != "" then pair.chainId
    else if p.chain.Some? then p.chain.value else ""
  }

  /** The handler for `GET /decision?url=...`. `pathname` is the parsed URL's
      path (`None` when the URL does not parse) and `fetched` stands for the
      network lookup of the parsed chain and pair or token. */
  method HandleDecision(url: string, pathname: Option<string>, fetched: FetchResult) returns (resp: Response)
    ensures url == "" ==> resp == Failure(400, "missing_url")
    ensures url != "" && ParseDexscreenerUrl(url, pathname).None? ==> resp == Failure(400, "invalid_url")
    ensures var parsed := ParseDexscreenerUrl(url, pathname);
            (url != "" && parsed.Some? && parsed.value.isToken && !IsValidAddress(parsed.value.pairOrToken))
            ==> resp == Failure(400, "invalid_token_address")
    ensures var parsed := ParseDexscreenerUrl(url, pathname);
            (url != "" && parsed.Some? && !(parsed.value.isToken && !IsValidAddress(parsed.value.pairOrToken)) && fetched.None?)
            ==> resp == Failure(404, "pair_not_found")
    ensures var parsed := ParseDexscreenerUrl(url, pathname);
            (url != "" && parsed.Some? && !(parsed.value.isToken && !IsValidAddress(parsed.value.pairOrToken)) && fetched.Some?)
            ==> (RouteChain(parsed.value, fetched.value) == "" <==> resp == Failure(400, "chain_not_identified"))
                && (RouteChain(parsed.value, fetched.value) != "" <==> resp.Success?)
    ensures resp.Failure? ==> resp.status in {400, 404}
    ensures resp.Success? ==>
              var parsed := ParseDexscreenerUrl(url, pathname);
              var pair := fetched.value;
              && parsed.Some? && fetched.Some?
              && resp.chain == RouteChain(parsed.value, pair) != ""
              && resp.pair == (if pair.pairAddress != "" then pair.pairAddress else parsed.value.pairOrToken) != ""
              && resp.url == (if pair.url != "" then pair.url
                              else "https://dexscreener.com/" + resp.chain + "/" + resp.pair)
              && resp.alpha == RawAlpha(pair) && 2 <= resp.alpha <= 64
              && resp.rug == ClampInt(RawRouteRisk(pair), 0, 100) && 12 <= resp.rug <= 100
              && RouteDecides(resp.alpha, resp.rug, pair, RouteDecision(resp.decision, resp.confidence))
              && resp.decision in {ScoreEngine.RugWarning, ScoreEngine.Wait, ScoreEngine.Arm}
              && 1 <= resp.confidence <= 99
              && resp.tokenName == TokenField(pair, (t: TokenInfo) => t.name)
              && resp.tokenSymbol == TokenField(pair, (t: TokenInfo) => t.symbol)
              && resp.mint == TokenField(pair, (t: TokenInfo) => t.address)
  {
    if url == "" {
      return Failure(400, "missing_url");
    }
    var parsed := ParseDexscreenerUrl(url, pathname);
    if parsed.None? {
      return Failure(400, "invalid_url");
    }
    var p := parsed.value;
    if p.isToken && !IsValidAddress(p.pairOrToken) {
      return Failure(400, "invalid_token_address");
    }
    if p.isToken {
      ValidAddressFitsLog(p.pairOrToken);
    }
    if fetched.None? {
      return Failure(404, "pair_not_found");
    }
    var pair := fetched.value;
    var chain := RouteChain(p, pair);
    if chain == "" {
      return Failure(400, "chain_not_identified");
    }
    var pairAddress := if pair.pairAddress != "" then pair.pairAddress else p.pairOrToken;

    var alpha := ComputeAlphaScore(pair);
    var rug := ComputeRugRisk(pair);
    var d := ComputeDecision(alpha, rug, pair);

    var tokenName := TokenField(pair, (t: TokenInfo) => t.name);
    var tokenSymbol := TokenField(pair, (t: TokenInfo) => t.symbol);
    var mint := TokenField(pair, (t: TokenInfo) => t.address);
    var pairUrl := if pair.url != "" then pair.url else "https://dexscreener.com/" + chain + "/" + pairAddress;

    resp := Success(chain, pairAddress, pairUrl, d.decision, alpha, rug, d.confidence,
                    tokenName, tokenSymbol, mint);
  }
}
