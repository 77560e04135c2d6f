/**
  The Dexscreener pair record that `rugrisk.js` and `src/routes/decision.js`
  read. Numeric fields may be absent (`?? 0` gives 0); string fields are ""
  when absent, which is how `||` treats them.
*/
module DexPair {
  import opened Js

  /** `baseToken` / `token0`: `{ name, symbol, address }`. */
  datatype TokenInfo = TokenInfo(name: string, symbol: string, address: string)

  datatype Pair = Pair(
    liquidityUsd: Option<real>,   // liquidity.usd
    volumeH24: Option<real>,      // volume.h24
    fdv: Option<real>,
    changeM5: Option<real>,       // priceChange.m5
    changeH1: Option<real>,       // priceChange.h1
    changeH24: Option<real>,      // priceChange.h24
    buysM5: Option<int>,          // txns.m5.buys
    sellsM5: Option<int>,         // txns.m5.sells
    chainId: string,
    pairAddress: string,
    url: string,
    baseToken: Option<TokenInfo>,
    token0: Option<TokenInfo>
  )

  /** The pair `{}`. */
  const EmptyPair: Pair :=
    Pair(None, None, None, None, None, None, None, None, "", "", "", None, None)

  function LiquidityUsd(p: Pair): real { p.liquidityUsd.GetOr(0.0) }
  function Volume24h(p: Pair): real { p.volumeH24.GetOr(0.0) }
  function Fdv(p: Pair): real { p.fdv.GetOr(0.0) }
  function Change5m(p: Pair): real { p.changeM5.GetOr(0.0) }
  function Change1h(p: Pair): real { p.changeH1.GetOr(0.0) }
  function Change24h(p: Pair): real { p.changeH24.GetOr(0.0) }
  function Buys5m(p: Pair): int { p.buysM5.GetOr(0) }
  function Sells5m(p: Pair): int { p.sellsM5.GetOr(0) }

  /** `a || b || ""` over the two token records. */
  function TokenField(p: Pair, pick: TokenInfo -> string): string {
    var a := if p.baseToken.Some? then pick(p.baseToken.value) else "";
    var b := if p.token0.Some? then pick(p.token0.value) else "";
    if a != "" then a else b
  }
}
