/**
  `advanced_metrics.js`: the convergence tracker (which smart-money wallets
  bought a token within a sliding window), and the liquidity-trap and
  entry-zone estimators. `Date.now()` is the explicit `now` argument.
*/
module AdvancedMetrics {
  import opened Js
  import Sorting

  /** `12 * 60 * 1000`, twelve minutes. */
  const DefaultWindowMs: int := 720000
  const DefaultListLimit := 30

  /** One noted buy: `{ wallet, tier, ts }`. */
  datatype Hit = Hit(wallet: string, tier: string, ts: int)

  /** The result of `get(token)`. */
  datatype Summary = Summary(token: string, status: string, strength: int, sCount: int, aCount: int, total: int)

  /** `arr.filter(x => x.ts >= cutoff)`. */
  function KeepRecent(arr: seq<Hit>, cutoff: int): (r: seq<Hit>)
    ensures |r| <= |arr|
  {
    if arr == [] then []
    else if arr[0].ts >= cutoff then [arr[0]] + KeepRecent(arr[1..], cutoff)
    else KeepRecent(arr[1..], cutoff)
  }

  /** The filter keeps exactly the hits at or after the cutoff. */
  lemma {:induction false} KeepRecentKeeps(arr: seq<Hit>, cutoff: int)
    ensures forall h :: h in KeepRecent(arr, cutoff) <==> h in arr && h.ts >= cutoff
  {
    if arr != [] {
      KeepRecentKeeps(arr[1..], cutoff);
      assert arr == [arr[0]] + arr[1..];
    }
  }

  /** The distinct wallets of the hits of one tier. */
  function TierWallets(arr: seq<Hit>, tier: string): set<string> {
    set i | 0 <= i < |arr| && arr[i].tier == tier :: arr[i].wallet
  }

  /** The distinct wallets of the hits of tier S or A. */
  function ListedWallets(arr: seq<Hit>): set<string> {
    set i | 0 <= i < |arr| && (arr[i].tier == "S" || arr[i].tier == "A") :: arr[i].wallet
  }

  /** One more hit adds its wallet to the set of its own tier and to no
      other. */
  lemma TierWalletsSnoc(arr: seq<Hit>, h: Hit, tier: string)
    ensures TierWallets(arr + [h], tier) == TierWallets(arr, tier) + (if h.tier == tier then {h.wallet} else {})
  {
    var next := arr + [h];
    forall w | w in TierWallets(next, tier)
      ensures w in TierWallets(arr, tier) + (if h.tier == tier then {h.wallet} else {})
    {
      var i :| 0 <= i < |next| && next[i].tier == tier && next[i].wallet == w;
      if i < |arr| {
        assert arr[i] == next[i];
      }
    }
    forall w | w in TierWallets(arr, tier) ensures w in TierWallets(next, tier) {
      var i :| 0 <= i < |arr| && arr[i].tier == tier && arr[i].wallet == w;
      assert next[i] == arr[i];
    }
    if h.tier == tier {
      assert next[|arr|] == h;
    }
  }

  /** The union of the S and the A wallets is the set of listed wallets. */
  lemma ListedWalletsUnion(arr: seq<Hit>)
    ensures TierWallets(arr, "S") + TierWallets(arr, "A") == ListedWallets(arr)
  {
    forall w | w in ListedWallets(arr) ensures w in TierWallets(arr, "S") + TierWallets(arr, "A") {
      var i :| 0 <= i < |arr| && (arr[i].tier == "S" || arr[i].tier == "A") && arr[i].wallet == w;
    }
  }

  /** The status ladder of `get`. */
  function StatusFor(sCount: int, aCount: int, total: int): string {
    if sCount >= 2 then "STRONG"
    else if sCount >= 1 && aCount >= 2 then "STRONG"
    else if sCount >= 1 || aCount >= 2 then "MED"
    else if total >= 1 then "WEAK"
    else "NONE"
  }

  /** STRONG, MED and WEAK in terms of the two counts; WEAK needs exactly one
      A wallet and no S wallet. */
  lemma StatusCharacterised(arr: seq<Hit>)
    ensures var s, a := TierWallets(arr, "S"), TierWallets(arr, "A");
            var status := StatusFor(|s|, |a|, |ListedWallets(arr)|);
            && (status == "STRONG" <==> |s| >= 2 || (|s| >= 1 && |a| >= 2))
            && (status == "MED" <==> !(|s| >= 2 || (|s| >= 1 && |a| >= 2)) && (|s| >= 1 || |a| >= 2))
            && (status == "WEAK" <==> |s| == 0 && |a| == 1)
            && (status == "NONE" <==> |s| == 0 && |a| == 0)
  {
    var s, a := TierWallets(arr, "S"), TierWallets(arr, "A");
    ListedWalletsUnion(arr);
    if |s| == 0 {
      assert s == {};
      assert s + a == a;
    }
    if |s| >= 1 {
      var w :| w in s;
      assert w in s + a;
    }
  }

  /** No S or A wallet is counted exactly when no hit has tier S or A. */
  lemma NoWalletsIffNoTierHits(arr: seq<Hit>)
    ensures |ListedWallets(arr)| == 0 <==> forall i :: 0 <= i < |arr| ==> arr[i].tier != "S" && arr[i].tier != "A"
  {
    var u := ListedWallets(arr);
    if exists i :: 0 <= i < |arr| && (arr[i].tier == "S" || arr[i].tier == "A") {
      var i :| 0 <= i < |arr| && (arr[i].tier == "S" || arr[i].tier == "A");
      assert arr[i].wallet in u;
    }
    if |u| != 0 {
      var w :| w in u;
    }
  }

  /** The clamp of a non-negative strength is its cap at 100. */
  lemma ClampedStrength(sCount: nat, aCount: nat)
    ensures ClampInt(sCount * 45 + aCount * 18, 0, 100) == MinInt(100, 45 * sCount + 18 * aCount)
  {
  }

  /** The summary `get` reports for token `t` with hits `arr`, stated with
      the distinct-wallet sets of each tier. */
  function SummaryOf(t: string, arr: seq<Hit>): Summary {
    var s, a := |TierWallets(arr, "S")|, |TierWallets(arr, "A")|;
    var total := |ListedWallets(arr)|;
    Summary(t, StatusFor(s, a, total), MinInt(100, 45 * s + 18 * a), s, a, total)
  }

  /** Builds the summary of one token's hits with two sets, as `get` does. */
  method Summarize(t: string, arr: seq<Hit>) returns (g: Summary)
    ensures g == SummaryOf(t, arr)
    ensures g.token == t
    ensures g.sCount == |TierWallets(arr, "S")| && g.aCount == |TierWallets(arr, "A")|
    ensures g.total == |ListedWallets(arr)|
    ensures g.strength == MinInt(100, 45 * g.sCount + 18 * g.aCount) && 0 <= g.strength <= 100
    ensures g.status == StatusFor(g.sCount, g.aCount, g.total)
    ensures g.total == 0 <==> forall i :: 0 <= i < |arr| ==> arr[i].tier != "S" && arr[i].tier != "A"
  {
    var uniqS: set<string> := {};
    var uniqA: set<string> := {};
    for i := 0 to |arr|
      invariant uniqS == TierWallets(arr[..i], "S")
      invariant uniqA == TierWallets(arr[..i], "A")
    {
      var x := arr[i];
      assert arr[..i + 1] == arr[..i] + [x];
      TierWalletsSnoc(arr[..i], x, "S");
      TierWalletsSnoc(arr[..i], x, "A");
      if x.tier == "S" { uniqS := uniqS + {x.wallet}; }
      if x.tier == "A" { uniqA := uniqA + {x.wallet}; }
    }
    assert arr[..|arr|] == arr;
    var sCount := |uniqS|;
    var aCount := |uniqA|;
    var total := |uniqS + uniqA|;

    ListedWalletsUnion(arr);
    NoWalletsIffNoTierHits(arr);

    var strength := 0;
    strength := strength + sCount * 45;
    strength := strength + aCount * 18;
    ClampedStrength(sCount, aCount);
    strength := ClampInt(strength, 0, 100);

    var status := StatusFor(sCount, aCount, total);
    g := Summary(t, status, strength, sCount, aCount, total);
  }

  /** The `listTop` comparator `(b.strength - a.strength) || (b.total - a.total)`
      read as "may `a` stay before `b`". */
  function StrongerFirst(a: Summary, b: Summary): bool {
    a.strength > b.strength || (a.strength == b.strength && a.total >= b.total)
  }

  lemma StrongerFirstIsTotalPreorder()
    ensures Sorting.TotalPreorder(StrongerFirst)
  {
  }

  /** What `listTop` keeps: a summary with some S or A wallet. */
  predicate Listed(g: Summary) {
    g.total > 0 && 0 <= g.strength <= 100
  }

  /** What `get(t)` reports for a stored token once its old hits are dropped. */
  function TokenSummary(stored: map<string, seq<Hit>>, t: string, cutoff: int): Summary
    requires t in stored
  {
    SummaryOf(t, KeepRecent(stored[t], cutoff))
  }

  /** Every hit list of `stored` with its old hits dropped, and the tokens
      left with none removed: what the `get` calls of `listTop` leave. */
  function PruneAll(stored: map<string, seq<Hit>>, cutoff: int): map<string, seq<Hit>> {
    map t | t in stored && KeepRecent(stored[t], cutoff) != [] :: KeepRecent(stored[t], cutoff)
  }

  /** `expected` holds, for every stored token, the summary `get` reports for
      it once its old hits are dropped. */
  ghost predicate Expects(expected: map<string, Summary>, stored: map<string, seq<Hit>>, cutoff: int) {
    && expected.Keys == stored.Keys
    && forall t {:trigger TokenSummary(stored, t, cutoff)} ::
         t in stored ==> expected[t] == TokenSummary(stored, t, cutoff)
  }

  /** Such a map exists. */
  lemma ExpectedSummaries(stored: map<string, seq<Hit>>, cutoff: int) returns (expected: map<string, Summary>)
    ensures Expects(expected, stored, cutoff)
  {
    expected := map t | t in stored :: TokenSummary(stored, t, cutoff);
  }

  /** What the loop of `listTop` has gathered: the expected summaries of the
      distinct tokens already visited, exactly those with an S or A wallet. */
  ghost predicate Collected(all: seq<Summary>, todo: set<string>, expected: map<string, Summary>) {
    && (forall i :: 0 <= i < |all| ==>
          all[i].token in expected && all[i].token !in todo && all[i] == expected[all[i].token] && Listed(all[i]))
    && (forall i, j :: 0 <= i < j < |all| ==> all[i].token != all[j].token)
    && (forall t :: t in expected && t !in todo && expected[t].total > 0 ==> expected[t] in all)
  }

  /** Visiting `k` keeps `Collected`, with its summary kept exactly when it has
      an S or A wallet. */
  lemma CollectStep(all: seq<Summary>, todo: set<string>, expected: map<string, Summary>, k: string, g: Summary)
    requires Collected(all, todo, expected) && k in todo && k in expected
    requires g == expected[k] && g.token == k && 0 <= g.strength <= 100
    ensures g.total > 0 ==> Collected(all + [g], todo - {k}, expected)
    ensures g.total <= 0 ==> Collected(all, todo - {k}, expected)
  {
    if g.total > 0 {
      var next := all + [g];
      forall i | 0 <= i < |next|
        ensures next[i].token in expected && next[i].token !in todo - {k}
        ensures next[i] == expected[next[i].token] && Listed(next[i])
      {
        if i < |all| {
          assert next[i] == all[i];
        }
      }
      forall i, j | 0 <= i < j < |next| ensures next[i].token != next[j].token {
        assert next[i] == all[i];
        if j < |all| {
          assert next[j] == all[j];
        }
      }
    }
  }

  /** `pruned` holds, for every stored token with a hit left in the window,
      those hits, and no other token. */
  ghost predicate Prunes(pruned: map<string, seq<Hit>>, stored: map<string, seq<Hit>>, cutoff: int) {
    && pruned.Keys <= stored.Keys
    && forall t {:trigger KeepRecent(stored[t], cutoff)} :: t in stored ==>
         (t in pruned <==> KeepRecent(stored[t], cutoff) != [])
         && (t in pruned ==> pruned[t] == KeepRecent(stored[t], cutoff))
  }

  /** `PruneAll` is such a map. */
  lemma PruneAllPrunes(stored: map<string, seq<Hit>>, cutoff: int) returns (pruned: map<string, seq<Hit>>)
    ensures Prunes(pruned, stored, cutoff)
  {
    pruned := PruneAll(stored, cutoff);
  }

  /** Only `PruneAll` is. */
  lemma PrunesIsPruneAll(pruned: map<string, seq<Hit>>, stored: map<string, seq<Hit>>, cutoff: int)
    requires Prunes(pruned, stored, cutoff)
    ensures pruned == PruneAll(stored, cutoff)
  {
    forall t | t in stored ensures (t in pruned <==> KeepRecent(stored[t], cutoff) != []) {
    }
  }

  /** The hits of `listTop`'s loop: visited tokens pruned, the others as they
      were. */
  ghost predicate PrunedExcept(hits: map<string, seq<Hit>>, todo: set<string>, pruned: map<string, seq<Hit>>,
                               stored: map<string, seq<Hit>>) {
    && hits.Keys <= stored.Keys
    && (forall t :: t in todo ==> t in stored && t in hits && hits[t] == stored[t])
    && (forall t :: t in stored && t !in todo ==>
          (t in hits <==> t in pruned) && (t in hits ==> hits[t] == pruned[t]))
  }

  /** Visiting `k` prunes it and keeps `PrunedExcept` for the other tokens. */
  lemma PruneStep(hits: map<string, seq<Hit>>, next: map<string, seq<Hit>>, todo: set<string>,
                  pruned: map<string, seq<Hit>>, stored: map<string, seq<Hit>>, cutoff: int, k: string)
    requires PrunedExcept(hits, todo, pruned, stored) && Prunes(pruned, stored, cutoff) && k in todo
    requires var arr := KeepRecent(hits[k], cutoff);
             (arr != [] ==> next == hits[k := arr]) && (arr == [] ==> next == hits - {k})
    ensures PrunedExcept(next, todo - {k}, pruned, stored)
  {
    assert hits[k] == stored[k];
  }

  /** With no token left to visit, the hits are the pruned map. */
  lemma PrunedAll(hits: map<string, seq<Hit>>, pruned: map<string, seq<Hit>>, stored: map<string, seq<Hit>>)
    requires PrunedExcept(hits, {}, pruned, stored) && pruned.Keys <= stored.Keys
    ensures hits == pruned
  {
  }

  /** `out` as `listTop` promises it over the stored tokens: the summaries
      `get` reports for distinct stored tokens with an S or A wallet, none
      weaker than a listed summary left out, and all of them when fewer than
      `k` are listed. */
  ghost predicate RankedTop(out: seq<Summary>, stored: map<string, seq<Hit>>, cutoff: int, k: int) {
    && (forall i :: 0 <= i < |out| ==>
          out[i].token in stored && out[i] == TokenSummary(stored, out[i].token, cutoff) && Listed(out[i]))
    && (forall i, t {:trigger out[i], TokenSummary(stored, t, cutoff)} ::
          (0 <= i < |out| && t in stored && TokenSummary(stored, t, cutoff).total > 0
           && TokenSummary(stored, t, cutoff) !in out)
          ==> StrongerFirst(out[i], TokenSummary(stored, t, cutoff)))
    && (k >= 0 && |out| < k ==>
          forall t {:trigger TokenSummary(stored, t, cutoff)} ::
            t in stored && TokenSummary(stored, t, cutoff).total > 0 ==> TokenSummary(stored, t, cutoff) in out)
  }

  /** The ranked list of everything collected, read back as a statement about
      the stored tokens. */
  lemma RankedCollected(all: seq<Summary>, out: seq<Summary>, expected: map<string, Summary>,
                        stored: map<string, seq<Hit>>, cutoff: int, k: int)
    requires Collected(all, {}, expected) && Expects(expected, stored, cutoff)
    requires forall i :: 0 <= i < |out| ==> out[i] in all
    requires forall i, j :: 0 <= i < |out| && 0 <= j < |all| && all[j] !in out ==> StrongerFirst(out[i], all[j])
    requires |out| == |all| ==> multiset(out) == multiset(all)
    requires k >= 0 ==> |out| == MinInt(k, |all|)
    ensures RankedTop(out, stored, cutoff, k)
  {
    forall i | 0 <= i < |out|
      ensures out[i].token in stored && out[i] == TokenSummary(stored, out[i].token, cutoff) && Listed(out[i])
    {
      var p :| 0 <= p < |all| && all[p] == out[i];
      assert expected[out[i].token] == TokenSummary(stored, out[i].token, cutoff);
    }
    forall i, t | 0 <= i < |out| && t in stored && TokenSummary(stored, t, cutoff).total > 0
                  && TokenSummary(stored, t, cutoff) !in out
      ensures StrongerFirst(out[i], TokenSummary(stored, t, cutoff))
    {
      assert expected[t] == TokenSummary(stored, t, cutoff);
      var j :| 0 <= j < |all| && all[j] == TokenSummary(stored, t, cutoff);
    }
    if k >= 0 && |out| < k {
      forall t | t in stored && TokenSummary(stored, t, cutoff).total > 0
        ensures TokenSummary(stored, t, cutoff) in out
      {
        assert expected[t] == TokenSummary(stored, t, cutoff);
        assert TokenSummary(stored, t, cutoff) in multiset(all);
      }
    }
  }

  /** The `sort` and `slice(0, limit)` ending `listTop`, on a token-distinct
      list of summaries: the strongest ones, strongest first. */
  method RankSummaries(all: seq<Summary>, limit: int) returns (out: seq<Summary>)
    requires forall i, j :: 0 <= i < j < |all| ==> all[i].token != all[j].token
    ensures limit >= 0 ==> |out| == MinInt(limit, |all|)
    ensures limit < 0 ==> |out| == MaxInt(0, |all| + limit)
    ensures Sorting.SortedBy(out, StrongerFirst)
    ensures forall i :: 0 <= i < |out| ==> out[i] in all
    ensures forall i, j :: 0 <= i < j < |out| ==> out[i].token != out[j].token
    ensures forall i, j :: 0 <= i < |out| && 0 <= j < |all| && all[j] !in out ==> StrongerFirst(out[i], all[j])
    ensures |out| == |all| ==> multiset(out) == multiset(all)
  {
    StrongerFirstIsTotalPreorder();
    var sorted := Sorting.SortBy(all, StrongerFirst);
    Sorting.PermutationKeepsKeysDistinct(all, sorted, (g: Summary) => g.token);
    out := SlicePrefix(sorted, limit);
    Sorting.PrefixHoldsBest(all, sorted, |out|, StrongerFirst);
    forall i | 0 <= i < |out| ensures out[i] in all {
      assert out[i] == sorted[i];
    }
  }

  /** The ranking at the end of `listTop`, applied to what its loop collected. */
  method RankCollected(all: seq<Summary>, limit: int, ghost expected: map<string, Summary>,
                       ghost stored: map<string, seq<Hit>>, ghost cutoff: int)
    returns (out: seq<Summary>)
    requires Collected(all, {}, expected) && Expects(expected, stored, cutoff)
    ensures limit >= 0 ==> |out| <= limit
    ensures |out| <= |all|
    ensures forall i, j :: 0 <= i < j < |out| ==> out[i].token != out[j].token
    ensures Sorting.SortedBy(out, StrongerFirst)
    ensures RankedTop(out, stored, cutoff, limit)
  {
    out := RankSummaries(all, limit);
    RankedCollected(all, out, expected, stored, cutoff, limit);
  }

  /** Writing a key twice keeps the second value; removing it forgets both. */
  lemma MapOverwrite<K, V>(m: map<K, V>, k: K, v1: V, v2: V)
    ensures m[k := v1][k := v2] == m[k := v2]
    ensures m[k := v1] - {k} == m - {k}
  {
  }

  class ConvergenceTracker {
    const windowMs: int
    var hits: map<string, seq<Hit>>

    /** Keys are non-empty and upper-case, and no key maps to an empty list. */
    ghost predicate Valid()
      reads this
    {
      forall k :: k in hits ==> k != "" && ToUpper(k) == k && hits[k] != []
    }

    /** `createConvergenceTracker({ windowMs })`. */
    constructor(windowMs: int)
      ensures this.windowMs == windowMs && hits == map[]
      ensures Valid()
    {
      this.windowMs := windowMs;
      hits := map[];
    }

    /** `pruneToken(token)` at time `now`: drops the hits older than the window
        and removes the key when none is left. */
    method PruneToken(token: string, now: int)
      requires Valid()
      modifies this
      ensures Valid()
      ensures token !in old(hits) ==> hits == old(hits)
      ensures token in old(hits) ==>
                var next := KeepRecent(old(hits)[token], now - windowMs);
                hits == if next != [] then old(hits)[token := next] else old(hits) - {token}
      ensures token in hits ==> forall i :: 0 <= i < |hits[token]| ==> hits[token][i].ts >= now - windowMs
    {
      if token !in hits {
        return;
      }
      var arr := hits[token];
      var cutoff := now - windowMs;
      var next := KeepRecent(arr, cutoff);
      KeepRecentKeeps(arr, cutoff);
      if next != [] {
        hits := hits[token := next];
      } else {
        hits := hits - {token};
      }
    }

    /** `note({ token, wallet, tier })` at time `now`. */
    method Note(token: string, wallet: string, tier: string, now: int)
      requires Valid()
      modifies this
      ensures Valid()
      ensures token == "" || wallet == "" || tier == "" ==> hits == old(hits)
      ensures token != "" && wallet != "" && tier != "" ==>
                var t := ToUpper(token);
                var next := KeepRecent([Hit(wallet, tier, now)] + (if t in old(hits) then old(hits)[t] else []),
                                       now - windowMs);
                hits == if next != [] then old(hits)[t := next] else old(hits) - {t}
      ensures token != "" && wallet != "" && tier != "" && windowMs >= 0 ==>
                ToUpper(token) in hits && hits[ToUpper(token)][0] == Hit(wallet, tier, now)
    {
      if token == "" || wallet == "" || tier == "" {
        return;
      }
      var t := ToUpper(token);
      ToUpperIdempotent(token);
      var arr := if t in hits then hits[t] else [];
      arr := [Hit(wallet, tier, now)] + arr;
      MapOverwrite(hits, t, arr, KeepRecent(arr, now - windowMs));
      hits := hits[t := arr];
      PruneToken(t, now);
    }

    /** `get(token)` at time `now`: prunes the token and summarises what is left. */
    method Get(token: string, now: int) returns (g: Summary)
      requires Valid()
      modifies this
      ensures Valid()
      ensures var t := ToUpper(token);
              var arr := if t in old(hits) then KeepRecent(old(hits)[t], now - windowMs) else [];
              && g == SummaryOf(t, arr)
              && (t !in old(hits) ==> hits == old(hits))
              && (t in old(hits) ==> hits == if arr != [] then old(hits)[t := arr] else old(hits) - {t})
      ensures g.token == ToUpper(token) && 0 <= g.strength <= 100
    {
      var t := ToUpper(token);
      PruneToken(t, now);
      var arr := if t in hits then hits[t] else [];
      g := Summarize(t, arr);
    }

    /** One step of `listTop`: `get` on a stored key, seen from the loop. */
    method Visit(token: string, now: int) returns (g: Summary)
      requires Valid() && token in hits
      modifies this
      ensures Valid()
      ensures var arr := KeepRecent(old(hits)[token], now - windowMs);
              && g == SummaryOf(token, arr) && 0 <= g.strength <= 100
              && (arr != [] ==> hits == old(hits)[token := arr])
              && (arr == [] ==> hits == old(hits) - {token})
    {
      assert ToUpper(token) == token;
      g := Get(token, now);
    }

    /** `listTop(limit = 30)` at time `now`: the summaries of the stored
        tokens with at least one S or A wallet in the window, strongest first,
        cut with `slice(0, limit)`; every stored token is pruned on the way. */
    method ListTop(limit: Option<int>, now: int) returns (out: seq<Summary>)
      requires Valid()
      modifies this
      ensures Valid()
      ensures hits == PruneAll(old(hits), now - windowMs)
      ensures var k := limit.GetOr(DefaultListLimit);
              && (k >= 0 ==> |out| <= k)
              && |out| <= |old(hits)|
      ensures forall i, j :: 0 <= i < j < |out| ==> out[i].token != out[j].token
      ensures Sorting.SortedBy(out, StrongerFirst)
      ensures RankedTop(out, old(hits), now - windowMs, limit.GetOr(DefaultListLimit))
    {
      ghost var expected := ExpectedSummaries(hits, now - windowMs);
      ghost var pruned := PruneAllPrunes(hits, now - windowMs);
      var all := CollectAll(now, expected, pruned);
      PrunesIsPruneAll(pruned, old(hits), now - windowMs);
      out := RankCollected(all, limit.GetOr(DefaultListLimit), expected, old(hits), now - windowMs);
    }

    /** One turn of the loop of `listTop`: `get` on the stored token `k`,
        keeping its summary when it has an S or A wallet. */
    method CollectOne(k: string, now: int, all: seq<Summary>, ghost todo: set<string>,
                      ghost expected: map<string, Summary>, ghost pruned: map<string, seq<Hit>>,
                      ghost stored: map<string, seq<Hit>>)
      returns (next: seq<Summary>)
      requires Valid() && k in todo && todo <= hits.Keys
      requires Expects(expected, stored, now - windowMs) && Prunes(pruned, stored, now - windowMs)
      requires Collected(all, todo, expected) && PrunedExcept(hits, todo, pruned, stored)
      modifies this
      ensures Valid() && todo - {k} <= hits.Keys && |next| <= |all| + 1
      ensures Collected(next, todo - {k}, expected) && PrunedExcept(hits, todo - {k}, pruned, stored)
    {
      ghost var before := hits;
      var g := Visit(k, now);
      PruneStep(before, hits, todo, pruned, stored, now - windowMs, k);
      assert g == expected[k] by {
        assert TokenSummary(stored, k, now - windowMs) == SummaryOf(k, KeepRecent(stored[k], now - windowMs));
      }
      CollectStep(all, todo, expected, k, g);
      next := if g.total > 0 then all + [g] else all;
    }

    /** The loop of `listTop`: `get` on every stored token, keeping the
        summaries with an S or A wallet. */
    method CollectAll(now: int, ghost expected: map<string, Summary>, ghost pruned: map<string, seq<Hit>>)
      returns (all: seq<Summary>)
      requires Valid() && Expects(expected, hits, now - windowMs) && Prunes(pruned, hits, now - windowMs)
      modifies this
      ensures Valid()
      ensures hits == pruned
      ensures |all| <= |old(hits)|
      ensures Collected(all, {}, expected)
    {
      ghost var stored := hits;
      var cutoff := now - windowMs;
      all := [];
      var keys := hits.Keys;
      while keys != {}
        invariant Valid()
        invariant keys <= hits.Keys
        invariant |all| + |keys| <= |stored|
        invariant Collected(all, keys, expected)
        invariant PrunedExcept(hits, keys, pruned, stored)
        decreases keys
      {
        var k :| k in keys;
        all := CollectOne(k, now, all, keys, expected, pruned, stored);
        keys := keys - {k};
      }
      PrunedAll(hits, pruned, stored);
    }
  }

  // ---------------------------------------------------------------------------
  // computeLiquidityTrap / computeEntryZone
  // ---------------------------------------------------------------------------

  datatype LiquidityTrap = LiquidityTrap(trap: bool, severity: string, ratio: real, reason: string)

  /** `computeLiquidityTrap({ dexLiquidityUsd, dexVolume24hUsd })`. */
  function ComputeLiquidityTrap(dexLiquidityUsd: Option<real>, dexVolume24hUsd: Option<real>): (t: LiquidityTrap)
    ensures var liq, vol := dexLiquidityUsd.GetOr(0.0), dexVolume24hUsd.GetOr(0.0);
            && (t.trap <==> (vol >= 300000.0 && liq < 25000.0) || (vol >= 600000.0 && liq < 50000.0))
            && (t.severity == "HIGH" <==> vol >= 600000.0 && liq < 50000.0)
            && (t.severity == "MED" <==> t.trap && !(vol >= 600000.0 && liq < 50000.0))
            && (t.severity == "LOW" <==> !t.trap)
            && (liq <= 0.0 ==> t.ratio == 9999.0)
            && (liq > 0.0 ==> t.ratio == ToFixed2(vol / liq))
  {
    var liq := dexLiquidityUsd.GetOr(0.0);
    var vol := dexVolume24hUsd.GetOr(0.0);
    var trap := (vol >= 300000.0 && liq < 25000.0) || (vol >= 600000.0 && liq < 50000.0);
    var severity := if trap && vol >= 600000.0 && liq < 50000.0 then "HIGH" else if trap then "MED" else "LOW";
    var ratio := if liq > 0.0 then ToFixed2(vol / liq) else 9999.0;
    LiquidityTrap(trap, severity, ratio,
                  if trap then "High volume without liquidity support (possible trap)" else "No obvious trap")
  }

  datatype EntryZone = EntryZone(zone: string, entryScore: int, reason: string)

  /** `computeEntryZone({ priceChange1h, priceChange24h })`. */
  function ComputeEntryZone(priceChange1h: Option<real>, priceChange24h: Option<real>): (e: EntryZone)
    ensures var ch1h, ch24 := priceChange1h.GetOr(0.0), priceChange24h.GetOr(0.0);
            var chase := ch1h >= 25.0 || (ch1h >= 18.0 && ch24 >= 80.0);
            && (e.zone == "CHASE" <==> chase)
            && (e.zone == "EARLY" <==> !chase && ch1h <= 8.0 && ch24 <= 45.0)
            && (e.zone == "NEUTRAL" <==> !chase && !(ch1h <= 8.0 && ch24 <= 45.0))
            && e.entryScore == (if e.zone == "CHASE" then 30 else if e.zone == "EARLY" then 82 else 62)
            && e.entryScore != 60
  {
    var ch1h := priceChange1h.GetOr(0.0);
    var ch24 := priceChange24h.GetOr(0.0);
    var chase := ch1h >= 25.0 || (ch1h >= 18.0 && ch24 >= 80.0);
    var early := ch1h <= 8.0 && ch24 <= 45.0;
    var zone := if chase then "CHASE" else if early then "EARLY" else "NEUTRAL";
    var s0 := 60;
    var s1 := if early then 82 else s0;
    var s2 := if zone == "NEUTRAL" then 62 else s1;
    var entryScore := if zone == "CHASE" then 30 else s2;
    EntryZone(zone, entryScore,
              if zone == "CHASE" then "Overextended \U{2014} chase risk"
              else if zone == "EARLY" then "Early move \U{2014} better RR"
              else "Mixed conditions")
  }
}
