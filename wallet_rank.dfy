/**
  `createWalletRanker` of `wallet_rank.js`: per-wallet performance records
  whose score moves with activity, wins and losses, and whose tier follows
  the score. The JSON file load and save are not part of this model.
*/
module WalletRank {
  import opened Js
  import Sorting

  datatype WalletPerf = WalletPerf(tier: string, score: int, wins: int, losses: int,
                                   lastSeen: int, lastToken: Option<string>)

  /** The record `ensure` creates for an unknown address. */
  const Fresh: WalletPerf := WalletPerf("A", 50, 0, 0, 0, None)

  /** `updateTier`: S from 80, A from 60, B from 40, else C. */
  function Bucket(score: int): (t: string)
    ensures t in {"S", "A", "B", "C"}
  {
    if score >= 80 then "S" else if score >= 60 then "A" else if score >= 40 then "B" else "C"
  }

  /** The fresh record is not bucketed: its score 50 would give tier B. */
  lemma FreshTierIsNotItsBucket()
    ensures Fresh.tier == "A" && Bucket(Fresh.score) == "B"
  {
  }

  /** A record in a reachable state: score in [0, 100], and the tier is the
      bucket of the score unless the record was never updated. */
  ghost predicate GoodRecord(w: WalletPerf) {
    0 <= w.score <= 100 && w.wins >= 0 && w.losses >= 0
    && (w == Fresh || w.tier == Bucket(w.score))
  }

  const DefaultTopLimit := 20

  /** One row of `topWallets`: `{ address, ...w }`. */
  datatype Ranked = Ranked(address: string, perf: WalletPerf)

  /** The comparator `(b.score - a.score) || (b.wins - a.wins) || (a.losses - b.losses)`. */
  function BetterFirst(a: Ranked, b: Ranked): bool {
    a.perf.score > b.perf.score
    || (a.perf.score == b.perf.score
        && (a.perf.wins > b.perf.wins || (a.perf.wins == b.perf.wins && a.perf.losses <= b.perf.losses)))
  }

  lemma BetterFirstIsTotalPreorder()
    ensures Sorting.TotalPreorder(BetterFirst)
  {
  }

  class WalletRanker {
    var wallets: map<string, WalletPerf>

    ghost predicate Valid()
      reads this
    {
      forall a :: a in wallets ==> GoodRecord(wallets[a])
    }

    /** Starts from an empty (or not yet loaded) state. */
    constructor()
      ensures wallets == map[] && Valid()
    {
      wallets := map[];
    }

    /** `ensure(addr)`: the record of `addr`, created fresh when missing. */
    method Ensure(addr: string) returns (w: WalletPerf)
      requires Valid()
      modifies this
      ensures Valid()
      ensures w == (if addr in old(wallets) then old(wallets)[addr] else Fresh)
      ensures wallets == old(wallets)[addr := w]
    {
      if addr !in wallets {
        wallets := wallets[addr := Fresh];
      }
      w := wallets[addr];
    }

    /** `noteActivity(addr, token)` at time `now`. */
    method NoteActivity(addr: string, token: string, now: int) returns (w: WalletPerf)
      requires Valid()
      modifies this
      ensures Valid()
      ensures var before := if addr in old(wallets) then old(wallets)[addr] else Fresh;
              && w.score == ClampInt(before.score + 2, 0, 100)
              && w.tier == Bucket(w.score)
              && w.lastSeen == now
              && w.lastToken == (if token != "" then Some(token) else before.lastToken)
              && w.wins == before.wins && w.losses == before.losses
      ensures wallets == old(wallets)[addr := w]
    {
      var cur := Ensure(addr);
      var score := ClampInt(cur.score + 2, 0, 100);
      w := cur.(lastSeen := now,
                lastToken := if token != "" then Some(token) else cur.lastToken,
                score := score,
                tier := Bucket(score));
      wallets := wallets[addr := w];
    }

    /** `noteWin(addr)`: one more win, ten more points. */
    method NoteWin(addr: string) returns (w: WalletPerf)
      requires Valid()
      modifies this
      ensures Valid()
      ensures var before := if addr in old(wallets) then old(wallets)[addr] else Fresh;
              && w == before.(wins := before.wins + 1,
                              score := ClampInt(before.score + 10, 0, 100),
                              tier := Bucket(ClampInt(before.score + 10, 0, 100)))
      ensures wallets == old(wallets)[addr := w]
    {
      var cur := Ensure(addr);
      var score := ClampInt(cur.score + 10, 0, 100);
      w := cur.(wins := cur.wins + 1, score := score, tier := Bucket(score));
      wallets := wallets[addr := w];
    }

    /** `noteLoss(addr)`: one more loss, ten points fewer. */
    method NoteLoss(addr: string) returns (w: WalletPerf)
      requires Valid()
      modifies this
      ensures Valid()
      ensures var before := if addr in old(wallets) then old(wallets)[addr] else Fresh;
              && w == before.(losses := before.losses + 1,
                              score := ClampInt(before.score - 10, 0, 100),
                              tier := Bucket(ClampInt(before.score - 10, 0, 100)))
      ensures wallets == old(wallets)[addr := w]
    {
      var cur := Ensure(addr);
      var score := ClampInt(cur.score - 10, 0, 100);
      w := cur.(losses := cur.losses + 1, score := score, tier := Bucket(score));
      wallets := wallets[addr := w];
    }

    /** `getTier(addr, fallbackTier)`: creates the record when missing; a
        record's tier is never empty, so the fallback is never used. */
    method GetTier(addr: string, fallbackTier: string) returns (tier: string)
      requires Valid()
      modifies this
      ensures Valid()
      ensures tier == (if addr in old(wallets) then old(wallets)[addr].tier else "A")
      ensures tier in {"S", "A", "B", "C"}
      ensures wallets == old(wallets)[addr := if addr in old(wallets) then old(wallets)[addr] else Fresh]
    {
      var w := Ensure(addr);
      tier := if w.tier != "" then w.tier else fallbackTier;
    }

    /** `Object.entries(state.wallets).map(([address, w]) => ({ address, ...w }))`,
        in some order. */
    method Entries() returns (entries: seq<Ranked>)
      ensures |entries| == |wallets|
      ensures forall i :: 0 <= i < |entries| ==>
                entries[i].address in wallets && wallets[entries[i].address] == entries[i].perf
      ensures forall i, j :: 0 <= i < j < |entries| ==> entries[i].address != entries[j].address
      ensures forall a :: a in wallets ==> Ranked(a, wallets[a]) in entries
    {
      entries := [];
      var keys := wallets.Keys;
      while keys != {}
        invariant keys <= wallets.Keys
        invariant |entries| + |keys| == |wallets|
        invariant forall i :: 0 <= i < |entries| ==> entries[i].address in wallets - keys
                                                     && wallets[entries[i].address] == entries[i].perf
        invariant forall i, j :: 0 <= i < j < |entries| ==> entries[i].address != entries[j].address
        invariant forall a :: a in wallets && a !in keys ==> Ranked(a, wallets[a]) in entries
        decreases keys
      {
        var a :| a in keys;
        keys := keys - {a};
        entries := entries + [Ranked(a, wallets[a])];
      }
    }

    /** `topWallets(limit = 20)`: every record, best first, cut with
        `slice(0, limit)`. */
    method TopWallets(limit: Option<int>) returns (out: seq<Ranked>)
      ensures var k := limit.GetOr(DefaultTopLimit);
              && (k >= 0 ==> |out| == MinInt(k, |wallets|))
              && (k < 0 ==> |out| == MaxInt(0, |wallets| + k))
      ensures Sorting.SortedBy(out, BetterFirst)
      ensures forall i :: 0 <= i < |out| ==> out[i].address in wallets && wallets[out[i].address] == out[i].perf
      ensures forall i, j :: 0 <= i < j < |out| ==> out[i].address != out[j].address
      ensures forall i, a :: 0 <= i < |out| && a in wallets && Ranked(a, wallets[a]) !in out ==>
                BetterFirst(out[i], Ranked(a, wallets[a]))
      ensures limit.GetOr(DefaultTopLimit) >= 0 && |out| < limit.GetOr(DefaultTopLimit) ==>
                forall a :: a in wallets ==> Ranked(a, wallets[a]) in out
    {
      var entries := Entries();
      out := RankEntries(entries, limit.GetOr(DefaultTopLimit));
      forall i, a | 0 <= i < |out| && a in wallets && Ranked(a, wallets[a]) !in out
        ensures BetterFirst(out[i], Ranked(a, wallets[a]))
      {
        var j :| 0 <= j < |entries| && entries[j] == Ranked(a, wallets[a]);
      }
      if limit.GetOr(DefaultTopLimit) >= 0 && |out| < limit.GetOr(DefaultTopLimit) {
        forall a | a in wallets ensures Ranked(a, wallets[a]) in out {
          assert Ranked(a, wallets[a]) in multiset(entries);
        }
      }
    }
  }

  /** The `sort(...)` by `BetterFirst` and `slice(0, limit)` of an
      address-distinct list of rows. */
  method RankEntries(entries: seq<Ranked>, limit: int) returns (out: seq<Ranked>)
    requires forall i, j :: 0 <= i < j < |entries| ==> entries[i].address != entries[j].address
    ensures limit >= 0 ==> |out| == MinInt(limit, |entries|)
    ensures limit < 0 ==> |out| == MaxInt(0, |entries| + limit)
    ensures Sorting.SortedBy(out, BetterFirst)
    ensures forall i :: 0 <= i < |out| ==> out[i] in entries
    ensures forall i, j :: 0 <= i < j < |out| ==> out[i].address != out[j].address
    ensures forall i, j :: 0 <= i < |out| && 0 <= j < |entries| && entries[j] !in out ==> BetterFirst(out[i], entries[j])
    ensures |out| == |entries| ==> multiset(out) == multiset(entries)
  {
    BetterFirstIsTotalPreorder();
    var sorted := Sorting.SortBy(entries, BetterFirst);
    Sorting.PermutationKeepsKeysDistinct(entries, sorted, (r: Ranked) => r.address);
    out := SlicePrefix(sorted, limit);
    Sorting.PrefixHoldsBest(entries, sorted, |out|, BetterFirst);
    forall i | 0 <= i < |out| ensures out[i] in entries {
      assert out[i] == sorted[i];
    }
  }
}
