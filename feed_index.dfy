/**
  The in-memory stores of `index.js`: the signal `feed` (newest first, at
  most 200 entries) and the `convergenceHits` counters keyed by upper-cased
  token, with the `/convergence` route that lists the rows by strength.
*/
module FeedIndex {
  import opened Js
  import Sorting

  const FeedCap := 200
  const DefaultConvergenceLimit := 25

  /** A feed entry; only the fields a route looks at are kept. */
  datatype FeedSignal = FeedSignal(token: string, message: string, highConviction: bool)

  /** A `convergenceHits` row `{ token, sCount, aCount, strength }`. */
  datatype Row = Row(token: string, sCount: nat, aCount: nat, strength: int)

  /** `Math.min(100, sCount * 45 + aCount * 18)`. */
  function Strength(sCount: nat, aCount: nat): (r: int)
    ensures 0 <= r <= 100
    ensures r == 100 <==> 45 * sCount + 18 * aCount >= 100
    ensures r < 100 ==> r == 45 * sCount + 18 * aCount
  {
    MinInt(100, sCount * 45 + aCount * 18)
  }

  /** More notes never lower the strength. */
  lemma StrengthMonotone(s1: nat, a1: nat, s2: nat, a2: nat)
    requires s1 <= s2 && a1 <= a2
    ensures Strength(s1, a1) <= Strength(s2, a2)
  {
    assert 45 * s1 + 18 * a1 <= 45 * s2 + 18 * a2;
  }

  /** The comparator `(a, b) => b.strength - a.strength`. */
  predicate StrongerFirst(a: Row, b: Row) {
    a.strength >= b.strength
  }

  lemma StrongerFirstIsTotalPreorder()
    ensures Sorting.TotalPreorder(StrongerFirst)
  {
  }

  /** The `limit` of `/convergence`: `Number(req.query.limit || 25)`, where an
      absent or empty query value is `None`. */
  function ConvergenceLimit(query: Option<int>): (k: int)
    ensures query.None? ==> k == DefaultConvergenceLimit
    ensures query.Some? ==> k == query.value
  {
    query.GetOr(DefaultConvergenceLimit)
  }

  class Backend {
    var feed: seq<FeedSignal>
    var convergenceHits: map<string, Row>

    /** The feed is capped; every row is stored under its own upper-case token,
        has been noted at least once and carries the strength of its counts. */
    ghost predicate Valid()
      reads this
    {
      && |feed| <= FeedCap
      && forall k :: k in convergenceHits ==>
           var row := convergenceHits[k];
           && row.token == k && ToUpper(k) == k
           && row.sCount + row.aCount >= 1
           && row.strength == Strength(row.sCount, row.aCount)
    }

    constructor()
      ensures feed == [] && convergenceHits == map[]
      ensures Valid()
    {
      feed := [];
      convergenceHits := map[];
    }

    /** `addSignal(signal)`: `feed.unshift(signal)` and truncation to 200. */
    method AddSignal(signal: FeedSignal)
      requires Valid()
      modifies this
      ensures Valid()
      ensures feed == SlicePrefix([signal] + old(feed), FeedCap)
      ensures feed[0] == signal
      ensures |feed| == MinInt(FeedCap, |old(feed)| + 1)
      ensures feed[1..] == old(feed)[..|feed| - 1]
      ensures convergenceHits == old(convergenceHits)
    {
      feed := [signal] + feed;
      if |feed| > FeedCap {
        feed := feed[..FeedCap];
      }
    }

    /** `noteConvergence(token, tier)`: one more note for the upper-cased token,
        counted as `sCount` for tier "S" and as `aCount` for anything else. */
    method NoteConvergence(token: string, tier: string)
      requires Valid()
      modifies this
      ensures Valid()
      ensures var t := ToUpper(token);
              var before := if t in old(convergenceHits) then old(convergenceHits)[t] else Row(t, 0, 0, 0);
              var s := before.sCount + (if tier == "S" then 1 else 0);
              var a := before.aCount + (if tier == "S" then 0 else 1);
              convergenceHits == old(convergenceHits)[t := Row(t, s, a, Strength(s, a))]
      ensures feed == old(feed)
    {
      var t := ToUpper(token);
      ToUpperIdempotent(token);
      var row := if t in convergenceHits then convergenceHits[t] else Row(t, 0, 0, 0);
      if tier == "S" {
        row := row.(sCount := row.sCount + 1);
      } else {
        row := row.(aCount := row.aCount + 1);
      }
      row := row.(strength := Strength(row.sCount, row.aCount));
      convergenceHits := convergenceHits[t := row];
    }

    /** `Array.from(convergenceHits.values())`, in some order. */
    method Rows() returns (all: seq<Row>)
      requires Valid()
      ensures |all| == |convergenceHits|
      ensures forall i :: 0 <= i < |all| ==>
                all[i].token in convergenceHits && convergenceHits[all[i].token] == all[i]
      ensures forall i, j :: 0 <= i < j < |all| ==> all[i].token != all[j].token
      ensures forall k :: k in convergenceHits ==> convergenceHits[k] in all
    {
      all := [];
      var keys := convergenceHits.Keys;
      while keys != {}
        invariant keys <= convergenceHits.Keys
        invariant |all| + |keys| == |convergenceHits|
        invariant forall i :: 0 <= i < |all| ==>
                    all[i].token in convergenceHits.Keys - keys && convergenceHits[all[i].token] == all[i]
        invariant forall i, j :: 0 <= i < j < |all| ==> all[i].token != all[j].token
        invariant forall k :: k in convergenceHits && k !in keys ==> convergenceHits[k] in all
        decreases keys
      {
        var k :| k in keys;
        keys := keys - {k};
        all := all + [convergenceHits[k]];
      }
    }

    /** `GET /convergence`: every row, sorted by strength descending, cut to
        the limit with `slice(0, limit)`. */
    method Convergence(query: Option<int>) returns (list: seq<Row>)
      requires Valid()
      ensures var k := ConvergenceLimit(query);
              && (k >= 0 ==> |list| == MinInt(k, |convergenceHits|))
              && (k < 0 ==> |list| == MaxInt(0, |convergenceHits| + k))
      ensures Sorting.SortedBy(list, StrongerFirst)
      ensures forall i :: 0 <= i < |list| ==>
                list[i].token in convergenceHits && convergenceHits[list[i].token] == list[i]
      ensures forall i, j :: 0 <= i < j < |list| ==> list[i].token != list[j].token
      ensures forall i, k :: 0 <= i < |list| && k in convergenceHits && convergenceHits[k] !in list ==>
                StrongerFirst(list[i], convergenceHits[k])
      ensures ConvergenceLimit(query) >= 0 && |list| < ConvergenceLimit(query) ==>
                forall k :: k in convergenceHits ==> convergenceHits[k] in list
    {
      var all := Rows();
      list := RankRows(all, ConvergenceLimit(query));
      forall i, k | 0 <= i < |list| && k in convergenceHits && convergenceHits[k] !in list
        ensures StrongerFirst(list[i], convergenceHits[k])
      {
        var j :| 0 <= j < |all| && all[j] == convergenceHits[k];
      }
      if ConvergenceLimit(query) >= 0 && |list| < ConvergenceLimit(query) {
        forall k | k in convergenceHits ensures convergenceHits[k] in list {
          assert convergenceHits[k] in multiset(all);
        }
      }
    }
  }

  /** The `sort((a, b) => b.strength - a.strength).slice(0, limit)` of a
      token-distinct list of rows. */
  method RankRows(all: seq<Row>, limit: int) returns (list: seq<Row>)
    requires forall i, j :: 0 <= i < j < |all| ==> all[i].token != all[j].token
    ensures limit >= 0 ==> |list| == MinInt(limit, |all|)
    ensures limit < 0 ==> |list| == MaxInt(0, |all| + limit)
    ensures Sorting.SortedBy(list, StrongerFirst)
    ensures forall i :: 0 <= i < |list| ==> list[i] in all
    ensures forall i, j :: 0 <= i < j < |list| ==> list[i].token != list[j].token
    ensures forall i, j :: 0 <= i < |list| && 0 <= j < |all| && all[j] !in list ==> StrongerFirst(list[i], all[j])
    ensures |list| == |all| ==> multiset(list) == multiset(all)
  {
    StrongerFirstIsTotalPreorder();
    var sorted := Sorting.SortBy(all, StrongerFirst);
    Sorting.PermutationKeepsKeysDistinct(all, sorted, (r: Row) => r.token);
    list := SlicePrefix(sorted, limit);
    Sorting.PrefixHoldsBest(all, sorted, |list|, StrongerFirst);
    forall i | 0 <= i < |list| ensures list[i] in all {
      assert list[i] == sorted[i];
    }
  }
}
