/**
  The per-license state of `src/server.js`: the users keyed by the hash of
  their license key, each user's log of wallet buys and log of convergence
  hits, and the shared feedback log. The routes that read and change them
  are methods of `Backend`; the license hash is a parameter, `Date.now()` is
  the parameter `now`, and the JSON persistence is not part of this model.
*/
module ServerStore {
  import opened Js
  import ServerGate

  const BuysCap := 5000
  const HitsCap := 1000
  const FeedbackCap := 5000
  const PostedWalletsCap := 25
  const DefaultHitsLimit := 25
  const MaxHitsLimit := 100
  const DefaultFeedbackLimit := 50
  const MaxFeedbackLimit := 200
  const DefaultWindowMins := 10
  const DefaultMinWallets := 3
  const MinuteMs := 60000

  /** `usersByHash[h]`: `{ tier, wallets, createdAt }`. */
  datatype User = User(tier: string, wallets: seq<ServerGate.Wallet>, createdAt: int)

  /** An entry of `walletBuysByUser[h]`. */
  datatype Buy = Buy(wallet: string, mint: string, ts: int, signature: string)

  /** A wallet listed in a hit: `{ address, label }`. */
  datatype HitWallet = HitWallet(address: string, caption: string)

  /** A hit's `detail`: the text a client posted, or the sentence ingest
      writes from the number of distinct wallets and the window. */
  datatype Detail = Text(text: string) | Converged(uniqCount: nat, windowMins: int)

  /** An entry of `convergenceByUser[h]`. */
  datatype Hit = Hit(time: int, token: string, chain: string, pair: string, score: string,
                     detail: Detail, wallet: string, wallets: seq<HitWallet>, windowMins: int)

  /** An entry of the feedback log. */
  datatype Feedback = Feedback(time: int, chain: string, pair: string, outcome: string, notes: string)

  /** A token transfer of a Helius event: the receiving account, the mint and
      `Number(amount)`, `None` when that is not a finite number. */
  datatype Transfer = Transfer(to: string, mint: string, amount: Option<real>)

  /** A Helius event: its signature ("" when absent) and its transfers. */
  datatype Event = Event(signature: string, transfers: seq<Transfer>)

  // ---------------------------------------------------------------------------
  // Bounded newest-first logs
  // ---------------------------------------------------------------------------

  /** `list.unshift(x)` followed by one `list.pop()` when the length passes
      `cap`. */
  function PushCapped<T>(x: T, list: seq<T>, cap: nat): (r: seq<T>)
    requires 0 < cap
  {
    var next := [x] + list;
    if |next| > cap then next[..|next| - 1] else next
  }

  /** On a list within its cap, the new entry goes first, the others follow in
      their order, the oldest one drops out when the cap is passed, and the
      cap still holds. */
  lemma PushCappedShape<T>(x: T, list: seq<T>, cap: nat)
    requires 0 < cap && |list| <= cap
    ensures var r := PushCapped(x, list, cap);
            && r == SlicePrefix([x] + list, cap)
            && |r| <= cap && r[0] == x
            && r[1..] == list[..|r| - 1]
  {
    var r := PushCapped(x, list, cap);
    assert r[1..] == ([x] + list)[1..|r|];
  }

  // ---------------------------------------------------------------------------
  // The buys log
  // ---------------------------------------------------------------------------

  /** `buys.some((b) => b.wallet === wallet && b.mint === mint)`. */
  predicate HasPair(buys: seq<Buy>, wallet: string, mint: string) {
    exists i :: 0 <= i < |buys| && buys[i].wallet == wallet && buys[i].mint == mint
  }

  /** No `(wallet, mint)` pair is logged twice. */
  predicate PairsDistinct(buys: seq<Buy>) {
    forall i, j :: 0 <= i < j < |buys| ==> buys[i].wallet != buys[j].wallet || buys[i].mint != buys[j].mint
  }

  /** Logging a pair that is not in the log keeps the pairs distinct (even
      when the oldest entry drops out). */
  lemma PushNewPairKeepsDistinct(b: Buy, buys: seq<Buy>)
    requires |buys| <= BuysCap && PairsDistinct(buys) && !HasPair(buys, b.wallet, b.mint)
    ensures PairsDistinct(PushCapped(b, buys, BuysCap))
  {
    var r := PushCapped(b, buys, BuysCap);
    PushCappedShape(b, buys, BuysCap);
    forall i, j | 0 <= i < j < |r| ensures r[i].wallet != r[j].wallet || r[i].mint != r[j].mint {
      assert r[j] == buys[j - 1];
      if i > 0 {
        assert r[i] == buys[i - 1];
      }
    }
  }

  /** The wallets of `buys` that bought `mint` at or after `cutoff`: the keys
      of the `uniq` map built from `recent`. */
  function RecentWallets(buys: seq<Buy>, mint: string, cutoff: int): (r: set<string>)
    ensures |r| <= |buys|
  {
    if buys == [] then {}
    else
      var last := buys[|buys| - 1];
      var front := RecentWallets(buys[..|buys| - 1], mint, cutoff);
      if last.mint == mint && last.ts >= cutoff then
        assert |front + {last.wallet}| <= |front| + 1;
        front + {last.wallet}
      else front
  }

  /** A wallet is counted exactly when one of its buys of `mint` is in the
      window. */
  lemma {:induction false} RecentWalletsIff(buys: seq<Buy>, mint: string, cutoff: int, w: string)
    ensures w in RecentWallets(buys, mint, cutoff) <==>
            exists i :: 0 <= i < |buys| && buys[i].wallet == w && buys[i].mint == mint && buys[i].ts >= cutoff
  {
    if buys != [] {
      var front := buys[..|buys| - 1];
      RecentWalletsIff(front, mint, cutoff, w);
      assert forall i :: 0 <= i < |front| ==> front[i] == buys[i];
    }
  }

  /** `(convergenceByUser[h] || []).find((h) => h.token === mint && now - h.time <= windowMs)`
      finds something. */
  predicate HasRecentHit(hits: seq<Hit>, mint: string, now: int, windowMs: int) {
    exists i :: 0 <= i < |hits| && hits[i].token == mint && now - hits[i].time <= windowMs
  }

  /** `wallets.filter((w) => uniq.has(w.address)).map((w) => ({ address, label }))`. */
  function HitWallets(wallets: seq<ServerGate.Wallet>, uniq: set<string>): (r: seq<HitWallet>)
    ensures |r| <= |wallets|
    ensures forall i :: 0 <= i < |r| ==> r[i].address in uniq
  {
    if wallets == [] then []
    else
      var w := wallets[0];
      (if w.address in uniq then [HitWallet(w.address, w.caption)] else []) + HitWallets(wallets[1..], uniq)
  }

  /** Every user wallet among the counted ones is listed in the hit. */
  lemma {:induction false} HitWalletsComplete(wallets: seq<ServerGate.Wallet>, uniq: set<string>)
    ensures forall i :: 0 <= i < |wallets| && wallets[i].address in uniq ==>
              HitWallet(wallets[i].address, wallets[i].caption) in HitWallets(wallets, uniq)
  {
    if wallets != [] {
      HitWalletsComplete(wallets[1..], uniq);
      assert forall i :: 1 <= i < |wallets| ==> wallets[i] == wallets[1..][i - 1];
    }
  }

  /** The hit ingest logs for `mint`, from the counted wallets. */
  function ConvergenceHit(mint: string, uniq: set<string>, wallets: seq<ServerGate.Wallet>,
                          windowMins: int, now: int): Hit
  {
    Hit(now, mint, "solana", "", "HC", Converged(|uniq|, windowMins), "", HitWallets(wallets, uniq), windowMins)
  }

  /** `Math.max(2, Number(process.env.MS_CONV_MIN_WALLETS || 3))`. */
  function MinWallets(env: Option<int>): (m: int)
    ensures m >= 2
    ensures env.None? ==> m == DefaultMinWallets
    ensures env.Some? && env.value >= 2 ==> m == env.value
  {
    MaxInt(2, env.GetOr(DefaultMinWallets))
  }

  /** `String(user.tier || "PRO").toUpperCase()`. */
  function TierOf(u: User): (t: string)
    ensures |t| == (if u.tier == "" then 3 else |u.tier|)
    ensures u.tier == "" ==> t == "PRO"
    ensures u.tier != "" ==> t == ToUpper(u.tier)
    ensures forall i :: 0 <= i < |t| ==> !IsLower(t[i])
  {
    ToUpper(if u.tier == "" then "PRO" else u.tier)
  }

  /** A user lists `a` as an enabled wallet (after `normAddr`). */
  predicate ListsAddress(wallets: seq<ServerGate.Wallet>, a: string) {
    exists i :: 0 <= i < |wallets| && wallets[i].enabled && Trim(wallets[i].address) == a
  }

  /** What `upsertUserForKey` leaves in a per-user map: the entry if there
      was one, else the initial value. */
  function Upserted<V>(m: map<string, V>, h: string, initial: V): (r: map<string, V>)
    ensures h in r
    ensures r.Keys == m.Keys + {h}
    ensures forall k :: k in m ==> r[k] == m[k]
    ensures h !in m ==> r[h] == initial
  {
    if h in m then m else m[h := initial]
  }

  function GetList<V>(m: map<string, seq<V>>, h: string): seq<V> {
    if h in m then m[h] else []
  }

  predicate BuysOk(m: map<string, seq<Buy>>) {
    forall h :: h in m ==> |m[h]| <= BuysCap && PairsDistinct(m[h])
  }

  predicate HitsOk(m: map<string, seq<Hit>>) {
    forall h :: h in m ==> |m[h]| <= HitsCap
  }

  ghost predicate UserOk(u: User) {
    && |u.wallets| <= MaxInt(1, ServerGate.MaxWalletsForTier(TierOf(u)))
    && forall i :: 0 <= i < |u.wallets| ==>
         Trim(u.wallets[i].address) == u.wallets[i].address && ServerGate.IsSolanaAddr(u.wallets[i].address)
  }

  ghost predicate UsersOk(m: map<string, User>) {
    forall h :: h in m ==> UserOk(m[h])
  }

  /** A user row with no wallets is within every tier's limit. */
  lemma NoWalletsOk(u: User)
    requires u.wallets == []
    ensures UserOk(u)
  {
    assert MaxInt(1, ServerGate.MaxWalletsForTier(TierOf(u))) >= 1;
  }

  lemma UpsertKeepsOk(users: map<string, User>, buys: map<string, seq<Buy>>, hits: map<string, seq<Hit>>,
                      h: string, now: int)
    requires UsersOk(users) && BuysOk(buys) && HitsOk(hits)
    ensures UsersOk(Upserted(users, h, User("PRO", [], now)))
    ensures BuysOk(Upserted(buys, h, [])) && HitsOk(Upserted(hits, h, []))
  {
    NoWalletsOk(User("PRO", [], now));
  }

  /** Replacing a user's wallets with a list the user's tier allows keeps
      every row well formed. */
  lemma SetWalletsKeepsOk(users: map<string, User>, h: string, cleaned: seq<ServerGate.Wallet>)
    requires UsersOk(users) && h in users
    requires |cleaned| <= MaxInt(1, ServerGate.MaxWalletsForTier(TierOf(users[h])))
    requires forall i :: 0 <= i < |cleaned| ==>
               Trim(cleaned[i].address) == cleaned[i].address && ServerGate.IsSolanaAddr(cleaned[i].address)
    ensures UsersOk(users[h := users[h].(wallets := cleaned)])
  {
    var u := users[h].(wallets := cleaned);
    assert TierOf(u) == TierOf(users[h]);
    assert UserOk(u);
  }

  class Backend {
    var users: map<string, User>
    var buysByUser: map<string, seq<Buy>>
    var hitsByUser: map<string, seq<Hit>>
    var feedback: seq<Feedback>

    /** Every log is within its cap, no user has a `(wallet, mint)` pair
        logged twice, and every stored wallet is a trimmed Solana address,
        no more of them than the user's tier allows (and at least one). */
    ghost predicate Valid()
      reads this
    {
      BuysOk(buysByUser) && HitsOk(hitsByUser) && |feedback| <= FeedbackCap && UsersOk(users)
    }

    constructor()
      ensures users == map[] && buysByUser == map[] && hitsByUser == map[] && feedback == []
      ensures Valid()
    {
      users := map[];
      buysByUser := map[];
      hitsByUser := map[];
      feedback := [];
    }

    /** `upsertUserForKey(key)` for the key's hash `h`: a new user gets tier
        PRO, no wallets and empty logs; an existing one is left as it is. */
    method UpsertUser(h: string, now: int)
      requires Valid()
      modifies this
      ensures Valid()
      ensures users == Upserted(old(users), h, User("PRO", [], now))
      ensures buysByUser == Upserted(old(buysByUser), h, [])
      ensures hitsByUser == Upserted(old(hitsByUser), h, [])
      ensures feedback == old(feedback)
    {
      UpsertKeepsOk(users, buysByUser, hitsByUser, h, now);
      users := Upserted(users, h, User("PRO", [], now));
      buysByUser := Upserted(buysByUser, h, []);
      hitsByUser := Upserted(hitsByUser, h, []);
    }

    /** `POST /wallet/hit`: 400 without a token or a chain (the user is
        upserted either way); otherwise the hit is logged first. */
    method PostWalletHit(h: string, token: string, chain: string, pair: string, score: string,
                         detail: string, wallet: string, wallets: seq<HitWallet>,
                         windowMins: Option<int>, now: int) returns (status: int)
      requires Valid()
      modifies this
      ensures Valid()
      ensures status == 400 <==> token == "" || chain == ""
      ensures status == 400 || status == 200
      ensures users == Upserted(old(users), h, User("PRO", [], now))
      ensures buysByUser == Upserted(old(buysByUser), h, [])
      ensures feedback == old(feedback)
      ensures var before := Upserted(old(hitsByUser), h, []);
              && (status == 400 ==> hitsByUser == before)
              && (status == 200 ==>
                    var hit := Hit(now, token, chain, pair, if score == "" then "ARM" else score,
                                   Text(detail), wallet, SlicePrefix(wallets, PostedWalletsCap),
                                   windowMins.GetOr(DefaultWindowMins));
                    hitsByUser == before[h := PushCapped(hit, before[h], HitsCap)])
    {
      UpsertUser(h, now);
      if token == "" || chain == "" {
        return 400;
      }
      var hit := Hit(now, token, chain, pair, if score == "" then "ARM" else score,
                     Text(detail), wallet, SlicePrefix(wallets, PostedWalletsCap),
                     windowMins.GetOr(DefaultWindowMins));
      PushCappedShape(hit, hitsByUser[h], HitsCap);
      hitsByUser := hitsByUser[h := PushCapped(hit, hitsByUser[h], HitsCap)];
      return 200;
    }

    /** `GET /wallet/hits`: the newest `Math.min(100, limit || 25)` hits. */
    method WalletHits(h: string, limit: Option<int>, now: int) returns (hits: seq<Hit>)
      requires Valid()
      modifies this
      ensures Valid()
      ensures users == Upserted(old(users), h, User("PRO", [], now))
      ensures buysByUser == Upserted(old(buysByUser), h, [])
      ensures hitsByUser == Upserted(old(hitsByUser), h, [])
      ensures feedback == old(feedback)
      ensures hits == SlicePrefix(hitsByUser[h], MinInt(MaxHitsLimit, limit.GetOr(DefaultHitsLimit)))
      ensures hits == hitsByUser[h][..|hits|]
      ensures var k := limit.GetOr(DefaultHitsLimit);
              && (k >= 0 ==> |hits| == MinInt(MinInt(MaxHitsLimit, k), |hitsByUser[h]|) && |hits| <= MaxHitsLimit)
              && (k < 0 ==> |hits| == MaxInt(0, |hitsByUser[h]| + k))
    {
      UpsertUser(h, now);
      hits := SlicePrefix(hitsByUser[h], MinInt(MaxHitsLimit, limit.GetOr(DefaultHitsLimit)));
    }

    /** `GET /user/wallets`: the upper-cased tier, its allowance and the
        stored wallets. */
    method GetWallets(h: string, now: int) returns (tier: string, max: int, wallets: seq<ServerGate.Wallet>)
      requires Valid()
      modifies this
      ensures Valid()
      ensures users == Upserted(old(users), h, User("PRO", [], now))
      ensures buysByUser == Upserted(old(buysByUser), h, [])
      ensures hitsByUser == Upserted(old(hitsByUser), h, [])
      ensures feedback == old(feedback)
      ensures tier == TierOf(users[h]) && max == ServerGate.MaxWalletsForTier(tier)
      ensures wallets == users[h].wallets && |wallets| <= MaxInt(1, max)
    {
      UpsertUser(h, now);
      tier := TierOf(users[h]);
      max := ServerGate.MaxWalletsForTier(tier);
      wallets := users[h].wallets;
    }

    /** `PUT /user/wallets`: the cleaned list replaces the user's wallets. */
    method PutWallets(h: string, incoming: seq<ServerGate.WalletInput>, now: int)
      returns (tier: string, max: int, cleaned: seq<ServerGate.Wallet>)
      requires Valid()
      modifies this
      ensures Valid()
      ensures var upserted := Upserted(old(users), h, User("PRO", [], now));
              && tier == TierOf(upserted[h])
              && users == upserted[h := upserted[h].(wallets := cleaned)]
      ensures max == ServerGate.MaxWalletsForTier(tier)
      ensures var all := ServerGate.AllCleaned(incoming, now);
              cleaned == all[..MinInt(|all|, MaxInt(1, max))]
      ensures buysByUser == Upserted(old(buysByUser), h, [])
      ensures hitsByUser == Upserted(old(hitsByUser), h, [])
      ensures feedback == old(feedback)
    {
      UpsertUser(h, now);
      tier := TierOf(users[h]);
      max := ServerGate.MaxWalletsForTier(tier);
      cleaned := ServerGate.CleanWallets(incoming, max, now);
      ghost var all := ServerGate.AllCleaned(incoming, now);
      assert forall i :: 0 <= i < |cleaned| ==> cleaned[i] == all[i];
      SetWalletsKeepsOk(users, h, cleaned);
      users := users[h := users[h].(wallets := cleaned)];
    }

    /** The `walletToUsers` map of the webhook: each enabled, non-blank
        wallet address to the users listing it. */
    method WalletIndex() returns (index: map<string, seq<string>>)
      ensures forall a :: a in index ==> a != "" && forall k :: 0 <= k < |index[a]| ==>
                index[a][k] in users && ListsAddress(users[index[a][k]].wallets, a)
      ensures forall h, i :: h in users && 0 <= i < |users[h].wallets| ==>
                var w := users[h].wallets[i];
                w.enabled && Trim(w.address) != "" ==> Trim(w.address) in index && h in index[Trim(w.address)]
    {
      index := map[];
      var todo := users.Keys;
      while todo != {}
        invariant todo <= users.Keys
        invariant forall a :: a in index ==> a != "" && forall k :: 0 <= k < |index[a]| ==>
                    index[a][k] in users.Keys - todo && ListsAddress(users[index[a][k]].wallets, a)
        invariant forall h, i :: h in users.Keys - todo && 0 <= i < |users[h].wallets| ==>
                    var w := users[h].wallets[i];
                    w.enabled && Trim(w.address) != "" ==> Trim(w.address) in index && h in index[Trim(w.address)]
        decreases todo
      {
        var h :| h in todo;
        todo := todo - {h};
        index := IndexUser(index, h, users[h].wallets);
      }
    }

    /** The inner loop of `walletToUsers`: `h` is pushed under each of its
        enabled, non-blank addresses. */
    static method IndexUser(index: map<string, seq<string>>, h: string, wallets: seq<ServerGate.Wallet>)
      returns (next: map<string, seq<string>>)
      ensures forall a, x :: a in index && x in index[a] ==> a in next && x in next[a]
      ensures forall a :: a in next ==> (a in index || a != "") && forall k :: 0 <= k < |next[a]| ==>
                (a in index && next[a][k] in index[a]) || (next[a][k] == h && a != "" && ListsAddress(wallets, a))
      ensures forall i :: 0 <= i < |wallets| && wallets[i].enabled && Trim(wallets[i].address) != "" ==>
                Trim(wallets[i].address) in next && h in next[Trim(wallets[i].address)]
    {
      next := index;
      var j := 0;
      while j < |wallets|
        invariant 0 <= j <= |wallets|
        invariant forall a, x :: a in index && x in index[a] ==> a in next && x in next[a]
        invariant forall a :: a in next ==> (a in index || a != "") && forall k :: 0 <= k < |next[a]| ==>
                    (a in index && next[a][k] in index[a]) || (next[a][k] == h && a != "" && ListsAddress(wallets, a))
        invariant forall i :: 0 <= i < j && wallets[i].enabled && Trim(wallets[i].address) != "" ==>
                    Trim(wallets[i].address) in next && h in next[Trim(wallets[i].address)]
      {
        var w := wallets[j];
        var addr := Trim(w.address);
        if w.enabled && addr != "" {
          var arr := if addr in next then next[addr] else [];
          assert ListsAddress(wallets, addr);
          next := next[addr := arr + [h]];
        }
        j := j + 1;
      }
    }

    /** The convergence test after logging a buy of `mint` for user `h`: a
        hit is logged first when at least `minWallets` distinct wallets
        bought the mint within the window and no hit for it lies within the
        window. */
    method MaybeConverge(h: string, mint: string, windowMins: int, minWallets: int, now: int)
      requires Valid()
      modifies this
      ensures Valid()
      ensures users == old(users) && buysByUser == old(buysByUser) && feedback == old(feedback)
      ensures var uniq := RecentWallets(GetList(buysByUser, h), mint, now - windowMins * MinuteMs);
              var before := GetList(old(hitsByUser), h);
              var due := |uniq| >= minWallets && !HasRecentHit(before, mint, now, windowMins * MinuteMs);
              && (!due ==> hitsByUser == old(hitsByUser))
              && (due ==>
                    var wallets := if h in users then users[h].wallets else [];
                    hitsByUser == old(hitsByUser)[h := PushCapped(ConvergenceHit(mint, uniq, wallets, windowMins, now), before, HitsCap)])
    {
      var buys := GetList(buysByUser, h);
      var uniq := CountRecent(buys, mint, now - windowMins * MinuteMs);
      if |uniq| >= minWallets {
        var before := GetList(hitsByUser, h);
        if !HasRecentHit(before, mint, now, windowMins * MinuteMs) {
          var wallets := if h in users then users[h].wallets else [];
          var hit := ConvergenceHit(mint, uniq, wallets, windowMins, now);
          hitsByUser := hitsByUser[h := PushCapped(hit, before, HitsCap)];
        }
      }
    }

    /** `recent` and the `uniq` map built from it by a loop. */
    static method CountRecent(buys: seq<Buy>, mint: string, cutoff: int) returns (uniq: set<string>)
      ensures uniq == RecentWallets(buys, mint, cutoff)
    {
      uniq := {};
      var i := 0;
      while i < |buys|
        invariant 0 <= i <= |buys|
        invariant uniq == RecentWallets(buys[..i], mint, cutoff)
      {
        assert buys[..i + 1][..i] == buys[..i];
        if buys[i].mint == mint && buys[i].ts >= cutoff {
          uniq := uniq + {buys[i].wallet};
        }
        i := i + 1;
      }
      assert buys[..i] == buys;
    }

    /** The body of the loop over a wallet's users: a `(wallet, mint)` pair
        already seen in this request or already in the user's log is
        skipped; otherwise the buy is logged first and the convergence test
        runs. */
    method IngestBuy(h: string, to: string, mint: string, signature: string, windowMins: int,
                     minWallets: int, now: int, seen: set<(string, string, string)>)
      returns (added: bool, seenAfter: set<(string, string, string)>)
      requires Valid()
      modifies this
      ensures Valid()
      ensures users == old(users) && feedback == old(feedback)
      ensures var before := GetList(old(buysByUser), h);
              && (added <==> (h, to, mint) !in seen && !HasPair(before, to, mint))
              && (!added ==> buysByUser == old(buysByUser) && hitsByUser == old(hitsByUser) && seenAfter == seen)
              && (added ==>
                    && seenAfter == seen + {(h, to, mint)}
                    && buysByUser == old(buysByUser)[h := PushCapped(Buy(to, mint, now, signature), before, BuysCap)]
                    && HasPair(buysByUser[h], to, mint))
      ensures added ==>
                var uniq := RecentWallets(buysByUser[h], mint, now - windowMins * MinuteMs);
                var hitsBefore := GetList(old(hitsByUser), h);
                var due := |uniq| >= minWallets && !HasRecentHit(hitsBefore, mint, now, windowMins * MinuteMs);
                && (!due ==> hitsByUser == old(hitsByUser))
                && (due ==>
                      var wallets := if h in users then users[h].wallets else [];
                      hitsByUser == old(hitsByUser)[h := PushCapped(ConvergenceHit(mint, uniq, wallets, windowMins, now), hitsBefore, HitsCap)])
    {
      var buys := GetList(buysByUser, h);
      if (h, to, mint) in seen || HasPair(buys, to, mint) {
        return false, seen;
      }
      var b := Buy(to, mint, now, signature);
      PushNewPairKeepsDistinct(b, buys);
      PushCappedShape(b, buys, BuysCap);
      buysByUser := buysByUser[h := PushCapped(b, buys, BuysCap)];
      assert buysByUser[h][0] == b;
      seenAfter := seen + {(h, to, mint)};
      MaybeConverge(h, mint, windowMins, minWallets, now);
      added := true;
    }

    /** The loop over the users of one receiving wallet. */
    method IngestForUsers(hs: seq<string>, to: string, mint: string, signature: string, windowMins: int,
                          minWallets: int, now: int, seen: set<(string, string, string)>)
      returns (count: nat, seenAfter: set<(string, string, string)>)
      requires Valid()
      modifies this
      ensures Valid()
      ensures users == old(users) && feedback == old(feedback)
      ensures count <= |hs| && seen <= seenAfter
      ensures forall x :: x in seenAfter - seen ==> x.0 in hs && x.1 == to && x.2 == mint
    {
      count := 0;
      seenAfter := seen;
      var k := 0;
      while k < |hs|
        invariant 0 <= k <= |hs| && count <= k
        invariant Valid()
        invariant users == old(users) && feedback == old(feedback)
        invariant seen <= seenAfter
        invariant forall x :: x in seenAfter - seen ==> x.0 in hs[..k] && x.1 == to && x.2 == mint
      {
        var added;
        ghost var seenBefore := seenAfter;
        added, seenAfter := IngestBuy(hs[k], to, mint, signature, windowMins, minWallets, now, seenAfter);
        assert seenAfter <= seenBefore + {(hs[k], to, mint)};
        if added {
          count := count + 1;
        }
        assert hs[..k + 1] == hs[..k] + [hs[k]];
        forall x | x in seenAfter - seen ensures x.0 in hs[..k + 1] && x.1 == to && x.2 == mint {
          if x in seenBefore {
            assert x.0 in hs[..k];
          }
        }
        k := k + 1;
      }
      assert hs[..k] == hs;
    }

    /** `POST /helius/webhook`: 401 when a secret is configured and the
        request's differs; otherwise every transfer to a tracked wallet of a
        mint with a positive amount is offered to each user of that wallet,
        and the number of buys logged is returned. */
    method HeliusIngest(secretEnv: string, secretHeader: string, events: seq<Event>,
                        windowEnv: Option<int>, minWalletsEnv: Option<int>, now: int)
      returns (status: int, ingested: nat)
      requires Valid()
      modifies this
      ensures Valid()
      ensures status == 401 <==> Trim(secretEnv) != "" && Trim(secretHeader) != Trim(secretEnv)
      ensures status == 401 || status == 200
      ensures status == 401 || events == [] ==>
                ingested == 0 && buysByUser == old(buysByUser) && hitsByUser == old(hitsByUser)
      ensures users == old(users) && feedback == old(feedback)
    {
      var secret := Trim(secretEnv);
      if secret != "" && Trim(secretHeader) != secret {
        return 401, 0;
      }
      if events == [] {
        return 200, 0;
      }
      var windowMins := windowEnv.GetOr(DefaultWindowMins);
      var minWallets := MinWallets(minWalletsEnv);
      var index := WalletIndex();
      var seen: set<(string, string, string)> := {};
      ingested := 0;
      var i := 0;
      while i < |events|
        invariant 0 <= i <= |events|
        invariant Valid()
        invariant users == old(users) && feedback == old(feedback)
      {
        var ev := events[i];
        var j := 0;
        while j < |ev.transfers|
          invariant 0 <= j <= |ev.transfers|
          invariant Valid()
          invariant users == old(users) && feedback == old(feedback)
        {
          var t := ev.transfers[j];
          j := j + 1;
          var to := Trim(t.to);
          if to == "" || to !in index || index[to] == [] {
            continue;
          }
          var mint := Trim(t.mint);
          if mint == "" || t.amount.None? || t.amount.value <= 0.0 {
            continue;
          }
          var n;
          n, seen := IngestForUsers(index[to], to, mint, ev.signature, windowMins, minWallets, now, seen);
          ingested := ingested + n;
        }
        i := i + 1;
      }
      status := 200;
    }

    /** `POST /feedback`: 400 without a chain, a pair or an outcome; otherwise
        the entry is logged first. */
    method PostFeedback(chain: string, pair: string, outcome: string, notes: string, now: int)
      returns (status: int)
      requires Valid()
      modifies this
      ensures Valid()
      ensures status == 400 <==> chain == "" || pair == "" || outcome == ""
      ensures status == 400 || status == 200
      ensures status == 400 ==> feedback == old(feedback)
      ensures status == 200 ==>
                feedback == SlicePrefix([Feedback(now, chain, pair, outcome, notes)] + old(feedback), FeedbackCap)
      ensures users == old(users) && buysByUser == old(buysByUser) && hitsByUser == old(hitsByUser)
    {
      if chain == "" || pair == "" || outcome == "" {
        return 400;
      }
      var entry := Feedback(now, chain, pair, outcome, notes);
      PushCappedShape(entry, feedback, FeedbackCap);
      feedback := PushCapped(entry, feedback, FeedbackCap);
      return 200;
    }

    /** `GET /feedback/recent`: the newest `Math.min(200, limit || 50)`
        entries. */
    method RecentFeedback(limit: Option<int>) returns (list: seq<Feedback>)
      requires Valid()
      ensures list == SlicePrefix(feedback, MinInt(MaxFeedbackLimit, limit.GetOr(DefaultFeedbackLimit)))
      ensures list == feedback[..|list|]
      ensures var k := limit.GetOr(DefaultFeedbackLimit);
              && (k >= 0 ==> |list| == MinInt(MinInt(MaxFeedbackLimit, k), |feedback|) && |list| <= MaxFeedbackLimit)
              && (k < 0 ==> |list| == MaxInt(0, |feedback| + k))
    {
      list := SlicePrefix(feedback, MinInt(MaxFeedbackLimit, limit.GetOr(DefaultFeedbackLimit)));
    }
  }
}
