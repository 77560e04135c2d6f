/**
  The Telegram watcher of `telegram.js`, without its HTTP client: the
  per-key mention window that turns mentions into a social velocity, the
  extraction of `$TICKER` and mint-like keys from a message, and the step
  of `tick` that walks a batch of updates, moves the offset, filters chats
  and emits signals. The `onSignal` callback is modelled as the list of
  signals emitted so far; `Date.now()` is the `now` argument.
*/
module Telegram {
  import opened Js

  /** `10 * 60 * 1000`, ten minutes. */
  const MentionWindowMs: int := 600000

  // ---------------------------------------------------------------------------
  // extractMentions
  // ---------------------------------------------------------------------------

  /** The length of the run of word characters starting at `j`, at most `cap`. */
  function WordRun(t: string, j: int, cap: nat): (n: nat)
    requires 0 <= j <= |t|
    ensures n <= cap && j + n <= |t|
    ensures forall k :: j <= k < j + n ==> IsWordChar(t[k])
    ensures n < cap ==> j + n == |t| || !IsWordChar(t[j + n])
    decreases cap
  {
    if cap == 0 || j == |t| || !IsWordChar(t[j]) then 0 else 1 + WordRun(t, j + 1, cap - 1)
  }

  /** The length of the run of base58 characters starting at `j`, at most `cap`. */
  function Base58Run(t: string, j: int, cap: nat): (n: nat)
    requires 0 <= j <= |t|
    ensures n <= cap && j + n <= |t|
    ensures forall k :: j <= k < j + n ==> IsBase58Char(t[k])
    ensures n < cap ==> j + n == |t| || !IsBase58Char(t[j + n])
    decreases cap
  {
    if cap == 0 || j == |t| || !IsBase58Char(t[j]) then 0 else 1 + Base58Run(t, j + 1, cap - 1)
  }

  /** `\$([A-Za-z0-9_]{2,12})` matches at `i` with `n` characters after the `$`. */
  predicate TickerAt(t: string, i: int, n: int) {
    0 <= i && 2 <= n <= 12 && i + 1 + n <= |t| && t[i] == '$'
    && forall k :: i + 1 <= k < i + 1 + n ==> IsWordChar(t[k])
  }

  /** A `\b[1-9A-HJ-NP-Za-km-z]{32,44}\b` match of length `n` at `i`. */
  predicate MintAt(t: string, i: int, n: int) {
    0 <= i && i + n <= |t| && 32 <= n <= 44
    && (i == 0 || !IsWordChar(t[i - 1]))
    && (i + n == |t| || !IsWordChar(t[i + n]))
    && forall k :: i <= k < i + n ==> IsBase58Char(t[k])
  }

  function TickerKey(t: string, i: int, n: int): string
    requires TickerAt(t, i, n)
  {
    "$" + ToUpper(t[i + 1..i + 1 + n])
  }

  /** A key extracted from `t`: an upper-cased ticker or a mint-like string. */
  ghost predicate FoundIn(key: string, t: string) {
    (exists i, n :: TickerAt(t, i, n) && key == TickerKey(t, i, n))
    || (exists i, n :: MintAt(t, i, n) && key == t[i..i + n])
  }

  lemma TickerFound(t: string, i: int, n: int)
    requires TickerAt(t, i, n)
    ensures FoundIn(TickerKey(t, i, n), t)
  {
  }

  lemma MintFound(t: string, i: int, n: int)
    requires MintAt(t, i, n)
    ensures FoundIn(t[i..i + n], t)
  {
  }

  ghost predicate IsMint(key: string, t: string) {
    exists i, n :: MintAt(t, i, n) && key == t[i..i + n]
  }

  predicate Distinct(keys: seq<string>) {
    forall a, b :: 0 <= a < b < |keys| ==> keys[a] != keys[b]
  }

  /** What the `$TICKER` pass has collected so far: distinct keys, each an
      upper-cased ticker match of `t`. */
  ghost predicate TickersOk(keys: seq<string>, t: string) {
    && Distinct(keys)
    && (forall a :: 0 <= a < |keys| ==> FoundIn(keys[a], t))
    && (forall a :: 0 <= a < |keys| ==> 3 <= |keys[a]| <= 13 && keys[a][0] == '$')
  }

  lemma TickersAppend(keys: seq<string>, t: string, i: int, n: int)
    requires TickersOk(keys, t) && TickerAt(t, i, n) && TickerKey(t, i, n) !in keys
    ensures TickersOk(keys + [TickerKey(t, i, n)], t)
  {
    var key := TickerKey(t, i, n);
    TickerFound(t, i, n);
    var next := keys + [key];
    forall a | 0 <= a < |next| ensures FoundIn(next[a], t) && 3 <= |next[a]| <= 13 && next[a][0] == '$' {
      if a < |keys| {
        assert next[a] == keys[a];
      }
    }
  }

  /** Where the global `$TICKER` expression matches: at every `$` followed by
      at least two word characters, taking (greedily) up to twelve of them.
      A `$` is not a word character, so no match starts inside another. */
  predicate TickerMatch(t: string, i: int) {
    0 <= i < |t| && t[i] == '$' && WordRun(t, i + 1, 12) >= 2
  }

  /** Every ticker match starting before `i` has its key in `keys`. */
  ghost predicate TickersCover(keys: seq<string>, t: string, i: int) {
    forall j :: 0 <= j < i && TickerMatch(t, j) ==> TickerKey(t, j, WordRun(t, j + 1, 12)) in keys
  }

  /** Scanning on from `i` to `e`, past no other `$`, keeps the cover. */
  lemma TickersCoverStep(keys: seq<string>, next: seq<string>, t: string, i: int, e: int)
    requires TickersCover(keys, t, i) && 0 <= i < e <= |t|
    requires forall x :: x in keys ==> x in next
    requires TickerMatch(t, i) ==> TickerKey(t, i, WordRun(t, i + 1, 12)) in next
    requires forall j :: i < j < e ==> !TickerMatch(t, j)
    ensures TickersCover(next, t, e)
  {
    TickersCoverGrow(keys, next, t, i);
  }

  /** A cover stays a cover when keys are added. */
  lemma TickersCoverGrow(keys: seq<string>, next: seq<string>, t: string, i: int)
    requires TickersCover(keys, t, i)
    requires forall x :: x in keys ==> x in next
    ensures TickersCover(next, t, i)
  {
    forall j | 0 <= j < i && TickerMatch(t, j) ensures TickerKey(t, j, WordRun(t, j + 1, 12)) in next {
      assert TickerKey(t, j, WordRun(t, j + 1, 12)) in keys;
    }
  }

  /** The `$TICKER` pass: matches left to right, each scan resuming after the
      previous match; every match of the expression contributes its key. */
  method TickerKeys(t: string) returns (keys: seq<string>)
    ensures Distinct(keys)
    ensures forall a :: 0 <= a < |keys| ==> FoundIn(keys[a], t)
    ensures forall a :: 0 <= a < |keys| ==> 3 <= |keys[a]| <= 13 && keys[a][0] == '$'
    ensures forall i :: TickerMatch(t, i) ==> TickerKey(t, i, WordRun(t, i + 1, 12)) in keys
  {
    keys := [];
    var i := 0;
    while i < |t|
      invariant 0 <= i <= |t|
      invariant TickersOk(keys, t)
      invariant TickersCover(keys, t, i)
    {
      if t[i] == '$' {
        var n := WordRun(t, i + 1, 12);
        if n >= 2 {
          assert TickerAt(t, i, n);
          var key := TickerKey(t, i, n);
          var next := keys;
          if key !in keys {
            TickersAppend(keys, t, i, n);
            next := keys + [key];
          }
          forall j | i < j < i + 1 + n ensures !TickerMatch(t, j) {
            assert IsWordChar(t[j]);
          }
          TickersCoverStep(keys, next, t, i, i + 1 + n);
          keys := next;
          i := i + 1 + n;
          continue;
        }
      }
      TickersCoverStep(keys, keys, t, i, i + 1);
      i := i + 1;
    }
  }

  /** What the mint-like pass has collected so far on top of `found`. */
  ghost predicate MintsOk(keys: seq<string>, found: seq<string>, t: string) {
    && Distinct(keys) && |keys| >= |found| && keys[..|found|] == found
    && forall a :: |found| <= a < |keys| ==> IsMint(keys[a], t)
  }

  lemma MintsAppend(keys: seq<string>, found: seq<string>, t: string, i: int, n: int)
    requires MintsOk(keys, found, t) && MintAt(t, i, n) && t[i..i + n] !in keys
    ensures MintsOk(keys + [t[i..i + n]], found, t)
  {
    var next := keys + [t[i..i + n]];
    assert next[..|found|] == keys[..|found|];
    assert IsMint(t[i..i + n], t);
    forall a | |found| <= a < |next| ensures IsMint(next[a], t) {
      if a < |keys| {
        assert next[a] == keys[a];
      }
    }
  }

  /** A mint-like match is the whole base58 run at its start: the word
      boundary after it stops the run, and backtracking to a shorter run
      would leave a base58 (hence word) character after it. */
  lemma MintIsRun(t: string, i: int, m: int)
    requires MintAt(t, i, m)
    ensures Base58Run(t, i, 45) == m
  {
    var n := Base58Run(t, i, 45);
    if i + m < |t| {
      assert !IsBase58Char(t[i + m]) by {
        if IsBase58Char(t[i + m]) {
          Base58IsWord(t[i + m]);
        }
      }
    }
  }

  /** Every mint-like match starting before `i` is in `keys`. */
  ghost predicate MintsCover(keys: seq<string>, t: string, i: int) {
    forall j, m :: 0 <= j < i && MintAt(t, j, m) ==> t[j..j + m] in keys
  }

  /** Scanning on from `i` to `e`, past positions that follow a word
      character, keeps the cover. */
  lemma MintsCoverStep(keys: seq<string>, next: seq<string>, t: string, i: int, e: int)
    requires MintsCover(keys, t, i) && 0 <= i < e <= |t|
    requires forall x :: x in keys ==> x in next
    requires forall m :: MintAt(t, i, m) ==> t[i..i + m] in next
    requires forall k :: i <= k < e - 1 ==> IsWordChar(t[k])
    ensures MintsCover(next, t, e)
  {
    forall j, m | 0 <= j < e && MintAt(t, j, m) ensures t[j..j + m] in next {
      assert j <= i;
      if j < i {
        assert t[j..j + m] in keys;
      }
    }
  }

  /** Scanning past a whole match keeps the cover: no match starts inside
      another, which is preceded by a base58 (hence word) character. */
  lemma MintsCoverMatch(next: seq<string>, t: string, i: int, n: int)
    requires MintAt(t, i, n)
    requires t[i..i + n] in next
    ensures forall m :: MintAt(t, i, m) ==> t[i..i + m] in next
    ensures forall k :: i <= k < i + n - 1 ==> IsWordChar(t[k])
  {
    forall k | i <= k < |t| && IsBase58Char(t[k]) ensures IsWordChar(t[k]) {
      Base58IsWord(t[k]);
    }
  }

  /** The mint-like pass: a run of base58 characters matches only when it
      stands between word boundaries and has 32 to 44 characters; every
      such match that `found` lacks is added. */
  method AddMintKeys(t: string, found: seq<string>) returns (keys: seq<string>)
    requires Distinct(found)
    ensures Distinct(keys) && |keys| >= |found| && keys[..|found|] == found
    ensures forall a :: |found| <= a < |keys| ==> IsMint(keys[a], t)
    ensures forall i, n :: MintAt(t, i, n) ==> t[i..i + n] in keys
  {
    keys := found;
    var i := 0;
    while i < |t|
      invariant 0 <= i <= |t|
      invariant MintsOk(keys, found, t)
      invariant MintsCover(keys, t, i)
    {
      forall m | MintAt(t, i, m) ensures Base58Run(t, i, 45) == m {
        MintIsRun(t, i, m);
      }
      if (i == 0 || !IsWordChar(t[i - 1])) && IsBase58Char(t[i]) {
        var n := Base58Run(t, i, 45);
        if 32 <= n <= 44 && (i + n == |t| || !IsWordChar(t[i + n])) {
          assert MintAt(t, i, n);
          var key := t[i..i + n];
          var next := keys;
          if key !in keys {
            MintsAppend(keys, found, t, i, n);
            next := keys + [key];
          }
          MintsCoverMatch(next, t, i, n);
          MintsCoverStep(keys, next, t, i, i + n);
          keys := next;
          i := i + n;
          continue;
        }
      }
      MintsCoverStep(keys, keys, t, i, i + 1);
      i := i + 1;
    }
  }

  /** `extractMentions(text)`: distinct keys, tickers first, each one a
      regular-expression match of the text. */
  method ExtractMentions(text: string) returns (keys: seq<string>)
    ensures Distinct(keys)
    ensures forall a :: 0 <= a < |keys| ==> FoundIn(keys[a], text) && keys[a] != []
    ensures forall a :: 0 <= a < |keys| && keys[a][0] == '$' ==> 3 <= |keys[a]| <= 13
    ensures forall i :: TickerMatch(text, i) ==> TickerKey(text, i, WordRun(text, i + 1, 12)) in keys
    ensures forall i, n :: MintAt(text, i, n) ==> text[i..i + n] in keys
  {
    var tickers := TickerKeys(text);
    keys := AddMintKeys(text, tickers);
    forall a | |tickers| <= a < |keys| ensures FoundIn(keys[a], text) && keys[a] != [] && keys[a][0] != '$' {
      assert IsMint(keys[a], text);
      var i, n :| MintAt(text, i, n) && keys[a] == text[i..i + n];
      MintFound(text, i, n);
      assert keys[a][0] == text[i];
    }
    forall a | 0 <= a < |tickers| ensures keys[a] == tickers[a] {
      assert keys[..|tickers|][a] == keys[a];
    }
  }

  // ---------------------------------------------------------------------------
  // The watcher
  // ---------------------------------------------------------------------------

  datatype Message = Message(chatId: string, text: string, caption: string, fromUsername: string, chatTitle: string)

  /** One update of `getUpdates`; `updateId` 0 stands for a missing id. */
  datatype Update = Update(updateId: int, message: Option<Message>, channelPost: Option<Message>)

  /** `u.message || u.channel_post`. */
  function UpdateMessage(u: Update): (msg: Option<Message>)
    ensures msg.Some? <==> u.message.Some? || u.channelPost.Some?
    ensures u.message.Some? ==> msg == u.message
  {
    if u.message.Some? then u.message else u.channelPost
  }

  /** An `onSignal` payload: its `type`, `token`, `chain`,
      `scoreHints.socialVelocity`, `message` and `reasons`. */
  datatype Signal = Signal(kind: string, token: Option<string>, chain: Option<string>, socialVelocity: int,
                           message: string, reasons: seq<string>)

  /** The payload for an allowed message in which no key was found. */
  function QuietSignal(line: string): Signal {
    Signal("Telegram", None, None, 20, line, ["Telegram message", "No token detected"])
  }

  /** The payload for one mention of `key` at velocity `v`; `Math.round` of
      the integer velocity is the velocity itself. */
  function SpikeSignal(key: string, v: nat, line: string): Signal {
    Signal("Telegram Spike", Some(key), Some("SOCIAL"), v, line,
           ["Telegram mention", "Velocity " + NatToString(v) + "/100"])
  }

  /** `sig` is the spike payload of `key`, with a velocity in [10, 100]. */
  predicate IsSpike(sig: Signal, key: string, line: string) {
    10 <= sig.socialVelocity <= 100 && sig == SpikeSignal(key, sig.socialVelocity, line)
  }

  /** Every timestamp in `ts` lies more than the window before `now`. */
  predicate Expired(ts: seq<int>, now: int) {
    forall a :: 0 <= a < |ts| ==> now - ts[a] > MentionWindowMs
  }

  predicate Ascending(ts: seq<int>) {
    forall a, b :: 0 <= a < b < |ts| ==> ts[a] <= ts[b]
  }

  /** `kept` is what the window keeps of `before` once `now` is appended: a
      suffix of `before + [now]`, everything in front of it expired. */
  predicate KeptWindow(before: seq<int>, now: int, kept: seq<int>) {
    && |kept| <= |before| + 1 && kept == (before + [now])[|before| + 1 - |kept|..]
    && Expired((before + [now])[..|before| + 1 - |kept|], now)
  }

  /** Appending a time no earlier than any kept one keeps a list ascending. */
  lemma AppendAscending(ts: seq<int>, now: int)
    requires Ascending(ts) && forall a :: 0 <= a < |ts| ==> ts[a] <= now
    ensures Ascending(ts + [now])
  {
    var all := ts + [now];
    forall a, b | 0 <= a < b < |all| ensures all[a] <= all[b] {
      if b < |ts| {
        assert all[a] == ts[a] && all[b] == ts[b];
      } else {
        assert all[a] == ts[a];
      }
    }
  }

  /** Replacing one key's list by an ascending list of times up to `now`
      keeps every list of the map ascending and no later than `now`. */
  lemma UpdateKeepsOrder(m: map<string, seq<int>>, key: string, arr: seq<int>, clock: int, now: int,
                         m': map<string, seq<int>>)
    requires forall k :: k in m ==> Ascending(m[k]) && (forall a :: 0 <= a < |m[k]| ==> m[k][a] <= clock)
    requires clock <= now && Ascending(arr) && forall a :: 0 <= a < |arr| ==> arr[a] <= now
    requires m' == m[key := arr]
    ensures forall k :: k in m' ==> Ascending(m'[k]) && (forall a :: 0 <= a < |m'[k]| ==> m'[k][a] <= now)
  {
    forall k | k in m'
      ensures Ascending(m'[k]) && (forall a :: 0 <= a < |m'[k]| ==> m'[k][a] <= now)
    {
      if k != key {
        assert m'[k] == m[k];
      }
    }
  }

  /** The chunks of signals one after the other. */
  function Concat(chunks: seq<seq<Signal>>): seq<Signal> {
    if chunks == [] then [] else Concat(chunks[..|chunks| - 1]) + chunks[|chunks| - 1]
  }

  /** Concatenation has as many signals as its chunks together, and is empty
      exactly when every chunk is. */
  lemma {:induction false} ConcatEmpty(chunks: seq<seq<Signal>>)
    ensures Concat(chunks) == [] <==> forall i :: 0 <= i < |chunks| ==> chunks[i] == []
    decreases |chunks|
  {
    if chunks != [] {
      var init := chunks[..|chunks| - 1];
      ConcatEmpty(init);
      forall i | 0 <= i < |init| ensures init[i] == chunks[i] {
      }
    }
  }

  /** Concatenating one more chunk appends it, also behind a prefix. */
  lemma ConcatStep(prefix: seq<Signal>, chunks: seq<seq<Signal>>, c: seq<Signal>)
    ensures Concat(chunks + [c]) == Concat(chunks) + c
    ensures prefix + Concat(chunks + [c]) == (prefix + Concat(chunks)) + c
  {
    assert (chunks + [c])[..|chunks|] == chunks;
  }

  /** Every signal's velocity lies in [10, 100]. */
  predicate VelocitiesInRange(sigs: seq<Signal>) {
    forall a :: 0 <= a < |sigs| ==> 10 <= sigs[a].socialVelocity <= 100
  }

  lemma VelocitiesAppend(s1: seq<Signal>, s2: seq<Signal>)
    requires VelocitiesInRange(s1) && VelocitiesInRange(s2)
    ensures VelocitiesInRange(s1 + s2)
  {
    forall a | 0 <= a < |s1 + s2| ensures 10 <= (s1 + s2)[a].socialVelocity <= 100 {
      if a >= |s1| {
        assert (s1 + s2)[a] == s2[a - |s1|];
      }
    }
  }

  /** Signals in range stay in range behind any prefix. */
  lemma VelocitiesBehind(prefix: seq<Signal>, rest: seq<Signal>)
    requires VelocitiesInRange(rest)
    ensures forall a :: |prefix| <= a < |prefix + rest| ==> 10 <= (prefix + rest)[a].socialVelocity <= 100
  {
    forall a | |prefix| <= a < |prefix + rest| ensures 10 <= (prefix + rest)[a].socialVelocity <= 100 {
      assert (prefix + rest)[a] == rest[a - |prefix|];
    }
  }

  /** The offset after `offset = Math.max(offset, (u.update_id || 0) + 1)`
      for each update in turn. */
  function OffsetAfter(offset: int, updates: seq<Update>): int {
    if updates == [] then offset
    else MaxInt(OffsetAfter(offset, updates[..|updates| - 1]), updates[|updates| - 1].updateId + 1)
  }

  /** The offset after a batch is the start offset or one past the largest
      update id, whichever is larger. */
  lemma {:induction false} OffsetAfterBounds(offset: int, updates: seq<Update>)
    ensures OffsetAfter(offset, updates) >= offset
    ensures forall a :: 0 <= a < |updates| ==> OffsetAfter(offset, updates) > updates[a].updateId
    ensures OffsetAfter(offset, updates) == offset
            || exists a :: 0 <= a < |updates| && OffsetAfter(offset, updates) == updates[a].updateId + 1
    decreases |updates|
  {
    if updates != [] {
      var init := updates[..|updates| - 1];
      OffsetAfterBounds(offset, init);
      forall a | 0 <= a < |init| ensures init[a] == updates[a] {
      }
      var last := |updates| - 1;
      if OffsetAfter(offset, init) != offset && OffsetAfter(offset, updates) == OffsetAfter(offset, init) {
        var a :| 0 <= a < |init| && OffsetAfter(offset, init) == init[a].updateId + 1;
        assert updates[a] == init[a];
      }
    }
  }

  class TelegramWatcher {
    const allowed: set<string>
    var offset: int
    var mentions: map<string, seq<int>>
    var signals: seq<Signal>
    /** The latest time seen; the clock is assumed never to run backwards. */
    ghost var clock: int

    ghost predicate Valid()
      reads this`mentions, this`clock
    {
      forall k :: k in mentions ==>
        Ascending(mentions[k]) && (forall a :: 0 <= a < |mentions[k]| ==> mentions[k][a] <= clock)
    }

    /** `new Set((allowedChats || []).filter(Boolean).map(String))`. */
    constructor(allowedChats: seq<string>)
      ensures allowed == set c | c in allowedChats && c != ""
      ensures offset == 0 && mentions == map[] && signals == []
      ensures clock == 0 && Valid()
    {
      allowed := set c | c in allowedChats && c != "";
      offset := 0;
      mentions := map[];
      signals := [];
      clock := 0;
    }

    /** The `while (arr.length && now - arr[0] > mentionWindowMs) arr.shift()`
        loop on a list ending with `now`. */
    static method DropOld(all: seq<int>, now: int) returns (arr: seq<int>)
      requires Ascending(all) && all != [] && all[|all| - 1] == now
      ensures 0 < |arr| <= |all| && arr == all[|all| - |arr|..] && arr[|arr| - 1] == now
      ensures Ascending(arr)
      ensures forall a :: 0 <= a < |arr| ==> 0 <= now - arr[a] <= MentionWindowMs
      ensures Expired(all[..|all| - |arr|], now)
    {
      arr := all;
      while |arr| > 0 && now - arr[0] > MentionWindowMs
        invariant 0 < |arr| <= |all| && arr == all[|all| - |arr|..]
        invariant forall a :: 0 <= a < |all| - |arr| ==> now - all[a] > MentionWindowMs
        decreases |arr|
      {
        arr := arr[1..];
      }
      assert forall a :: 0 <= a < |arr| ==> arr[a] == all[|all| - |arr| + a];
      assert forall a :: 0 <= a < |all| - |arr| ==> all[..|all| - |arr|][a] == all[a];
    }

    /** `addMention(key)` at time `now`: records the mention, drops the ones
        older than the window and returns the velocity. */
    method AddMention(key: string, now: int) returns (v: int)
      requires Valid() && now >= clock
      modifies this
      ensures Valid() && clock == now
      ensures key in mentions && mentions[key] != [] && mentions[key][|mentions[key]| - 1] == now
      ensures forall a :: 0 <= a < |mentions[key]| ==> now - mentions[key][a] <= MentionWindowMs
      ensures KeptWindow(if key in old(mentions) then old(mentions)[key] else [], now, mentions[key])
      ensures mentions == old(mentions)[key := mentions[key]]
      ensures v == MinInt(100, 10 * |mentions[key]|) && 10 <= v <= 100
      ensures offset == old(offset) && signals == old(signals)
    {
      var before := if key in mentions then mentions[key] else [];
      var all := before + [now];
      AppendAscending(before, now);
      var arr := DropOld(all, now);
      assert KeptWindow(before, now, arr);
      var m' := mentions[key := arr];
      UpdateKeepsOrder(mentions, key, arr, clock, now, m');
      assert key in m' && m'[key] == arr;
      v := MinInt(100, |arr| * 10);
      assert v == MinInt(100, 10 * |arr|) && 10 <= v <= 100;
      clock := now;
      mentions := m';
    }

    /** How a message is attributed: `@user`, else the chat title, else "telegram". */
    static function Who(msg: Message): string {
      if msg.fromUsername != "" then "@" + msg.fromUsername
      else if msg.chatTitle != "" then msg.chatTitle
      else "telegram"
    }

    /** `msg.text || msg.caption || ""`. */
    static function MessageText(msg: Message): string {
      if msg.text != "" then msg.text else msg.caption
    }

    /** The `message` of every signal a message emits. */
    static function MessageLine(msg: Message): string {
      "TG " + Who(msg) + ": " + SlicePrefix(MessageText(msg), 180)
    }

    /** The body of the update loop of `tick` for one update at time `now`. */
    method ProcessUpdate(u: Update, now: int) returns (ghost added: seq<Signal>)
      requires Valid() && now >= clock
      modifies this
      ensures Valid() && old(clock) <= clock <= now
      ensures offset == MaxInt(old(offset), u.updateId + 1)
      // the update appends exactly `added`: nothing when it does not emit
      // (see ChunkFitsEmpty), what `MessageSignals` allows when it does
      ensures signals == old(signals) + added && ChunkFits(u, added) && VelocitiesInRange(added)
      ensures !Emits(u) ==> mentions == old(mentions)
      ensures forall k :: k in old(mentions) ==> k in mentions
    {
      added := [];
      offset := MaxInt(offset, u.updateId + 1);
      var msg := UpdateMessage(u);
      if msg.None? {
        return;
      }
      var m := msg.value;
      if |allowed| > 0 && m.chatId !in allowed {
        return;
      }
      if MessageText(m) == "" {
        return;
      }
      added := EmitMessage(m, now);
    }

    /** The signals of an allowed message with text: the quiet record when no
        key is found, else one spike per key. */
    method EmitMessage(m: Message, now: int) returns (ghost added: seq<Signal>)
      requires Valid() && now >= clock && MessageText(m) != ""
      modifies this
      ensures Valid() && old(clock) <= clock <= now
      ensures offset == old(offset)
      ensures signals == old(signals) + added && MessageSignals(added, m) && VelocitiesInRange(added)
      ensures forall k :: k in old(mentions) ==> k in mentions
    {
      var text := MessageText(m);
      var line := MessageLine(m);
      var keys := ExtractMentions(text);
      if |keys| == 0 {
        added := [QuietSignal(line)];
        signals := signals + [QuietSignal(line)];
        return;
      }
      ghost var before := |signals|;
      SignalMentions(keys, line, now);
      added := signals[before..];
      assert signals == old(signals) + added;
      forall a | 0 <= a < |added|
        ensures added[a].token.Some? && FoundIn(added[a].token.value, text)
                && IsSpike(added[a], added[a].token.value, line)
                && 10 <= added[a].socialVelocity <= 100
      {
        assert added[a] == signals[before + a];
        assert IsSpike(signals[before + a], keys[a], line) && keys[a] in keys;
      }
    }

    /** An update appends a non-empty chunk exactly when it emits. */
    lemma ChunkFitsEmpty(u: Update, chunk: seq<Signal>)
      requires ChunkFits(u, chunk)
      ensures chunk == [] <==> !Emits(u)
    {
    }

    /** Whether an update yields signals: it carries a message from a chat
        the allow-list admits (an empty list admits every chat), with text or
        a caption. */
    predicate Emits(u: Update) {
      var msg := UpdateMessage(u);
      && msg.Some?
      && (|allowed| == 0 || msg.value.chatId in allowed)
      && (msg.value.text != "" || msg.value.caption != "")
    }

    /** The chunk an update may append: nothing when it does not emit, what
        `MessageSignals` allows for its message when it does. */
    ghost predicate ChunkFits(u: Update, chunk: seq<Signal>) {
      && (!Emits(u) ==> chunk == [])
      && (Emits(u) ==> MessageSignals(chunk, UpdateMessage(u).value))
    }

    /** What an allowed message with text emits: the lone quiet record when no
        key was found, else only spike records, each for a key found in the
        text, all with the message's line. */
    static ghost predicate MessageSignals(added: seq<Signal>, msg: Message) {
      || added == [QuietSignal(MessageLine(msg))]
      || (&& added != []
          && forall a :: 0 <= a < |added| ==>
               && added[a].token.Some? && FoundIn(added[a].token.value, MessageText(msg))
               && IsSpike(added[a], added[a].token.value, MessageLine(msg)))
    }

    /** One "Telegram Spike" signal for `key`, carrying the velocity
        `addMention` returns for it: ten per mention still in the window,
        at most 100. */
    method Spike(key: string, line: string, now: int) returns (sig: Signal)
      requires Valid() && now >= clock
      modifies this
      ensures Valid() && clock == now
      ensures offset == old(offset)
      ensures key in mentions && sig == SpikeSignal(key, MinInt(100, 10 * |mentions[key]|), line)
      ensures IsSpike(sig, key, line)
      ensures signals == old(signals) + [sig]
      ensures mentions.Keys == old(mentions.Keys) + {key}
    {
      var v := AddMention(key, now);
      assert mentions.Keys == old(mentions.Keys) + {key};
      sig := SpikeSignal(key, v, line);
      signals := signals + [sig];
    }

    /** One "Telegram Spike" signal per detected key, in order. */
    method SignalMentions(keys: seq<string>, line: string, now: int)
      requires Valid() && now >= clock
      modifies this
      ensures Valid() && old(clock) <= clock <= now
      ensures offset == old(offset)
      ensures |signals| == |old(signals)| + |keys| && signals[..|old(signals)|] == old(signals)
      ensures forall a :: 0 <= a < |keys| ==> IsSpike(signals[|old(signals)| + a], keys[a], line)
      ensures forall a :: |old(signals)| <= a < |signals| ==> 10 <= signals[a].socialVelocity <= 100
      ensures forall k :: k in old(mentions) ==> k in mentions
      ensures forall k :: k in keys ==> k in mentions
    {
      ghost var added: seq<Signal> := [];
      for j := 0 to |keys|
        invariant Valid() && old(clock) <= clock <= now
        invariant offset == old(offset)
        invariant signals == old(signals) + added && |added| == j
        invariant forall a :: 0 <= a < j ==> IsSpike(added[a], keys[a], line)
        invariant old(mentions.Keys) <= mentions.Keys
        invariant forall a :: 0 <= a < j ==> keys[a] in mentions
      {
        var sig := Spike(keys[j], line, now);
        added := added + [sig];
      }
      assert signals[..|old(signals)|] == old(signals);
      forall a | |old(signals)| <= a < |signals| ensures 10 <= signals[a].socialVelocity <= 100 {
        assert signals[a] == added[a - |old(signals)|];
      }
    }

    /** The update loop of `tick` over one `getUpdates` batch: the offset ends
        above every update id seen and never goes down, and the batch appends
        one chunk of signals per update, in order: nothing for an update that
        does not emit, and what `MessageSignals` allows for its message for
        one that does. */
    method ProcessUpdates(updates: seq<Update>, now: int) returns (ghost chunks: seq<seq<Signal>>)
      requires Valid() && now >= clock
      modifies this
      ensures Valid()
      ensures offset == OffsetAfter(old(offset), updates)
      ensures |chunks| == |updates| && signals == old(signals) + Concat(chunks)
      ensures forall i :: 0 <= i < |updates| ==> ChunkFits(updates[i], chunks[i])
      ensures (forall i :: 0 <= i < |updates| ==> !Emits(updates[i]))
              ==> signals == old(signals) && mentions == old(mentions)
      ensures forall k :: k in old(mentions) ==> k in mentions
      ensures forall a :: |old(signals)| <= a < |signals| ==> 10 <= signals[a].socialVelocity <= 100
    {
      chunks := [];
      for j := 0 to |updates|
        invariant Valid() && now >= clock
        invariant offset == OffsetAfter(old(offset), updates[..j])
        invariant |chunks| == j && signals == old(signals) + Concat(chunks)
        invariant forall i :: 0 <= i < j ==> ChunkFits(updates[i], chunks[i])
        invariant (forall i :: 0 <= i < j ==> !Emits(updates[i]))
                  ==> signals == old(signals) && mentions == old(mentions)
        invariant forall k :: k in old(mentions) ==> k in mentions
        invariant VelocitiesInRange(Concat(chunks))
      {
        assert updates[..j + 1][..j] == updates[..j];
        ghost var added := ProcessUpdate(updates[j], now);
        ConcatStep(old(signals), chunks, added);
        VelocitiesAppend(Concat(chunks), added);
        ghost var next := chunks + [added];
        forall i | 0 <= i <= j ensures ChunkFits(updates[i], next[i]) {
          if i < j {
            assert next[i] == chunks[i];
          }
        }
        chunks := next;
      }
      assert updates[..|updates|] == updates;
      VelocitiesBehind(old(signals), Concat(chunks));
    }
  }
}
