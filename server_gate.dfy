/**
  The request gates of `src/server.js`: the CORS origin allow-list, the
  license-key list and its open mode, where a request's license key is read
  from, the wallet allowance of a tier, the Solana address check and the
  cleaning of a user's wallet list.
*/
module ServerGate {
  import opened Js

  predicate StartsWith(s: string, p: string) {
    |p| <= |s| && s[..|p|] == p
  }

  // ---------------------------------------------------------------------------
  // isAllowedOrigin
  // ---------------------------------------------------------------------------

  /** `[a-z0-9-]`, one character of a host label. */
  predicate IsLabelChar(c: char) { IsLower(c) || IsDigit(c) || c == '-' }

  /** Only host-label characters and dots. */
  predicate LabelsOrDots(s: string) {
    forall i :: 0 <= i < |s| ==> IsLabelChar(s[i]) || s[i] == '.'
  }

  /** `([a-z0-9-]+\.)*` matching the whole of `p`: nothing, or non-empty
      labels each followed by one dot. */
  predicate DottedLabels(p: string) {
    p == [] ||
    (&& LabelsOrDots(p)
     && p[0] != '.' && p[|p| - 1] == '.'
     && forall i :: 0 <= i < |p| - 1 ==> p[i] == '.' ==> p[i + 1] != '.')
  }

  lemma LabelsOrDotsConcat(a: string, b: string)
    requires LabelsOrDots(a) && LabelsOrDots(b)
    ensures LabelsOrDots(a + b)
  {
    forall i | 0 <= i < |a + b| ensures IsLabelChar((a + b)[i]) || (a + b)[i] == '.' {
      if i >= |a| { assert (a + b)[i] == b[i - |a|]; }
    }
  }

  /** `origin` starts with `https://`, letters in any case. */
  predicate IsHttpsScheme(origin: string) {
    && |origin| >= 8
    && LowerChar(origin[0]) == 'h' && LowerChar(origin[1]) == 't'
    && LowerChar(origin[2]) == 't' && LowerChar(origin[3]) == 'p'
    && LowerChar(origin[4]) == 's' && origin[5] == ':'
    && origin[6] == '/' && origin[7] == '/'
  }

  /** The host part of an origin, upper-case letters folded, when the origin
      starts with `https://` in any case. */
  function HttpsHost(origin: string): (host: Option<string>)
    ensures host.Some? ==> |host.value| == |origin| - 8
  {
    if IsHttpsScheme(origin) then Some(ToLower(origin[8..])) else None
  }

  /** `/^https:\/\/([a-z0-9-]+\.)*<domain>$/i` for a lower-case `domain`; the
      flag `i` folds ASCII letters only. */
  predicate HostMatches(origin: string, domain: string) {
    var host := HttpsHost(origin);
    && host.Some?
    && |domain| <= |host.value|
    && host.value[|host.value| - |domain|..] == domain
    && DottedLabels(host.value[..|host.value| - |domain|])
  }

  /** What a host matching `domain` looks like: label characters and dots
      only, ending with `domain`, right after the scheme or after a dot. */
  predicate SubdomainOf(host: string, domain: string) {
    && LabelsOrDots(host)
    && |domain| <= |host|
    && host[|host| - |domain|..] == domain
    && (|host| == |domain| || host[|host| - |domain| - 1] == '.')
  }

  lemma HostMatchShape(origin: string, domain: string)
    requires HostMatches(origin, domain) && LabelsOrDots(domain)
    ensures SubdomainOf(HttpsHost(origin).value, domain)
  {
    var host := HttpsHost(origin).value;
    var p := host[..|host| - |domain|];
    assert host == p + domain;
    LabelsOrDotsConcat(p, domain);
    if p != [] {
      assert host[|host| - |domain| - 1] == p[|p| - 1];
    }
  }

  const ChromeExtension := "chrome-extension://"
  const Https := "https://"
  const AxiomDomain := "axiom.trade"
  const DexDomain := "dexscreener.com"

  /** `isAllowedOrigin(origin)`: a chrome-extension page, or an https origin
      on axiom.trade, dexscreener.com or one of their subdomains. */
  function IsAllowedOrigin(origin: string): (ok: bool)
    ensures origin == "" ==> !ok
    ensures StartsWith(origin, ChromeExtension) ==> ok
    ensures ok && !StartsWith(origin, ChromeExtension) ==>
              HostMatches(origin, AxiomDomain) || HostMatches(origin, DexDomain)
  {
    if origin == "" then false
    else if StartsWith(origin, ChromeExtension) then true
    else if origin == Https + AxiomDomain then AxiomHostMatches(); true
    else if HostMatches(origin, AxiomDomain) then true
    else if origin == Https + DexDomain then DexHostMatches(); true
    else if HostMatches(origin, DexDomain) then true
    else false
  }

  /** Every admitted web origin is an https origin whose host is one of the
      two domains or a dotted subdomain of one: no port, path, user name or
      look-alike suffix gets through. */
  lemma AllowedOriginShape(origin: string)
    requires IsAllowedOrigin(origin) && !StartsWith(origin, ChromeExtension)
    ensures HttpsHost(origin).Some?
    ensures SubdomainOf(HttpsHost(origin).value, AxiomDomain)
            || SubdomainOf(HttpsHost(origin).value, DexDomain)
  {
    if HostMatches(origin, AxiomDomain) {
      AxiomIsLabels();
      HostMatchShape(origin, AxiomDomain);
    } else {
      DexIsLabels();
      HostMatchShape(origin, DexDomain);
    }
  }

  lemma AxiomIsLabels()
    ensures LabelsOrDots(AxiomDomain)
  {
  }

  lemma DexIsLabels()
    ensures LabelsOrDots(DexDomain)
  {
  }

  /** An https origin whose host is a lower-case domain, or a subdomain of it
      made of dotted labels, matches the domain's pattern. */
  lemma {:induction false} SubdomainMatches(p: string, domain: string)
    requires DottedLabels(p) && LabelsOrDots(domain)
    ensures HostMatches(Https + p + domain, domain)
  {
    var o := Https + p + domain;
    var host := p + domain;
    assert o[8..] == host;
    forall i | 0 <= i < 8 ensures o[i] == Https[i] { }
    LabelsOrDotsConcat(p, domain);
    ToLowerNoUpper(host);
    assert host[..|host| - |domain|] == p;
  }

  lemma AxiomHostMatches()
    ensures HostMatches(Https + AxiomDomain, AxiomDomain)
  {
    AxiomIsLabels();
    SubdomainMatches([], AxiomDomain);
  }

  lemma DexHostMatches()
    ensures HostMatches(Https + DexDomain, DexDomain)
  {
    DexIsLabels();
    SubdomainMatches([], DexDomain);
  }

  /** A one-label subdomain of dexscreener.com is admitted. */
  lemma SubdomainAdmitted(name: string)
    requires name != [] && forall i :: 0 <= i < |name| ==> IsLabelChar(name[i])
    ensures IsAllowedOrigin(Https + name + "." + DexDomain)
  {
    var p := name + ".";
    assert DottedLabels(p) by {
      forall i | 0 <= i < |p| - 1 ensures p[i] != '.' {
        assert p[i] == name[i];
      }
    }
    DexIsLabels();
    SubdomainMatches(p, DexDomain);
    assert Https + name + "." + DexDomain == Https + p + DexDomain;
  }

  /** The pattern is anchored at a label boundary: a host that only ends
      with "axiom.trade", with no dot in front of it, is refused. */
  lemma LookalikeRefused(x: string)
    requires x != [] && x[|x| - 1] != '.'
    ensures !IsAllowedOrigin(Https + x + AxiomDomain)
  {
    var o := Https + x + AxiomDomain;
    assert o[0] == 'h';
    assert o[|o| - 1] == 'e';
    assert !StartsWith(o, ChromeExtension) by { assert ChromeExtension[0] == 'c'; }
    assert o != Https + AxiomDomain;
    assert o != Https + DexDomain by {
      if |o| == |Https + DexDomain| { assert (Https + DexDomain)[|o| - 1] == 'm'; }
    }
    LookalikeNotAxiom(o, x);
    assert !HostMatches(o, DexDomain) by {
      if HttpsHost(o).Some? {
        var host := HttpsHost(o).value;
        assert host[|host| - 1] == LowerChar(o[|o| - 1]);
      }
    }
  }

  lemma LookalikeNotAxiom(o: string, x: string)
    requires x != [] && x[|x| - 1] != '.' && o == Https + x + AxiomDomain
    ensures !HostMatches(o, AxiomDomain)
  {
    if HttpsHost(o).Some? {
      var host := HttpsHost(o).value;
      var p := host[..|host| - |AxiomDomain|];
      assert host[|x| - 1] == LowerChar(o[8 + |x| - 1]);
      assert o[8 + |x| - 1] == x[|x| - 1];
      assert p[|p| - 1] == host[|x| - 1];
    }
  }

  /** A plain-http origin is refused. */
  lemma PlainHttpRefused(rest: string)
    ensures !IsAllowedOrigin("http://" + rest)
  {
    var o := "http://" + rest;
    assert o[0] == 'h' && o[4] == ':';
    assert ChromeExtension[0] == 'c';
    assert (Https + AxiomDomain)[4] == 's' && (Https + DexDomain)[4] == 's';
    assert !IsHttpsScheme(o);
  }

  // ---------------------------------------------------------------------------
  // LICENSE_KEYS, OPEN_MODE, licenseOk
  // ---------------------------------------------------------------------------

  /** `.map((s) => s.trim()).filter(Boolean)`. */
  function TrimmedNonBlank(parts: seq<string>): (keys: seq<string>)
    ensures |keys| <= |parts|
    ensures forall i :: 0 <= i < |keys| ==> keys[i] != "" && Trim(keys[i]) == keys[i]
    ensures keys == [] <==> forall i :: 0 <= i < |parts| ==> Trim(parts[i]) == ""
    ensures forall k :: k in keys ==> exists i :: 0 <= i < |parts| && Trim(parts[i]) == k
  {
    if parts == [] then []
    else
      var t := Trim(parts[0]);
      var rest := TrimmedNonBlank(parts[1..]);
      TrimIdempotent(parts[0]);
      assert forall i :: 1 <= i < |parts| ==> parts[i] == parts[1..][i - 1];
      if t != "" then [t] + rest else rest
  }

  /** `LICENSE_KEYS` for the value of `MS_LICENSE_KEYS` ("" when unset). */
  function LicenseKeys(env: string): (keys: seq<string>)
    ensures forall i :: 0 <= i < |keys| ==> keys[i] != "" && Trim(keys[i]) == keys[i] && ',' !in keys[i]
  {
    var parts := Split(env, ',');
    var keys := TrimmedNonBlank(parts);
    forall k | k in keys ensures ',' !in k {
      var i :| 0 <= i < |parts| && Trim(parts[i]) == k;
      TrimShape(parts[i]);
    }
    keys
  }

  /** `OPEN_MODE`: no key is configured. */
  predicate OpenMode(env: string) {
    LicenseKeys(env) == []
  }

  /** Open mode holds exactly when every comma-separated piece is blank. */
  lemma OpenModeIff(env: string)
    ensures OpenMode(env) <==> forall i :: 0 <= i < |Split(env, ',')| ==> Trim(Split(env, ',')[i]) == ""
  {
  }

  /** `licenseOk(key)`, which is also the test of `requireLicense` (a refused
      key gets status 401 there). */
  predicate LicenseOk(env: string, key: string) {
    OpenMode(env) || (key != "" && key in LicenseKeys(env))
  }

  /** With keys configured, a blank key or one with white space around it is
      refused, and a listed key is accepted. */
  lemma LicenseOkOutsideOpenMode(env: string, key: string)
    requires !OpenMode(env)
    ensures !LicenseOk(env, "")
    ensures Trim(key) != key ==> !LicenseOk(env, key)
    ensures key in LicenseKeys(env) ==> LicenseOk(env, key)
  {
  }

  // ---------------------------------------------------------------------------
  // getLicenseFromReq
  // ---------------------------------------------------------------------------

  /** The number of leading white-space characters of `s` (what `\s+` takes
      greedily). */
  function WhiteRun(s: string): (n: nat)
    ensures n <= |s|
    ensures forall i :: 0 <= i < n ==> IsWhite(s[i])
    ensures n == |s| || !IsWhite(s[n])
  {
    if s != [] && IsWhite(s[0]) then 1 + WhiteRun(s[1..]) else 0
  }

  /** `auth` starts with "Bearer", letters in any case. */
  predicate StartsWithBearer(auth: string) {
    && |auth| >= 6
    && LowerChar(auth[0]) == 'b' && LowerChar(auth[1]) == 'e'
    && LowerChar(auth[2]) == 'a' && LowerChar(auth[3]) == 'r'
    && LowerChar(auth[4]) == 'e' && LowerChar(auth[5]) == 'r'
  }

  /** `/^Bearer\s+(.+)$/i` can match `auth` with its group starting at `j`. */
  ghost predicate BearerSplit(auth: string, j: int) {
    && 7 <= j < |auth|
    && StartsWithBearer(auth)
    && (forall i :: 6 <= i < j ==> IsWhite(auth[i]))
    && (forall i :: j <= i < |auth| ==> !IsLineTerminator(auth[i]))
  }

  /** The group `m[1]` of `auth.match(/^Bearer\s+(.+)$/i)`, or `None` when it
      does not match. */
  function BearerGroup(auth: string): (g: Option<string>)
    ensures g.Some? ==> 1 <= |g.value| <= |auth| && g.value == auth[|auth| - |g.value|..]
  {
    if |auth| < 7 || !StartsWithBearer(auth) then None
    else
      var r := auth[6..];
      var w := WhiteRun(r);
      if w == 0 then None
      else if w < |r| then
        if forall i :: 6 + w <= i < |auth| ==> !IsLineTerminator(auth[i]) then Some(auth[6 + w..]) else None
      else if w >= 2 && !IsLineTerminator(auth[|auth| - 1]) then Some(auth[|auth| - 1..])
      else None
  }

  /** `BearerGroup` is the regular expression: a match exists exactly when
      some split fits the pattern, and the greedy `\s+` leaves the group the
      shortest suffix that fits. */
  lemma BearerGroupMatchesPattern(auth: string)
    ensures BearerGroup(auth).Some? <==> exists j :: BearerSplit(auth, j)
    ensures BearerGroup(auth).Some? ==>
              var j := |auth| - |BearerGroup(auth).value|;
              BearerSplit(auth, j) && forall k :: BearerSplit(auth, k) ==> k <= j
  {
    if |auth| >= 7 && StartsWithBearer(auth) {
      var r := auth[6..];
      var w := WhiteRun(r);
      if w == 0 {
        NoSplitWithoutWhite(auth);
      } else if w < |r| {
        if forall i :: 6 + w <= i < |auth| ==> !IsLineTerminator(auth[i]) {
          SplitAfterWhite(auth, w);
        } else {
          var k :| 6 + w <= k < |auth| && IsLineTerminator(auth[k]);
          NoSplitAcrossTerminator(auth, w, k);
        }
      } else {
        SplitAllWhite(auth, w);
      }
    }
  }

  lemma NoSplitWithoutWhite(auth: string)
    requires |auth| >= 7 && WhiteRun(auth[6..]) == 0
    ensures forall j :: !BearerSplit(auth, j)
  {
    assert auth[6] == auth[6..][0];
  }

  lemma SplitAfterWhite(auth: string, w: nat)
    requires |auth| >= 7 && StartsWithBearer(auth)
    requires w == WhiteRun(auth[6..]) && 0 < w < |auth| - 6
    requires forall i :: 6 + w <= i < |auth| ==> !IsLineTerminator(auth[i])
    ensures BearerSplit(auth, 6 + w)
    ensures forall k :: BearerSplit(auth, k) ==> k <= 6 + w
  {
    var r := auth[6..];
    assert forall i :: 6 <= i < |auth| ==> auth[i] == r[i - 6];
    assert !IsWhite(auth[6 + w]);
  }

  lemma NoSplitAcrossTerminator(auth: string, w: nat, k: nat)
    requires |auth| >= 7
    requires w == WhiteRun(auth[6..]) && 0 < w && 6 + w <= k < |auth|
    requires IsLineTerminator(auth[k])
    ensures forall j :: !BearerSplit(auth, j)
  {
    var r := auth[6..];
    assert auth[6 + w] == r[w];
  }

  lemma SplitAllWhite(auth: string, w: nat)
    requires |auth| >= 7 && StartsWithBearer(auth)
    requires w == WhiteRun(auth[6..]) && w == |auth| - 6
    ensures BearerGroup(auth).Some? <==> exists j :: BearerSplit(auth, j)
    ensures BearerGroup(auth).Some? ==> BearerSplit(auth, |auth| - 1)
  {
    var r := auth[6..];
    assert auth[|auth| - 1] == r[w - 1];
    assert forall i :: 6 <= i < |auth| ==> auth[i] == r[i - 6];
    if w >= 2 && !IsLineTerminator(auth[|auth| - 1]) {
      assert BearerSplit(auth, |auth| - 1);
    }
  }

  /** `getLicenseFromReq(req)` over the three header values, each "" when the
      header is absent. */
  function GetLicenseFromReq(xMsLicense: string, authorization: string, xMsKey: string): (key: string)
    ensures Trim(key) == key
    ensures Trim(xMsLicense) != "" ==> key == Trim(xMsLicense)
    ensures Trim(xMsLicense) == "" && BearerGroup(authorization).Some? ==>
              key == Trim(BearerGroup(authorization).value)
    ensures Trim(xMsLicense) == "" && BearerGroup(authorization).None? ==> key == Trim(xMsKey)
  {
    TrimIdempotent(xMsLicense);
    TrimIdempotent(xMsKey);
    var h1 := Trim(xMsLicense);
    if h1 != "" then h1
    else
      var m := BearerGroup(authorization);
      if m.Some? then
        TrimIdempotent(m.value);
        Trim(m.value)
      else Trim(xMsKey)
  }

  /** A "Bearer" header followed by two or more white-space characters, the
      last not a line terminator, still matches: `\s+` takes all but the last
      one, which is the group. The key read is then "" and `x-ms-key` is never
      consulted. With a single white-space character there is no match, and
      the key is the trimmed `x-ms-key`. */
  lemma BlankBearerHidesKeyHeader(ws: string, xMsKey: string)
    requires |ws| >= 1 && AllWhite(ws)
    ensures |ws| >= 2 && !IsLineTerminator(ws[|ws| - 1]) ==>
              BearerGroup("Bearer" + ws) == Some([ws[|ws| - 1]])
              && GetLicenseFromReq("", "Bearer" + ws, xMsKey) == ""
    ensures |ws| == 1 ==> GetLicenseFromReq("", "Bearer" + ws, xMsKey) == Trim(xMsKey)
  {
    var auth := "Bearer" + ws;
    assert auth[6..] == ws;
    assert auth[|auth| - 1..] == [ws[|ws| - 1]];
    var c := ws[|ws| - 1];
    assert TrimStart([c]) == TrimStart([c][1..]);
  }

  // ---------------------------------------------------------------------------
  // maxWalletsForTier, isSolanaAddr
  // ---------------------------------------------------------------------------

  /** `maxWalletsForTier(tier)`: CORE 0, PRO or missing 10, any other 50
      (case-insensitive). */
  function MaxWalletsForTier(tier: string): (max: int)
    ensures max == 0 <==> ToUpper(tier) == "CORE"
    ensures max == 10 <==> tier == "" || ToUpper(tier) == "PRO"
    ensures max == 50 <==> tier != "" && ToUpper(tier) != "CORE" && ToUpper(tier) != "PRO"
  {
    var t := if tier == "" then "PRO" else ToUpper(tier);
    if t == "CORE" then 0 else if t == "PRO" then 10 else 50
  }

  /** `isSolanaAddr(s)`: the trimmed string has 32 to 48 base58 characters. */
  predicate IsSolanaAddr(s: string) {
    var t := Trim(s);
    32 <= |t| <= 48 && AllBase58(t)
  }

  /** A Solana address never holds white space, and trimming keeps it valid. */
  lemma SolanaAddrTrimmed(s: string)
    requires IsSolanaAddr(s)
    ensures IsSolanaAddr(Trim(s))
    ensures forall i :: 0 <= i < |Trim(s)| ==> !IsWhite(Trim(s)[i]) && Trim(s)[i] != '|'
  {
    var t := Trim(s);
    TrimIdempotent(s);
    forall i | 0 <= i < |t| ensures !IsWhite(t[i]) && t[i] != '|' {
      Base58NotWhite(t[i]);
    }
  }

  lemma Base58NotWhite(c: char)
    requires IsBase58Char(c)
    ensures !IsWhite(c) && c != '|'
  {
  }

  // ---------------------------------------------------------------------------
  // The wallet-list cleaning of PUT /user/wallets
  // ---------------------------------------------------------------------------

  /** One entry of the request's `wallets` array, with absent fields as "" or
      `None`; `createdAt` 0 stands for a missing value. The source's `label`
      field is `caption` here, `label` being a Dafny keyword. */
  datatype WalletInput = WalletInput(address: string, caption: string, enabled: Option<bool>, createdAt: int)

  /** A stored wallet `{ address, label, enabled, createdAt }`. */
  datatype Wallet = Wallet(address: string, caption: string, enabled: bool, createdAt: int)

  predicate Acceptable(w: WalletInput) {
    Trim(w.address) != "" && IsSolanaAddr(Trim(w.address))
  }

  /** The entry the loop pushes for an acceptable input. */
  function Cleaned(w: WalletInput, now: int): (c: Wallet)
    ensures c.address == Trim(w.address) && |c.caption| <= 24
    ensures c.enabled <==> w.enabled != Some(false)
    ensures c.createdAt == (if w.createdAt != 0 then w.createdAt else now)
  {
    Wallet(Trim(w.address), SlicePrefix(Trim(w.caption), 24), w.enabled != Some(false),
           if w.createdAt != 0 then w.createdAt else now)
  }

  /** Every acceptable input, cleaned, in input order (the loop without its
      early exit). */
  function AllCleaned(incoming: seq<WalletInput>, now: int): (r: seq<Wallet>)
    ensures |r| <= |incoming|
    ensures forall i :: 0 <= i < |r| ==> Trim(r[i].address) == r[i].address && IsSolanaAddr(r[i].address)
  {
    if incoming == [] then []
    else
      var last := incoming[|incoming| - 1];
      AllCleaned(incoming[..|incoming| - 1], now)
        + (if Acceptable(last) then TrimIdempotent(last.address); [Cleaned(last, now)] else [])
  }

  /** Cleaning a prefix of the input yields a prefix of the full result. */
  lemma {:induction false} AllCleanedPrefix(incoming: seq<WalletInput>, n: nat, now: int)
    requires n <= |incoming|
    ensures var p := AllCleaned(incoming[..n], now);
            var all := AllCleaned(incoming, now);
            |p| <= |all| && all[..|p|] == p
    decreases |incoming| - n
  {
    if n < |incoming| {
      var front := incoming[..|incoming| - 1];
      AllCleanedPrefix(front, n, now);
      assert front[..n] == incoming[..n];
      assert incoming[..|incoming|] == incoming;
    } else {
      assert incoming[..n] == incoming;
    }
  }

  lemma AllCleanedStep(incoming: seq<WalletInput>, i: nat, now: int)
    requires i < |incoming|
    ensures AllCleaned(incoming[..i + 1], now)
            == AllCleaned(incoming[..i], now)
               + (if Acceptable(incoming[i]) then [Cleaned(incoming[i], now)] else [])
  {
    assert incoming[..i + 1][..i] == incoming[..i];
  }

  /** The loop of PUT /user/wallets: keeps the acceptable entries in input
      order and stops once `cleaned.length >= max`, which is tested only after
      a push. */
  method CleanWallets(incoming: seq<WalletInput>, max: int, now: int) returns (cleaned: seq<Wallet>)
    ensures var all := AllCleaned(incoming, now);
            cleaned == all[..MinInt(|all|, MaxInt(1, max))]
  {
    cleaned := [];
    var i := 0;
    while i < |incoming|
      invariant 0 <= i <= |incoming|
      invariant cleaned == AllCleaned(incoming[..i], now)
      invariant |cleaned| < MaxInt(1, max)
    {
      var w := incoming[i];
      AllCleanedStep(incoming, i, now);
      i := i + 1;
      var address := Trim(w.address);
      if address == "" {
        continue;
      }
      if !IsSolanaAddr(address) {
        continue;
      }
      cleaned := cleaned + [Wallet(address, SlicePrefix(Trim(w.caption), 24), w.enabled != Some(false),
                                   if w.createdAt != 0 then w.createdAt else now)];
      if |cleaned| >= max {
        AllCleanedPrefix(incoming, i, now);
        return;
      }
    }
    assert incoming[..i] == incoming;
  }

  /** A CORE user, whose allowance is 0, still keeps one wallet whenever the
      request holds an acceptable one. */
  lemma CoreKeepsOneWallet(incoming: seq<WalletInput>, now: int, cleaned: seq<Wallet>)
    requires var all := AllCleaned(incoming, now);
             cleaned == all[..MinInt(|all|, MaxInt(1, MaxWalletsForTier("CORE")))]
    requires exists i :: 0 <= i < |incoming| && Acceptable(incoming[i])
    ensures |cleaned| == 1
  {
    AcceptableIsKept(incoming, now);
  }

  /** The cleaned list is empty only when no entry is acceptable. */
  lemma {:induction false} AcceptableIsKept(incoming: seq<WalletInput>, now: int)
    ensures AllCleaned(incoming, now) == [] <==> forall i :: 0 <= i < |incoming| ==> !Acceptable(incoming[i])
  {
    if incoming != [] {
      var front := incoming[..|incoming| - 1];
      AcceptableIsKept(front, now);
      assert forall i :: 0 <= i < |front| ==> front[i] == incoming[i];
    }
  }
}
