/**
  The license gate of `auth.js`: a table of license keys, each with a plan
  and an active flag, the middleware decision for a request that needs a
  given plan, and the two admin helpers that add and deactivate keys. The
  JSON file behind the table is not part of this model; a table starts as
  the fallback `loadDb` returns when there is no file.
*/
module Auth {
  import opened Js

  const DefaultRequiredPlan := "free"
  const DefaultAddedPlan := "basic"
  const DevKey := "DEV-KEY-123"

  /** A row `{ plan, active, createdAt }`. */
  datatype License = License(plan: string, active: bool, createdAt: int)

  /** What the middleware does with a request. */
  datatype Outcome =
    | MissingKey                                 // 401 missing_key
    | InvalidOrInactive                          // 403 invalid_or_inactive_key
    | UpgradeRequired(have: string, need: string) // 402 upgrade_required
    | Pass(key: string, license: License)         // next(), with req.license set

  function Status(o: Outcome): (code: int)
    ensures o.Pass? <==> code == 200
  {
    match o
    case MissingKey => 401
    case InvalidOrInactive => 403
    case UpgradeRequired(_, _) => 402
    case Pass(_, _) => 200
  }

  /** `order[plan] ?? 0` with `order = { free: 0, basic: 1, pro: 2, enterprise: 3 }`. */
  function PlanRank(plan: string): (r: nat)
    ensures r <= 3
    ensures r == 0 <==> plan != "basic" && plan != "pro" && plan != "enterprise"
  {
    if plan == "basic" then 1
    else if plan == "pro" then 2
    else if plan == "enterprise" then 3
    else 0
  }

  /** The plans in their order, and every name outside the table ranks with
      "free". */
  lemma PlanOrder(unknown: string)
    requires unknown !in {"free", "basic", "pro", "enterprise"}
    ensures PlanRank("free") < PlanRank("basic") < PlanRank("pro") < PlanRank("enterprise")
    ensures PlanRank(unknown) == PlanRank("free")
  {
  }

  /** `req.headers["x-ms-key"] || req.query.key || ""`, each "" when absent. */
  function RequestKey(header: string, query: string): (key: string)
    ensures key == "" <==> header == "" && query == ""
    ensures header != "" ==> key == header
  {
    if header != "" then header else query
  }

  /** The decision of `authMiddleware(requiredPlan)` for a table `db`. */
  function Authorize(db: map<string, License>, header: string, query: string, requiredPlan: Option<string>)
    : (o: Outcome)
    ensures o.MissingKey? <==> RequestKey(header, query) == ""
    ensures o.InvalidOrInactive? <==>
              var key := RequestKey(header, query);
              key != "" && (key !in db || !db[key].active)
    ensures o.Pass? <==>
              var key := RequestKey(header, query);
              && key != "" && key in db && db[key].active
              && PlanRank(db[key].plan) >= PlanRank(requiredPlan.GetOr(DefaultRequiredPlan))
    ensures o.Pass? ==> o.key == RequestKey(header, query) && o.license == db[o.key]
    ensures o.UpgradeRequired? ==>
              o.have == db[RequestKey(header, query)].plan && o.need == requiredPlan.GetOr(DefaultRequiredPlan)
  {
    var key := RequestKey(header, query);
    var need := requiredPlan.GetOr(DefaultRequiredPlan);
    if key == "" then MissingKey
    else if key !in db || !db[key].active then InvalidOrInactive
    else if PlanRank(db[key].plan) < PlanRank(need) then UpgradeRequired(db[key].plan, need)
    else Pass(key, db[key])
  }

  /** The default requirement "free" admits every active key. */
  lemma FreeAdmitsEveryActiveKey(db: map<string, License>, header: string, query: string)
    requires var key := RequestKey(header, query); key in db && db[key].active && key != ""
    ensures Authorize(db, header, query, None).Pass?
  {
  }

  /** A key admitted for one plan is admitted for every plan ranked no
      higher. */
  lemma PassIsDownwardClosed(db: map<string, License>, header: string, query: string, p: string, q: string)
    requires Authorize(db, header, query, Some(p)).Pass?
    requires PlanRank(q) <= PlanRank(p)
    ensures Authorize(db, header, query, Some(q)).Pass?
  {
  }

  class LicenseDb {
    var db: map<string, License>

    /** `loadDb()` without a file: the one example key, on plan "pro". */
    constructor(now: int)
      ensures db == map[DevKey := License("pro", true, now)]
    {
      db := map[DevKey := License("pro", true, now)];
    }

    /** `addLicense(key, plan = "basic")`: the key gets a fresh active row,
        replacing any earlier one. */
    method AddLicense(key: string, plan: Option<string>, now: int) returns (row: License)
      modifies this
      ensures row == License(plan.GetOr(DefaultAddedPlan), true, now)
      ensures db == old(db)[key := row]
    {
      row := License(plan.GetOr(DefaultAddedPlan), true, now);
      db := db[key := row];
    }

    /** `deactivateLicense(key)`: false, with nothing changed, for an unknown
        key; otherwise the row is kept with `active` cleared. */
    method DeactivateLicense(key: string) returns (ok: bool)
      modifies this
      ensures ok <==> key in old(db)
      ensures !ok ==> db == old(db)
      ensures ok ==> db == old(db)[key := old(db)[key].(active := false)]
    {
      if key !in db {
        return false;
      }
      db := db[key := db[key].(active := false)];
      return true;
    }
  }

  /** After `addLicense(key, plan)`, a request with that key passes every
      requirement ranked at most `plan`. */
  lemma AddedKeyPasses(db: map<string, License>, key: string, plan: Option<string>, now: int,
                       query: string, required: Option<string>)
    requires key != ""
    requires PlanRank(required.GetOr(DefaultRequiredPlan)) <= PlanRank(plan.GetOr(DefaultAddedPlan))
    ensures Authorize(db[key := License(plan.GetOr(DefaultAddedPlan), true, now)], key, query, required).Pass?
  {
  }

  /** After `deactivateLicense(key)` on a known key, a request with that key
      is refused with 403 whatever plan it needs, and every other key is
      treated as before. */
  lemma DeactivatedKeyRefused(db: map<string, License>, key: string, query: string, required: Option<string>,
                              header: string)
    requires key in db && key != ""
    ensures Authorize(db[key := db[key].(active := false)], key, query, required) == InvalidOrInactive
    ensures RequestKey(header, query) != key ==>
              Authorize(db[key := db[key].(active := false)], header, query, required)
              == Authorize(db, header, query, required)
  {
  }
}
