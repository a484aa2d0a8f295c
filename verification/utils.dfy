/** The pure tables of the application: the credits a plan buys and the
    public base URL. */
module Utils {
  import opened Wrappers
  import opened Db

  /** `getCreditsFromPlan`: credits granted for a plan name. The argument is
      a plain string because the webhook passes the event metadata through
      an unchecked cast; any value outside the enumeration falls through to
      the default branch. */
  function CreditsFromPlan(plan: string): (credits: nat)
    ensures credits > 0 <==> exists p: Plan :: PlanName(p) == plan
  {
    if plan == "BASIC" then assert PlanName(BASIC) == plan; 10
    else if plan == "MEDIUM" then assert PlanName(MEDIUM) == plan; 30
    else if plan == "PRO" then assert PlanName(PRO) == plan; 50
    else 0
  }

  /** Credits of the three packs, stated against the enumeration. */
  lemma CreditsOfEachPlan()
    ensures CreditsFromPlan(PlanName(BASIC)) == 10
    ensures CreditsFromPlan(PlanName(MEDIUM)) == 30
    ensures CreditsFromPlan(PlanName(PRO)) == 50
  {
  }

  /** Position of a plan in the enumeration. */
  function PlanRank(p: Plan): nat {
    match p
    case BASIC => 0
    case MEDIUM => 1
    case PRO => 2
  }

  /** A larger pack always buys strictly more credits. */
  lemma CreditsIncreaseWithPlan(p: Plan, q: Plan)
    requires PlanRank(p) < PlanRank(q)
    ensures 0 < CreditsFromPlan(PlanName(p)) < CreditsFromPlan(PlanName(q))
  {
  }

  /** `getBaseUrl`: `nodeEnv` is `process.env.NODE_ENV`, which may be unset. */
  function BaseUrl(nodeEnv: Option<string>): (url: string)
    ensures nodeEnv == Some("production") ==> url == "https://ai.whx.world"
    ensures nodeEnv != Some("production") ==> url == "http://localhost:3000"
  {
    if nodeEnv == Some("production") then "https://ai.whx.world" else "http://localhost:3000"
  }

  /** Only production links use a secure scheme. */
  lemma SecureOnlyInProduction(nodeEnv: Option<string>)
    ensures |BaseUrl(nodeEnv)| >= 8
    ensures BaseUrl(nodeEnv)[..8] == "https://" <==> nodeEnv == Some("production")
  {
    if nodeEnv != Some("production") {
      assert BaseUrl(nodeEnv)[..8] == "http://l";
    }
  }
}
