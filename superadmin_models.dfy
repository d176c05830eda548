/** The request bodies of the super-admin panel: the subscription plans it offers, subscription
    changes, per-server overrides and bulk server actions, with their field validators. */
module SuperadminModels {
  import opened Wrappers
  import SM = SubscriptionManager

  datatype SubscriptionPlan = Free | Premium | Vip

  /** The enum's string value. */
  function PlanValue(p: SubscriptionPlan): string
  {
    match p
    case Free => "free"
    case Premium => "premium"
    case Vip => "vip"
  }

  /** SubscriptionPlan(s): the member with that value, or None (a validation error). */
  function ParsePlan(s: string): (r: Option<SubscriptionPlan>)
    ensures r.Some? <==> s in {"free", "premium", "vip"}
    ensures r.Some? ==> PlanValue(r.value) == s
  {
    if s == "free" then Some(Free)
    else if s == "premium" then Some(Premium)
    else if s == "vip" then Some(Vip)
    else None
  }

  /** A plan's value reads back as the same plan, so the three values are distinct. */
  lemma PlanRoundTrip(p: SubscriptionPlan)
    ensures ParsePlan(PlanValue(p)) == Some(p)
  {
  }

  /** The panel's plans and the plans the bot seeds differ: the bot has no "vip" row, so a guild
      put on that plan gets the bot's default limits, and the bot's "enterprise" plan cannot be
      chosen here. */
  lemma PlansDifferFromBot(guild: string, s: SM.Subscription)
    requires s.planType == PlanValue(Vip)
    ensures PlanValue(Vip) !in SM.SeededPlans()
    ensures ParsePlan("enterprise").None?
    ensures SM.Joined(guild, s, SM.SeededPlans()).maxBunkers == SM.DefaultMaxBunkers
  {
  }

  /** SubscriptionUpdate: an omitted duration is one month. */
  datatype SubscriptionUpdate = SubscriptionUpdate(guild: string, newPlan: SubscriptionPlan, durationMonths: int,
                                                   reason: Option<string>)

  function NewSubscriptionUpdate(guild: string, plan: SubscriptionPlan, durationMonths: Option<int>,
                                 reason: Option<string>): (u: SubscriptionUpdate)
    ensures u.durationMonths == (if durationMonths.Some? then durationMonths.value else 1)
    ensures u.guild == guild && u.newPlan == plan && u.reason == reason
  {
    SubscriptionUpdate(guild, plan, durationMonths.GetOr(1), reason)
  }

  /** CreateServerOverride.guild_id: refused when empty or shorter than 10 characters; otherwise
      kept as sent. */
  function ValidateGuildId(v: string): (r: Result<string, string>)
    ensures r.Ok? <==> |v| >= 10
    ensures r.Ok? ==> r.value == v
    ensures r.Err? ==> r.error == "Guild ID must be valid Discord snowflake"
  {
    if v == [] || |v| < 10 then Err("Guild ID must be valid Discord snowflake") else Ok(v)
  }

  datatype ServerOverride = ServerOverride(guild: string, plan: SubscriptionPlan, durationMonths: int, reason: string)

  /** Building a CreateServerOverride: the guild id is checked and an omitted duration is one
      month. */
  function NewServerOverride(guild: string, plan: SubscriptionPlan, durationMonths: Option<int>, reason: string)
    : (r: Result<ServerOverride, string>)
    ensures r.Ok? <==> ValidateGuildId(guild).Ok?
    ensures r.Ok? ==> r.value.guild == guild && r.value.plan == plan && r.value.reason == reason
    ensures r.Ok? ==> r.value.durationMonths == (if durationMonths.Some? then durationMonths.value else 1)
  {
    var g := ValidateGuildId(guild);
    if g.Err? then Err(g.error) else Ok(ServerOverride(g.value, plan, durationMonths.GetOr(1), reason))
  }

  /** An override and a subscription change built from the same omitted duration agree on it. */
  lemma DefaultDurationsAgree(guild: string, plan: SubscriptionPlan, reason: string)
    requires |guild| >= 10
    ensures NewServerOverride(guild, plan, None, reason).value.durationMonths
            == NewSubscriptionUpdate(guild, plan, None, Some(reason)).durationMonths == 1
  {
  }

  /** ServerActionBulk.guild_ids: from 1 to 50 ids, kept as sent. */
  function ValidateGuildIds(v: seq<string>): (r: Result<seq<string>, string>)
    ensures r.Ok? <==> 1 <= |v| <= 50
    ensures r.Ok? ==> r.value == v
    ensures |v| == 0 ==> r == Err("Must specify at least one server")
    ensures |v| > 50 ==> r == Err("Cannot process more than 50 servers at once")
  {
    if v == [] then Err("Must specify at least one server")
    else if |v| > 50 then Err("Cannot process more than 50 servers at once")
    else Ok(v)
  }

  /** The ids are not checked one by one: a batch may hold an id the override check refuses. */
  lemma BulkIdsNotChecked()
    ensures ValidateGuildIds([""]).Ok? && ValidateGuildId("").Err?
  {
  }

  /** A batch longer than 50 can be sent as a valid prefix of 50 ids and a rest. */
  lemma BatchOfFifty(v: seq<string>)
    requires |v| > 50
    ensures ValidateGuildIds(v[..50]).Ok? && ValidateGuildIds(v[50..]).Ok? == (|v| <= 100)
  {
  }
}
