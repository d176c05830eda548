/** The per-guild subscriptions: a subscriptions table keyed by guild, a plan_limits table keyed
    by plan name, the joined view the bot reads, and the limit check in which -1 means unlimited.
    Timestamps are seconds, passed in as `now`. */
module SubscriptionManager {
  import opened Wrappers

  /** One plan_limits row; the limits are nullable columns. */
  datatype PlanLimits = PlanLimits(maxBunkers: Option<int>, maxServers: Option<int>, advancedNotifications: bool,
                                   apiAccess: bool, prioritySupport: bool, monthlyPrice: real)

  /** One subscriptions row. */
  datatype Subscription = Subscription(planType: string, status: string, customerId: Option<string>,
                                       subscriptionId: Option<string>, periodStart: Option<real>,
                                       periodEnd: Option<real>, createdAt: Option<real>, updatedAt: Option<real>)

  /** The dictionary get_subscription returns. */
  datatype SubscriptionView = SubscriptionView(guildId: string, planType: string, status: string,
                                               periodEnd: Option<real>, maxBunkers: int, maxServers: int,
                                               advancedNotifications: bool, apiAccess: bool,
                                               prioritySupport: bool, monthlyPrice: Option<real>)

  /** The dictionary check_limits returns. */
  datatype LimitReport = LimitReport(withinLimits: bool, bunkersOk: bool, serversOk: bool, maxBunkers: int,
                                     maxServers: int, currentBunkers: int, currentServers: int, planType: string)

  const Unlimited: int := -1
  const PeriodSeconds: real := 30.0 * 86400.0
  /** The limits get_subscription reports when the plan has no plan_limits row. */
  const DefaultMaxBunkers: int := 2
  const DefaultMaxServers: int := 1

  /** The three plans initialize writes with INSERT OR REPLACE. */
  function SeededPlans(): (p: map<string, PlanLimits>)
    ensures p.Keys == {"free", "premium", "enterprise"}
    ensures p["free"].maxBunkers == Some(1) && p["free"].maxServers == Some(1)
    ensures p["premium"].maxBunkers == Some(Unlimited) && p["premium"].maxServers == Some(Unlimited)
    ensures p["enterprise"].maxBunkers == Some(Unlimited) && p["enterprise"].maxServers == Some(Unlimited)
  {
    map["free" := PlanLimits(Some(1), Some(1), false, false, false, 0.00),
        "premium" := PlanLimits(Some(Unlimited), Some(Unlimited), true, true, true, 5.99),
        "enterprise" := PlanLimits(Some(Unlimited), Some(Unlimited), true, true, true, 15.99)]
  }

  /** The row create_free_subscription writes at `now`: INSERT OR REPLACE names only the guild,
      plan and status, so the payment and period columns are null and created_at and updated_at
      take their CURRENT_TIMESTAMP default. */
  function FreeSubscription(now: real): (s: Subscription)
    ensures s.planType == "free" && s.status == "active"
    ensures s.customerId.None? && s.subscriptionId.None? && s.periodStart.None? && s.periodEnd.None?
    ensures s.createdAt == Some(now) && s.updatedAt == Some(now)
  {
    Subscription("free", "active", None, None, None, None, Some(now), Some(now))
  }

  /** The LEFT JOIN of a subscription with its plan's limits, null limits read as 2 and 1 and
      null flags as false. */
  function Joined(guild: string, s: Subscription, plans: map<string, PlanLimits>): (v: SubscriptionView)
    ensures v.guildId == guild && v.planType == s.planType && v.status == s.status && v.periodEnd == s.periodEnd
    ensures s.planType !in plans ==>
      v.maxBunkers == DefaultMaxBunkers && v.maxServers == DefaultMaxServers && !v.advancedNotifications
      && !v.apiAccess && !v.prioritySupport && v.monthlyPrice.None?
    ensures s.planType in plans ==>
      v.maxBunkers == plans[s.planType].maxBunkers.GetOr(DefaultMaxBunkers)
      && v.maxServers == plans[s.planType].maxServers.GetOr(DefaultMaxServers)
      && v.monthlyPrice == Some(plans[s.planType].monthlyPrice)
  {
    if s.planType in plans then
      var p := plans[s.planType];
      SubscriptionView(guild, s.planType, s.status, s.periodEnd, p.maxBunkers.GetOr(DefaultMaxBunkers),
                       p.maxServers.GetOr(DefaultMaxServers), p.advancedNotifications, p.apiAccess,
                       p.prioritySupport, Some(p.monthlyPrice))
    else
      SubscriptionView(guild, s.planType, s.status, s.periodEnd, DefaultMaxBunkers, DefaultMaxServers,
                       false, false, false, None)
  }

  /** check_limits on the limits of a view: each count is checked against its maximum unless that
      maximum is -1, and the guild is within limits when both checks pass. */
  function Limits(view: SubscriptionView, bunkers: int, servers: int): (r: LimitReport)
    ensures r.bunkersOk <==> view.maxBunkers == Unlimited || bunkers <= view.maxBunkers
    ensures r.serversOk <==> view.maxServers == Unlimited || servers <= view.maxServers
    ensures r.withinLimits <==> r.bunkersOk && r.serversOk
    ensures r.maxBunkers == view.maxBunkers && r.maxServers == view.maxServers && r.planType == view.planType
    ensures r.currentBunkers == bunkers && r.currentServers == servers
  {
    var bunkersOk := view.maxBunkers == Unlimited || bunkers <= view.maxBunkers;
    var serversOk := view.maxServers == Unlimited || servers <= view.maxServers;
    LimitReport(bunkersOk && serversOk, bunkersOk, serversOk, view.maxBunkers, view.maxServers, bunkers, servers,
                view.planType)
  }

  /** A guild within its limits stays within them with fewer bunkers and servers. */
  lemma FewerStaysWithin(view: SubscriptionView, b: int, s: int, b2: int, s2: int)
    requires Limits(view, b, s).withinLimits && b2 <= b && s2 <= s
    ensures Limits(view, b2, s2).withinLimits
  {
  }

  /** The seeded premium and enterprise plans accept any counts; the seeded free plan accepts one
      bunker and one server and refuses a second of either. */
  lemma SeededPlanLimits(guild: string, s: Subscription, b: int, n: int)
    ensures s.planType == "premium" || s.planType == "enterprise" ==>
      Limits(Joined(guild, s, SeededPlans()), b, n).withinLimits
    ensures s.planType == "free" ==>
      (Limits(Joined(guild, s, SeededPlans()), b, n).withinLimits <==> b <= 1 && n <= 1)
  {
  }

  /** A plan missing from plan_limits (say an upgrade to a plan name that was never seeded) is
      given two bunkers, more than the seeded free plan. */
  lemma UnknownPlanDefaults(guild: string, s: Subscription)
    requires s.planType !in SeededPlans()
    ensures Limits(Joined(guild, s, SeededPlans()), 2, 1).withinLimits
    ensures !Limits(Joined(guild, s, SeededPlans()), 3, 1).withinLimits
  {
  }

  class SubscriptionStore {
    var subscriptions: map<string, Subscription>
    var plans: map<string, PlanLimits>

    constructor ()
      ensures subscriptions == map[] && plans == map[]
    {
      subscriptions, plans := map[], map[];
    }

    /** initialize: writes the three seeded plans over whatever rows they had. */
    method Initialize()
      modifies this
      ensures plans == old(plans) + SeededPlans()
      ensures subscriptions == old(subscriptions)
    {
      var seeded := SeededPlans();
      plans := plans + seeded;
    }

    /** create_free_subscription: INSERT OR REPLACE, so an existing row of the guild is replaced
        by a fresh free one. */
    method CreateFreeSubscription(guild: string, now: real)
      modifies this
      ensures subscriptions == old(subscriptions)[guild := FreeSubscription(now)]
      ensures plans == old(plans)
    {
      subscriptions := subscriptions[guild := FreeSubscription(now)];
    }

    /** get_subscription: an unknown guild is first given a free subscription; the joined row is
        returned. */
    method GetSubscription(guild: string, now: real) returns (v: SubscriptionView)
      modifies this
      ensures guild in old(subscriptions) ==> subscriptions == old(subscriptions)
      ensures guild !in old(subscriptions) ==> subscriptions == old(subscriptions)[guild := FreeSubscription(now)]
      ensures plans == old(plans)
      ensures guild in subscriptions && v == Joined(guild, subscriptions[guild], plans)
    {
      if guild !in subscriptions {
        CreateFreeSubscription(guild, now);
      }
      v := Joined(guild, subscriptions[guild], plans);
    }

    /** upgrade_subscription: an UPDATE of the guild's row, so a guild without one is left as it
        is; the period runs 30 days from now. */
    method UpgradeSubscription(guild: string, planType: string, customerId: Option<string>,
                               subscriptionId: Option<string>, now: real)
      modifies this
      ensures guild !in old(subscriptions) ==> subscriptions == old(subscriptions)
      ensures guild in old(subscriptions) ==>
        subscriptions == old(subscriptions)[guild := Upgraded(old(subscriptions)[guild], planType, customerId, subscriptionId, now)]
      ensures plans == old(plans)
    {
      if guild in subscriptions {
        subscriptions := subscriptions[guild := Upgraded(subscriptions[guild], planType, customerId, subscriptionId, now)];
      }
    }

    /** cancel_subscription: back to the free plan, cancelled, without the payment ids. */
    method CancelSubscription(guild: string, now: real)
      modifies this
      ensures guild !in old(subscriptions) ==> subscriptions == old(subscriptions)
      ensures guild in old(subscriptions) ==>
        subscriptions == old(subscriptions)[guild := Cancelled(old(subscriptions)[guild], now)]
      ensures plans == old(plans)
    {
      if guild in subscriptions {
        subscriptions := subscriptions[guild := Cancelled(subscriptions[guild], now)];
      }
    }

    /** check_limits: the limit check on the (possibly just created) subscription. */
    method CheckLimits(guild: string, bunkers: int, servers: int, now: real) returns (r: LimitReport)
      modifies this
      ensures guild !in old(subscriptions) ==> subscriptions == old(subscriptions)[guild := FreeSubscription(now)]
      ensures guild in old(subscriptions) ==> subscriptions == old(subscriptions)
      ensures plans == old(plans)
      ensures r == Limits(Joined(guild, subscriptions[guild], plans), bunkers, servers)
    {
      var v := GetSubscription(guild, now);
      r := Limits(v, bunkers, servers);
    }
  }

  /** The row after upgrade_subscription. */
  function Upgraded(s: Subscription, planType: string, customerId: Option<string>, subscriptionId: Option<string>,
                    now: real): (u: Subscription)
    ensures u.planType == planType && u.status == "active"
    ensures u.customerId == customerId && u.subscriptionId == subscriptionId
    ensures u.periodStart == Some(now) && u.periodEnd == Some(now + PeriodSeconds) && u.updatedAt == Some(now)
  {
    s.(planType := planType, status := "active", customerId := customerId, subscriptionId := subscriptionId,
       periodStart := Some(now), periodEnd := Some(now + PeriodSeconds), updatedAt := Some(now))
  }

  /** The row after cancel_subscription: the period is kept. */
  function Cancelled(s: Subscription, now: real): (c: Subscription)
    ensures c.planType == "free" && c.status == "cancelled"
    ensures c.customerId.None? && c.subscriptionId.None?
    ensures c.periodStart == s.periodStart && c.periodEnd == s.periodEnd && c.updatedAt == Some(now)
  {
    s.(planType := "free", status := "cancelled", customerId := None, subscriptionId := None, updatedAt := Some(now))
  }

  /** Cancelling after an upgrade leaves the seeded free plan's limits in force, while the paid
      period's end date stays on the row. */
  lemma CancelUndoesUpgrade(guild: string, s: Subscription, planType: string, c: Option<string>,
                            id: Option<string>, t0: real, t1: real)
    ensures var after := Cancelled(Upgraded(s, planType, c, id, t0), t1);
            Joined(guild, after, SeededPlans()).maxBunkers == 1
            && Joined(guild, after, SeededPlans()).maxServers == 1
            && after.periodEnd == Some(t0 + PeriodSeconds)
            && after.status == "cancelled"
  {
  }
}
