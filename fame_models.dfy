/** The request bodies of the admin panel's fame-points API and their field validators. Each
    validator returns the value the body will hold, possibly normalised, or the message of the
    ValueError it raises. */
module FameModels {
  import opened Wrappers
  import opened Text

  datatype RewardType = Role | Item | Money | Custom

  /** The enum's string value, as stored in the reward_type column. */
  function TypeValue(t: RewardType): (s: string)
  {
    match t
    case Role => "role"
    case Item => "item"
    case Money => "money"
    case Custom => "custom"
  }

  /** RewardType(s): the member with that value, or None (a ValueError). */
  function ParseRewardType(s: string): (r: Option<RewardType>)
    ensures r.Some? ==> TypeValue(r.value) == s
    ensures r.None? ==> s !in {"role", "item", "money", "custom"}
  {
    if s == "role" then Some(Role)
    else if s == "item" then Some(Item)
    else if s == "money" then Some(Money)
    else if s == "custom" then Some(Custom)
    else None
  }

  /** Reading back a stored reward type gives the type that was written. */
  lemma RewardTypeRoundTrip(t: RewardType)
    ensures ParseRewardType(TypeValue(t)) == Some(t)
  {
  }

  /** FameRewardCreate.fame_cost: strictly positive. */
  function ValidateFameCost(v: int): (r: Result<int, string>)
    ensures r.Ok? <==> v > 0
    ensures r.Ok? ==> r.value == v
    ensures r.Err? ==> r.error == "Fame cost must be positive"
  {
    if v <= 0 then Err("Fame cost must be positive") else Ok(v)
  }

  /** FameRewardUpdate.fame_cost: absent, or strictly positive. */
  function ValidateFameCostUpdate(v: Option<int>): (r: Result<Option<int>, string>)
    ensures r.Ok? <==> v.None? || v.value > 0
    ensures r.Ok? ==> r.value == v
  {
    if v.Some? && v.value <= 0 then Err("Fame cost must be positive") else Ok(v)
  }

  /** A given cost passes the update check exactly when it passes the create check, with the
      same message when it fails. */
  lemma FameCostChecksAgree(v: int)
    ensures ValidateFameCostUpdate(Some(v)).Ok? <==> ValidateFameCost(v).Ok?
    ensures ValidateFameCostUpdate(Some(v)).Err? ==> ValidateFameCostUpdate(Some(v)).error == ValidateFameCost(v).error
  {
  }

  /** FameRewardCreate.reward_name: refused when blank once stripped, or longer than 100
      characters as sent; otherwise kept stripped. */
  function ValidateRewardName(v: string): (r: Result<string, string>)
    ensures r.Ok? <==> |Strip(v)| > 0 && |v| <= 100
    ensures r.Ok? ==> r.value == Strip(v) && 0 < |r.value| <= 100
    ensures r.Ok? ==> !IsWhitespace(r.value[0]) && !IsWhitespace(r.value[|r.value| - 1])
    ensures |Strip(v)| == 0 ==> r == Err("Reward name cannot be empty")
  {
    if |Strip(v)| == 0 then Err("Reward name cannot be empty")
    else if |v| > 100 then Err("Reward name too long")
    else Ok(Strip(v))
  }

  /** A stored reward name passes the validator again unchanged. */
  lemma RewardNameIdempotent(v: string)
    requires ValidateRewardName(v).Ok?
    ensures ValidateRewardName(ValidateRewardName(v).value) == ValidateRewardName(v)
  {
    StripNoWhitespace(Strip(v));
  }

  /** FameAdjustment.reason: refused when blank once stripped; otherwise kept stripped (there is
      no length limit). */
  function ValidateReason(v: string): (r: Result<string, string>)
    ensures r.Ok? <==> |Strip(v)| > 0
    ensures r.Ok? ==> r.value == Strip(v) && |r.value| <= |v|
    ensures r.Ok? ==> !IsWhitespace(r.value[0]) && !IsWhitespace(r.value[|r.value| - 1])
  {
    if |Strip(v)| == 0 then Err("Reason cannot be empty") else Ok(Strip(v))
  }

  /** A reason the reward-name check accepts is accepted as a reason too, with the same value. */
  lemma NameIsAlsoReason(v: string)
    requires ValidateRewardName(v).Ok?
    ensures ValidateReason(v) == ValidateRewardName(v)
  {
  }

  /** One adjustment of a user's fame: the amount may be negative. */
  datatype Adjustment = Adjustment(userId: string, amount: int, reason: string)

  /** FameBulkAdjustment.adjustments: from 1 to 50 items, passed on as they are. */
  function ValidateAdjustments(v: seq<Adjustment>): (r: Result<seq<Adjustment>, string>)
    ensures r.Ok? <==> 1 <= |v| <= 50
    ensures r.Ok? ==> r.value == v
    ensures |v| == 0 ==> r == Err("At least one adjustment required")
    ensures |v| > 50 ==> r == Err("Too many adjustments at once (max 50)")
  {
    if |v| == 0 then Err("At least one adjustment required")
    else if |v| > 50 then Err("Too many adjustments at once (max 50)")
    else Ok(v)
  }

  /** A validated batch split in two non-empty parts gives two valid batches. */
  lemma BatchSplitsValid(v: seq<Adjustment>, k: int)
    requires ValidateAdjustments(v).Ok? && 0 < k < |v|
    ensures ValidateAdjustments(v[..k]).Ok? && ValidateAdjustments(v[k..]).Ok?
  {
  }

  /** A validated FameRewardCreate body. reward_value is its JSON text. */
  datatype RewardCreate = RewardCreate(name: string, cost: int, rewardType: RewardType, rewardValue: string,
                                       description: Option<string>, maxPurchases: Option<int>,
                                       cooldownHours: int, requiredRole: Option<string>)

  /** Building a FameRewardCreate: the validators run in field order, the name's before the
      cost's, and every failure is reported; an omitted cooldown is 0. */
  function NewRewardCreate(name: string, cost: int, rewardType: RewardType, rewardValue: string,
                           description: Option<string>, maxPurchases: Option<int>,
                           cooldownHours: Option<int>, requiredRole: Option<string>): (r: Result<RewardCreate, seq<string>>)
    ensures r.Ok? <==> ValidateFameCost(cost).Ok? && ValidateRewardName(name).Ok?
    ensures r.Err? ==> r.error == (if ValidateRewardName(name).Err? then [ValidateRewardName(name).error] else [])
                                  + (if ValidateFameCost(cost).Err? then [ValidateFameCost(cost).error] else [])
    ensures r.Ok? ==> r.value.name == Strip(name) && r.value.cost == cost && r.value.cost > 0
    ensures r.Ok? ==> r.value.cooldownHours == (if cooldownHours.Some? then cooldownHours.value else 0)
    ensures r.Ok? ==> r.value.rewardType == rewardType && r.value.rewardValue == rewardValue
                      && r.value.description == description && r.value.maxPurchases == maxPurchases
                      && r.value.requiredRole == requiredRole
  {
    var n := ValidateRewardName(name);
    var c := ValidateFameCost(cost);
    if n.Err? || c.Err? then
      Err((if n.Err? then [n.error] else []) + (if c.Err? then [c.error] else []))
    else Ok(RewardCreate(n.value, c.value, rewardType, rewardValue, description, maxPurchases,
                         cooldownHours.GetOr(0), requiredRole))
  }

  /** A validated FameRewardUpdate body: every field optional. */
  datatype RewardUpdate = RewardUpdate(name: Option<string>, cost: Option<int>, rewardType: Option<RewardType>,
                                       rewardValue: Option<string>, description: Option<string>,
                                       isActive: Option<bool>, maxPurchases: Option<int>,
                                       cooldownHours: Option<int>, requiredRole: Option<string>)

  /** Building a FameRewardUpdate: only the cost is checked; the name is taken as sent. */
  function NewRewardUpdate(u: RewardUpdate): (r: Result<RewardUpdate, string>)
    ensures r.Ok? <==> u.cost.None? || u.cost.value > 0
    ensures r.Ok? ==> r.value == u
  {
    var c := ValidateFameCostUpdate(u.cost);
    if c.Err? then Err(c.error) else Ok(u)
  }

  /** Unlike the create body, the update body does not strip or bound the name: a blank name
      gets through. */
  lemma UpdateKeepsBlankName(u: RewardUpdate)
    requires u.name == Some(" ") && u.cost.None?
    ensures NewRewardUpdate(u).Ok? && NewRewardUpdate(u).value.name == Some(" ")
    ensures ValidateRewardName(" ").Err?
  {
  }
}
