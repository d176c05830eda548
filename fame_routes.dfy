/** The admin panel's fame-points API: the paged reward catalogue, reward create, update and
    delete, and manual adjustment of a user's fame. The reward table is a list of rows in
    autoincrement order and the users' fame columns are a map keyed by (discord id, guild); the
    clock is a `now` parameter. */
module FameRoutes {
  import opened Wrappers
  import opened Ordering
  import FM = FameModels
  import ABR = AdminBunkerRoutes

  /** One admin_fame_rewards row; reward_value is its JSON text. */
  datatype Reward = Reward(id: int, guild: string, name: string, cost: int, rewardType: FM.RewardType,
                           rewardValue: string, description: Option<string>, isActive: bool,
                           maxPurchases: Option<int>, cooldownHours: int, requiredRole: Option<string>,
                           createdAt: real, updatedAt: real, createdBy: string)

  // ---------------------------------------------------------------- the reward catalogue

  /** The rows of the WHERE clause: the guild's rewards, only the active ones if asked. */
  function Selected(rows: seq<Reward>, guild: string, activeOnly: bool): (r: seq<Reward>)
    ensures forall x :: x in r <==> x in rows && x.guild == guild && (!activeOnly || x.isActive)
    ensures |r| <= |rows|
  {
    if rows == [] then []
    else
      var rest := Selected(rows[..|rows| - 1], guild, activeOnly);
      var last := rows[|rows| - 1];
      assert rows == rows[..|rows| - 1] + [last];
      if last.guild == guild && (!activeOnly || last.isActive) then rest + [last] else rest
  }

  /** Strings in ascending BINARY order, equal ones allowed. */
  predicate LexLeq(a: string, b: string)
  {
    !LexLess(b, a)
  }

  lemma LexLessAsymmetric(a: string, b: string)
    requires LexLess(a, b)
    ensures !LexLess(b, a)
  {
    if LexLess(b, a) {
      LexLessTransitive(a, b, a);
      LexLessIrreflexive(a);
      assert false;
    }
  }

  lemma LexLeqTransitive(a: string, b: string, c: string)
    requires LexLeq(a, b) && LexLeq(b, c)
    ensures LexLeq(a, c)
  {
    if a != b && b != c {
      LexLessTotal(a, b);
      LexLessTotal(b, c);
      LexLessTransitive(a, b, c);
      LexLessAsymmetric(a, c);
    }
  }

  /** ORDER BY fame_cost ASC, reward_name ASC: a may come before b. */
  predicate RewardBefore(a: Reward, b: Reward)
  {
    a.cost < b.cost || (a.cost == b.cost && LexLeq(a.name, b.name))
  }

  /** Of any two rewards one may come first. */
  lemma RewardBeforeTotal(a: Reward, b: Reward)
    ensures RewardBefore(a, b) || RewardBefore(b, a)
  {
    if a.name != b.name {
      LexLessTotal(a.name, b.name);
      if LexLess(a.name, b.name) {
        LexLessAsymmetric(a.name, b.name);
      } else {
        LexLessAsymmetric(b.name, a.name);
      }
    } else {
      LexLessIrreflexive(a.name);
    }
  }

  lemma RewardBeforeTransitive(a: Reward, b: Reward, c: Reward)
    requires RewardBefore(a, b) && RewardBefore(b, c)
    ensures RewardBefore(a, c)
  {
    if a.cost == b.cost && b.cost == c.cost {
      LexLeqTransitive(a.name, b.name, c.name);
    }
  }

  predicate RewardsSorted(s: seq<Reward>)
  {
    forall i, j :: 0 <= i < j < |s| ==> RewardBefore(s[i], s[j])
  }

  function InsertReward(x: Reward, s: seq<Reward>): (r: seq<Reward>)
    ensures multiset(r) == multiset(s) + multiset{x}
  {
    if s == [] then [x]
    else if RewardBefore(x, s[0]) then [x] + s
    else
      assert s == [s[0]] + s[1..];
      [s[0]] + InsertReward(x, s[1..])
  }

  lemma {:induction false} InsertRewardSorted(x: Reward, s: seq<Reward>)
    requires RewardsSorted(s)
    ensures RewardsSorted(InsertReward(x, s))
  {
    if s == [] {
    } else if RewardBefore(x, s[0]) {
      forall j | 0 <= j < |s| ensures RewardBefore(x, s[j]) {
        if j > 0 {
          RewardBeforeTransitive(x, s[0], s[j]);
        }
      }
    } else {
      RewardBeforeTotal(x, s[0]);
      InsertRewardSorted(x, s[1..]);
      var tail := InsertReward(x, s[1..]);
      forall j | 0 <= j < |tail| ensures RewardBefore(s[0], tail[j]) {
        assert tail[j] in multiset(tail);
        if tail[j] != x {
          assert tail[j] in multiset(s[1..]);
          var k :| 0 <= k < |s[1..]| && s[1..][k] == tail[j];
          assert s[k + 1] == tail[j];
        }
      }
    }
  }

  /** The rows in catalogue order. */
  function SortRewards(s: seq<Reward>): (r: seq<Reward>)
    ensures RewardsSorted(r) && multiset(r) == multiset(s)
  {
    if s == [] then []
    else
      assert s == s[..|s| - 1] + [s[|s| - 1]];
      InsertRewardSorted(s[|s| - 1], SortRewards(s[..|s| - 1]));
      InsertReward(s[|s| - 1], SortRewards(s[..|s| - 1]))
  }

  /** Every reward the query selects, in catalogue order. */
  function Listed(rows: seq<Reward>, guild: string, activeOnly: bool): (r: seq<Reward>)
    ensures RewardsSorted(r) && |r| == |Selected(rows, guild, activeOnly)|
    ensures forall x :: x in r <==> x in rows && x.guild == guild && (!activeOnly || x.isActive)
  {
    var sel := Selected(rows, guild, activeOnly);
    var r := SortRewards(sel);
    assert |r| == |multiset(r)| == |sel|;
    forall x ensures x in r <==> x in sel {
      assert x in r <==> x in multiset(r);
    }
    r
  }

  datatype RewardList = RewardList(rewards: seq<Reward>, total: int, page: int, pageSize: int)

  /** The OFFSET of a page: (page - 1) * page_size. */
  function Offset(page: int, pageSize: int): (o: nat)
    requires page >= 1 && pageSize >= 1
    ensures page == 1 ==> o == 0
  {
    (page - 1) * pageSize
  }

  /** get_fame_rewards: 422 for a page below 1 or a page size outside 1..100, 403 without access
      to the guild; otherwise the window of the catalogue at the page's offset, with the number
      of selected rewards as the total. */
  function GetFameRewards(rows: seq<Reward>, caller: ABR.Caller, guild: string, page: int, pageSize: int,
                          activeOnly: bool): (r: Result<RewardList, HttpError>)
    ensures r.Ok? <==> page >= 1 && 1 <= pageSize <= 100 && ABR.CheckGuildAccess(caller, guild).None?
    ensures !(page >= 1 && 1 <= pageSize <= 100) ==> r.Err? && r.error.status == 422
    ensures r.Ok? ==> && r.value.total == |Selected(rows, guild, activeOnly)|
                      && r.value.page == page && r.value.pageSize == pageSize
                      && r.value.rewards == ABR.Window(Listed(rows, guild, activeOnly), Offset(page, pageSize), pageSize)
  {
    if !(page >= 1 && 1 <= pageSize <= 100) then Err(HttpError(422, "Invalid query parameters"))
    else if ABR.CheckGuildAccess(caller, guild).Some? then Err(ABR.CheckGuildAccess(caller, guild).value)
    else Ok(RewardList(ABR.Window(Listed(rows, guild, activeOnly), Offset(page, pageSize), pageSize),
                       |Selected(rows, guild, activeOnly)|, page, pageSize))
  }

  /** A window is the contiguous slice of the list at its offset. */
  lemma WindowIsSlice(all: seq<Reward>, offset: nat, size: nat)
    ensures var w := ABR.Window(all, offset, size);
      forall k :: 0 <= k < |w| ==> offset + k < |all| && w[k] == all[offset + k]
  {
  }

  /** A page holds at most page_size rewards, each of the guild (and active, if asked), in
      catalogue order. */
  lemma PageSortedAndSelected(rows: seq<Reward>, caller: ABR.Caller, guild: string, page: int, pageSize: int,
                              activeOnly: bool)
    requires GetFameRewards(rows, caller, guild, page, pageSize, activeOnly).Ok?
    ensures var p := GetFameRewards(rows, caller, guild, page, pageSize, activeOnly).value.rewards;
      && |p| <= pageSize && RewardsSorted(p)
      && forall x :: x in p ==> x in rows && x.guild == guild && (!activeOnly || x.isActive)
  {
    var all := Listed(rows, guild, activeOnly);
    var o := Offset(page, pageSize);
    var p := ABR.Window(all, o, pageSize);
    WindowIsSlice(all, o, pageSize);
    forall a, b | 0 <= a < b < |p| ensures RewardBefore(p[a], p[b]) {
      assert p[a] == all[o + a] && p[b] == all[o + b];
    }
    forall x | x in p ensures x in all {
      var k :| 0 <= k < |p| && p[k] == x;
      assert all[o + k] == x;
    }
  }

  /** Paging loses nothing: the reward at position (page - 1) * page_size + k of the catalogue
      is at position k of that page. Every position of the catalogue is of this form, with
      page = i div page_size + 1 and k = i mod page_size. */
  lemma EveryRewardOnItsPage(rows: seq<Reward>, caller: ABR.Caller, guild: string, page: int, pageSize: int,
                             activeOnly: bool, k: int)
    requires ABR.CheckGuildAccess(caller, guild).None? && page >= 1 && 1 <= pageSize <= 100 && 0 <= k < pageSize
    requires Offset(page, pageSize) + k < |Listed(rows, guild, activeOnly)|
    ensures var r := GetFameRewards(rows, caller, guild, page, pageSize, activeOnly);
      r.Ok? && k < |r.value.rewards| && r.value.rewards[k] == Listed(rows, guild, activeOnly)[Offset(page, pageSize) + k]
  {
    var all := Listed(rows, guild, activeOnly);
    var o := Offset(page, pageSize);
    WindowIsSlice(all, o, pageSize);
    assert |ABR.Window(all, o, pageSize)| > k;
  }

  /** Whether the guild already has a reward with that name (active or not). */
  predicate NameUsed(rows: seq<Reward>, guild: string, name: string)
  {
    exists i :: 0 <= i < |rows| && rows[i].guild == guild && rows[i].name == name
  }

  /** The position of the row with that id in that guild. */
  function IndexOf(rows: seq<Reward>, id: int, guild: string): (r: Option<nat>)
    ensures r.None? <==> forall i :: 0 <= i < |rows| ==> !(rows[i].id == id && rows[i].guild == guild)
    ensures r.Some? ==> r.value < |rows| && rows[r.value].id == id && rows[r.value].guild == guild
  {
    if rows == [] then None
    else if rows[|rows| - 1].id == id && rows[|rows| - 1].guild == guild then Some(|rows| - 1)
    else IndexOf(rows[..|rows| - 1], id, guild)
  }

  /** The reward after an update: each given field replaced, updated_at set. */
  function Applied(x: Reward, u: FM.RewardUpdate, now: real): (y: Reward)
    ensures y.id == x.id && y.guild == x.guild && y.createdAt == x.createdAt && y.createdBy == x.createdBy
    ensures y.updatedAt == now
    ensures y.name == u.name.GetOr(x.name) && y.cost == u.cost.GetOr(x.cost)
    ensures y.isActive == u.isActive.GetOr(x.isActive) && y.cooldownHours == u.cooldownHours.GetOr(x.cooldownHours)
    ensures u.description.None? ==> y.description == x.description
    ensures u.maxPurchases.None? ==> y.maxPurchases == x.maxPurchases
    ensures u.requiredRole.None? ==> y.requiredRole == x.requiredRole
  {
    x.(name := u.name.GetOr(x.name), cost := u.cost.GetOr(x.cost), rewardType := u.rewardType.GetOr(x.rewardType),
       rewardValue := u.rewardValue.GetOr(x.rewardValue),
       description := if u.description.Some? then u.description else x.description,
       isActive := u.isActive.GetOr(x.isActive),
       maxPurchases := if u.maxPurchases.Some? then u.maxPurchases else x.maxPurchases,
       cooldownHours := u.cooldownHours.GetOr(x.cooldownHours),
       requiredRole := if u.requiredRole.Some? then u.requiredRole else x.requiredRole,
       updatedAt := now)
  }

  predicate NoFields(u: FM.RewardUpdate)
  {
    u.name.None? && u.cost.None? && u.rewardType.None? && u.rewardValue.None? && u.description.None?
    && u.isActive.None? && u.maxPurchases.None? && u.cooldownHours.None? && u.requiredRole.None?
  }

  /** Ids increase along the table and stay below the next id. */
  ghost predicate IdsAscending(rows: seq<Reward>, nextId: int)
  {
    && (forall i, j :: 0 <= i < j < |rows| ==> rows[i].id < rows[j].id)
    && (forall i :: 0 <= i < |rows| ==> rows[i].id < nextId)
  }

  // ---------------------------------------------------------------- manual fame adjustment

  /** A user's fame columns; the totals are nullable. */
  datatype FameAccount = FameAccount(fame: int, totalEarned: Option<int>, totalSpent: Option<int>, lastUpdate: Option<real>)

  /** The columns after an adjustment: fame moves by the amount but not below zero, a positive
      amount is added to the earned total and a negative one, as its absolute value, to the spent
      total; null totals are read as 0. */
  function Adjusted(a: FameAccount, amount: int, now: real): (b: FameAccount)
    ensures b.fame >= 0
    ensures a.fame + amount >= 0 ==> b.fame == a.fame + amount
    ensures a.fame + amount < 0 ==> b.fame == 0
    ensures amount > 0 ==> b.totalEarned == Some(a.totalEarned.GetOr(0) + amount) && b.totalSpent == Some(a.totalSpent.GetOr(0))
    ensures amount < 0 ==> b.totalSpent == Some(a.totalSpent.GetOr(0) - amount) && b.totalEarned == Some(a.totalEarned.GetOr(0))
    ensures amount == 0 ==> b.totalEarned == Some(a.totalEarned.GetOr(0)) && b.totalSpent == Some(a.totalSpent.GetOr(0))
    ensures b.lastUpdate == Some(now)
  {
    var fame := if 0 < a.fame + amount then a.fame + amount else 0;
    var earned := a.totalEarned.GetOr(0) + (if amount > 0 then amount else 0);
    var spent := a.totalSpent.GetOr(0) + (if amount < 0 then -amount else 0);
    FameAccount(fame, Some(earned), Some(spent), Some(now))
  }

  /** What has been earned minus what has been spent. */
  function Net(a: FameAccount): int
  {
    a.totalEarned.GetOr(0) - a.totalSpent.GetOr(0)
  }

  /** The totals follow the amount exactly, while the floor at zero makes fame drift from them
      by the part of a deduction that could not be taken. */
  lemma AdjustmentDrift(a: FameAccount, amount: int, now: real)
    ensures var b := Adjusted(a, amount, now);
      Net(b) == Net(a) + amount
      && b.fame - Net(b) == a.fame - Net(a) + (if a.fame + amount < 0 then -(a.fame + amount) else 0)
  {
  }

  /** So a balance that agrees with its totals keeps agreeing unless a deduction is clamped. */
  lemma LedgerKeptUnlessClamped(a: FameAccount, amount: int, now: real)
    requires a.fame == Net(a) && a.fame + amount >= 0
    ensures Adjusted(a, amount, now).fame == Net(Adjusted(a, amount, now))
  {
    AdjustmentDrift(a, amount, now);
  }

  /** Two deductions in a row take no more than the fame there was. */
  lemma DeductionsFloorAtZero(a: FameAccount, x: int, y: int, t1: real, t2: real)
    requires a.fame >= 0 && x <= 0 && y <= 0
    ensures 0 <= Adjusted(Adjusted(a, x, t1), y, t2).fame <= a.fame
  {
  }

  datatype AdjustReply = AdjustReply(userId: string, oldFame: int, newFame: int, adjustment: int, reason: string)

  class FameAdminStore {
    var rewards: seq<Reward>
    var nextRewardId: int
    var users: map<(string, string), FameAccount>

    ghost predicate Valid()
      reads this
    {
      IdsAscending(rewards, nextRewardId)
    }

    constructor ()
      ensures rewards == [] && nextRewardId == 1 && users == map[] && Valid()
    {
      rewards, nextRewardId, users := [], 1, map[];
    }

    /** create_fame_reward: 403 without access, 400 when the guild already has a reward of that
        name; otherwise the row is added with the next id, active, made by the caller. */
    method CreateFameReward(caller: ABR.Caller, guild: string, body: FM.RewardCreate, now: real)
      returns (r: Result<Reward, HttpError>)
      requires Valid()
      modifies this
      ensures Valid() && users == old(users)
      ensures r.Ok? <==> ABR.CheckGuildAccess(caller, guild).None? && !NameUsed(old(rewards), guild, body.name)
      ensures ABR.CheckGuildAccess(caller, guild).None? && NameUsed(old(rewards), guild, body.name) ==>
        r == Err(HttpError(400, "Reward name already exists in this guild"))
      ensures r.Err? ==> rewards == old(rewards) && nextRewardId == old(nextRewardId)
      ensures r.Ok? ==> && rewards == old(rewards) + [r.value] && nextRewardId == old(nextRewardId) + 1
                        && r.value == Reward(old(nextRewardId), guild, body.name, body.cost, body.rewardType,
                                             body.rewardValue, body.description, true, body.maxPurchases,
                                             body.cooldownHours, body.requiredRole, now, now, caller.userId)
    {
      var refusal := ABR.CheckGuildAccess(caller, guild);
      if refusal.Some? {
        return Err(refusal.value);
      }
      if NameUsed(rewards, guild, body.name) {
        return Err(HttpError(400, "Reward name already exists in this guild"));
      }
      var row := Reward(nextRewardId, guild, body.name, body.cost, body.rewardType, body.rewardValue, body.description,
                        true, body.maxPurchases, body.cooldownHours, body.requiredRole, now, now, caller.userId);
      rewards := rewards + [row];
      nextRewardId := nextRewardId + 1;
      r := Ok(row);
    }

    /** update_fame_reward: 403 without access, 404 for a reward of another guild or none; a body
        without fields writes nothing and returns the row as it is; otherwise the given fields
        are written. The new name is not checked against the guild's other rewards. */
    method UpdateFameReward(caller: ABR.Caller, guild: string, rewardId: int, u: FM.RewardUpdate, now: real)
      returns (r: Result<Reward, HttpError>)
      requires Valid()
      modifies this
      ensures Valid() && users == old(users) && nextRewardId == old(nextRewardId)
      ensures r.Ok? <==> ABR.CheckGuildAccess(caller, guild).None? && IndexOf(old(rewards), rewardId, guild).Some?
      ensures ABR.CheckGuildAccess(caller, guild).None? && IndexOf(old(rewards), rewardId, guild).None? ==>
        r == Err(HttpError(404, "Reward not found"))
      ensures r.Err? || NoFields(u) ==> rewards == old(rewards)
      ensures r.Ok? ==> var k := IndexOf(old(rewards), rewardId, guild).value;
        && (NoFields(u) ==> r.value == old(rewards)[k])
        && (!NoFields(u) ==> rewards == old(rewards)[k := Applied(old(rewards)[k], u, now)] && r.value == rewards[k])
    {
      var refusal := ABR.CheckGuildAccess(caller, guild);
      if refusal.Some? {
        return Err(refusal.value);
      }
      var k := IndexOf(rewards, rewardId, guild);
      if k.None? {
        return Err(HttpError(404, "Reward not found"));
      }
      if !NoFields(u) {
        rewards := rewards[k.value := Applied(rewards[k.value], u, now)];
      }
      r := Ok(rewards[k.value]);
    }

    /** delete_fame_reward: 403 without access, 404 for a reward of another guild or none;
        otherwise the row is removed. */
    method DeleteFameReward(caller: ABR.Caller, guild: string, rewardId: int) returns (r: Result<(), HttpError>)
      requires Valid()
      modifies this
      ensures Valid() && users == old(users) && nextRewardId == old(nextRewardId)
      ensures r.Ok? <==> ABR.CheckGuildAccess(caller, guild).None? && IndexOf(old(rewards), rewardId, guild).Some?
      ensures ABR.CheckGuildAccess(caller, guild).None? && IndexOf(old(rewards), rewardId, guild).None? ==>
        r == Err(HttpError(404, "Reward not found"))
      ensures r.Err? ==> rewards == old(rewards)
      ensures r.Ok? ==> var k := IndexOf(old(rewards), rewardId, guild).value;
        rewards == old(rewards)[..k] + old(rewards)[k + 1..]
      ensures r.Ok? ==> forall i :: 0 <= i < |rewards| ==> rewards[i].id != rewardId
    {
      var refusal := ABR.CheckGuildAccess(caller, guild);
      if refusal.Some? {
        return Err(refusal.value);
      }
      var k := IndexOf(rewards, rewardId, guild);
      if k.None? {
        return Err(HttpError(404, "Reward not found"));
      }
      RemovalKeepsIds(rewards, nextRewardId, k.value);
      rewards := rewards[..k.value] + rewards[k.value + 1..];
      r := Ok(());
    }

    /** adjust_fame_points: 403 without access, 404 when the user has no row in the guild (nothing
        is written); otherwise the user's columns are adjusted and the old and new fame returned. */
    method AdjustFamePoints(caller: ABR.Caller, guild: string, adj: FM.Adjustment, now: real)
      returns (r: Result<AdjustReply, HttpError>)
      modifies this
      ensures rewards == old(rewards) && nextRewardId == old(nextRewardId)
      ensures r.Ok? <==> ABR.CheckGuildAccess(caller, guild).None? && (adj.userId, guild) in old(users)
      ensures ABR.CheckGuildAccess(caller, guild).None? && (adj.userId, guild) !in old(users) ==>
        r == Err(HttpError(404, "User not found in this guild"))
      ensures r.Err? ==> users == old(users)
      ensures r.Ok? ==> var before := old(users)[(adj.userId, guild)];
        && users == old(users)[(adj.userId, guild) := Adjusted(before, adj.amount, now)]
        && r.value == AdjustReply(adj.userId, before.fame, users[(adj.userId, guild)].fame, adj.amount, adj.reason)
    {
      var refusal := ABR.CheckGuildAccess(caller, guild);
      if refusal.Some? {
        return Err(refusal.value);
      }
      if (adj.userId, guild) !in users {
        return Err(HttpError(404, "User not found in this guild"));
      }
      var before := users[(adj.userId, guild)];
      var after := Adjusted(before, adj.amount, now);
      users := users[(adj.userId, guild) := after];
      r := Ok(AdjustReply(adj.userId, before.fame, after.fame, adj.amount, adj.reason));
    }
  }

  /** The ids in a table that IdsAscending describes are unique, so a reward is found at exactly
      one place. */
  lemma IdsUnique(rows: seq<Reward>, nextId: int, i: int, j: int)
    requires IdsAscending(rows, nextId) && 0 <= i < |rows| && 0 <= j < |rows| && rows[i].id == rows[j].id
    ensures i == j
  {
  }

  /** Removing one row keeps the ids ascending and below the next id, and leaves no row with
      the removed id. */
  lemma RemovalKeepsIds(rows: seq<Reward>, nextId: int, k: nat)
    requires IdsAscending(rows, nextId) && k < |rows|
    ensures IdsAscending(rows[..k] + rows[k + 1..], nextId)
    ensures forall x :: x in rows[..k] + rows[k + 1..] ==> x.id != rows[k].id
  {
    var after := rows[..k] + rows[k + 1..];
    forall i | 0 <= i < |after| ensures after[i] == rows[if i < k then i else i + 1] {
    }
  }

  /** A name freed by deleting a reward can be used for a new one: after the delete, creating a
      reward of that name is refused only if another row of the guild has the name. */
  lemma DeleteFreesName(rows: seq<Reward>, k: nat, name: string)
    requires k < |rows| && rows[k].name == name
    requires forall i :: 0 <= i < |rows| && i != k ==> !(rows[i].guild == rows[k].guild && rows[i].name == name)
    ensures !NameUsed(rows[..k] + rows[k + 1..], rows[k].guild, name)
  {
    var after := rows[..k] + rows[k + 1..];
    forall j | 0 <= j < |after| ensures !(after[j].guild == rows[k].guild && after[j].name == name) {
      var j' := if j < k then j else j + 1;
      assert after[j] == rows[j'];
    }
  }
}
