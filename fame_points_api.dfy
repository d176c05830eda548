/** The admin panel's fame-points client when the server cannot be reached: the rewards live in
    an in-memory list that the create, update and delete calls change in place. The path where
    the server answers is not part of this model; the clock is a parameter. */
module FamePointsApi {
  import opened Wrappers

  /** A JavaScript number as the id arithmetic sees it: an integer, or -Infinity (what
      `Math.max()` of no arguments gives, and what adding one to it keeps). */
  datatype Num = Finite(n: int) | NegInfinity

  function Plus1(x: Num): (y: Num)
    ensures x.Finite? ==> y == Finite(x.n + 1)
    ensures x.NegInfinity? ==> y.NegInfinity?
  {
    match x
    case Finite(n) => Finite(n + 1)
    case NegInfinity => NegInfinity
  }

  function MaxNum(a: Num, b: Num): Num
  {
    if a.NegInfinity? then b
    else if b.NegInfinity? then a
    else if a.n >= b.n then a else b
  }

  datatype MockReward = MockReward(id: Num, guildId: string, fameAmount: int, description: string,
                                   value: string, isActive: bool, createdAt: string, updatedAt: string)

  /** FameRewardCreate. */
  datatype RewardCreate = RewardCreate(fameAmount: int, description: string, value: string, isActive: bool)

  /** FameRewardUpdate: every field may be omitted. */
  datatype RewardUpdate = RewardUpdate(fameAmount: Option<int>, description: Option<string>,
                                       value: Option<string>, isActive: Option<bool>)

  /** The fame amount, description and value of the six rewards the list starts with. */
  const SeedData: seq<(int, string, string)> := [
    (100, "🥉 Bronce Reward - Rol bronce por 1 mes", "{\"role_id\": \"123456\", \"duration\": 2628000}"),
    (250, "🥈 Plata Reward - Rifle de asalto AK-74", "{\"item_name\": \"AK-74\", \"quantity\": 1}"),
    (500, "🥇 Oro Reward - $50,000 en efectivo", "{\"amount\": 50000, \"currency\": \"dollars\"}"),
    (1000, "💎 Platino Reward - Vehículo Hatchback", "{\"vehicle\": \"Hatchback_01\", \"condition\": 100}"),
    (2500, "🏆 Diamante Reward - Acceso a base premium", "{\"type\": \"base_access\", \"location\": \"premium_base\"}"),
    (5000, "👑 Leyenda Reward - Privilegios admin por 1 semana", "{\"type\": \"admin_privileges\", \"duration\": 604800}")
  ]

  /** The six rewards the list starts with, ids 1 to 6, all active in guild 123456789, stamped
      with the time the client was loaded. */
  function SeedRewards(now: string): (rs: seq<MockReward>)
    ensures |rs| == 6
    ensures forall i :: 0 <= i < 6 ==> rs[i].id == Finite(i + 1) && rs[i].guildId == "123456789" && rs[i].isActive
  {
    seq(6, i requires 0 <= i < 6 =>
      MockReward(Finite(i + 1), "123456789", SeedData[i].0, SeedData[i].1, SeedData[i].2, true, now, now))
  }

  /** The rewards of one guild, in list order. */
  function OfGuild(rs: seq<MockReward>, guild: string): (r: seq<MockReward>)
    ensures |r| <= |rs|
    ensures forall x :: x in r <==> x in rs && x.guildId == guild
  {
    if rs == [] then []
    else (if rs[0].guildId == guild then [rs[0]] else []) + OfGuild(rs[1..], guild)
  }

  /** `Math.max(...ids)`: -Infinity for no ids, otherwise the largest. */
  function MaxId(rs: seq<MockReward>): (m: Num)
    ensures rs == [] ==> m.NegInfinity?
    ensures forall i :: 0 <= i < |rs| && rs[i].id.Finite? ==> m.Finite? && rs[i].id.n <= m.n
    ensures m.Finite? ==> exists i :: 0 <= i < |rs| && rs[i].id == m
  {
    if rs == [] then NegInfinity else MaxNum(rs[0].id, MaxId(rs[1..]))
  }

  /** The id the corrected create hands out: one more than the largest finite id, and at least 1. */
  function NextId(rs: seq<MockReward>): (n: int)
    ensures n >= 1
    ensures forall i :: 0 <= i < |rs| && rs[i].id.Finite? ==> rs[i].id.n < n
  {
    var m := MaxId(rs);
    if m.Finite? && m.n >= 0 then m.n + 1 else 1
  }

  /** `findIndex` of the reward with that id in that guild: the first match, or None. The id is
      the number the page passes, a reward's own id, so it may be -Infinity, which `===` equates
      with itself. */
  function FindIndex(rs: seq<MockReward>, id: Num, guild: string): (k: Option<nat>)
    ensures k.Some? ==> k.value < |rs| && rs[k.value].id == id && rs[k.value].guildId == guild
    ensures k.Some? ==> forall j :: 0 <= j < k.value ==> !(rs[j].id == id && rs[j].guildId == guild)
    ensures k.None? <==> forall j :: 0 <= j < |rs| ==> !(rs[j].id == id && rs[j].guildId == guild)
  {
    if rs == [] then None
    else if rs[0].id == id && rs[0].guildId == guild then Some(0)
    else
      var k := FindIndex(rs[1..], id, guild);
      if k.Some? then Some(k.value + 1) else None
  }

  /** `{...old, ...patch, updated_at}`: the sent fields replace the old ones. */
  function Merged(x: MockReward, u: RewardUpdate, now: string): (y: MockReward)
    ensures y.id == x.id && y.guildId == x.guildId && y.createdAt == x.createdAt && y.updatedAt == now
    ensures y.fameAmount == (if u.fameAmount.Some? then u.fameAmount.value else x.fameAmount)
    ensures y.description == (if u.description.Some? then u.description.value else x.description)
    ensures y.value == (if u.value.Some? then u.value.value else x.value)
    ensures y.isActive == (if u.isActive.Some? then u.isActive.value else x.isActive)
  {
    x.(fameAmount := u.fameAmount.GetOr(x.fameAmount), description := u.description.GetOr(x.description),
       value := u.value.GetOr(x.value), isActive := u.isActive.GetOr(x.isActive), updatedAt := now)
  }

  /** No two rewards of a guild share an id. */
  ghost predicate IdsUnique(rs: seq<MockReward>)
  {
    forall i, j :: 0 <= i < j < |rs| && rs[i].id == rs[j].id ==> rs[i].guildId != rs[j].guildId
  }

  class MockRewardStore {
    var rewards: seq<MockReward>

    constructor (now: string)
      ensures rewards == SeedRewards(now)
    {
      rewards := SeedRewards(now);
    }

    /** getRewards: exactly the rewards of the guild, in list order. */
    function GetRewards(guild: string): (rs: seq<MockReward>)
      reads this
      ensures forall x :: x in rs <==> x in rewards && x.guildId == guild
      ensures |rs| <= |rewards|
    {
      OfGuild(rewards, guild)
    }

    /** createReward as written: the id is `Math.max(...ids) + 1`, which is -Infinity once the
        list is empty. */
    method CreateRewardAsWritten(guild: string, body: RewardCreate, now: string) returns (r: MockReward)
      modifies this
      ensures r == MockReward(Plus1(MaxId(old(rewards))), guild, body.fameAmount, body.description,
                              body.value, body.isActive, now, now)
      ensures rewards == old(rewards) + [r]
    {
      r := MockReward(Plus1(MaxId(rewards)), guild, body.fameAmount, body.description, body.value, body.isActive, now, now);
      rewards := rewards + [r];
    }

    /** createReward with the id computed as `Math.max(0, ...ids) + 1`: an integer above every id
        in the list, so the new reward is the only one with it. */
    method CreateReward(guild: string, body: RewardCreate, now: string) returns (r: MockReward)
      modifies this
      ensures r == MockReward(Finite(NextId(old(rewards))), guild, body.fameAmount, body.description,
                              body.value, body.isActive, now, now)
      ensures rewards == old(rewards) + [r]
      ensures forall i :: 0 <= i < |old(rewards)| ==> old(rewards)[i].id != r.id
      ensures IdsUnique(old(rewards)) ==> IdsUnique(rewards)
    {
      r := MockReward(Finite(NextId(rewards)), guild, body.fameAmount, body.description, body.value, body.isActive, now, now);
      rewards := rewards + [r];
    }

    /** updateReward: the first reward with that id in that guild is merged with the sent fields
        and stamped; with no such reward "Reward not found" is thrown and nothing changes. */
    method UpdateReward(guild: string, id: Num, u: RewardUpdate, now: string) returns (res: Result<MockReward, string>)
      modifies this
      ensures FindIndex(old(rewards), id, guild).None? ==> res == Err("Reward not found") && rewards == old(rewards)
      ensures FindIndex(old(rewards), id, guild).Some? ==>
        var k := FindIndex(old(rewards), id, guild).value;
        && res == Ok(Merged(old(rewards)[k], u, now))
        && rewards == old(rewards)[k := res.value]
    {
      var k := FindIndex(rewards, id, guild);
      if k.None? {
        return Err("Reward not found");
      }
      var y := Merged(rewards[k.value], u, now);
      rewards := rewards[k.value := y];
      res := Ok(y);
    }

    /** deleteReward: the first reward with that id in that guild is spliced out; with none,
        nothing changes. */
    method DeleteReward(guild: string, id: Num)
      modifies this
      ensures FindIndex(old(rewards), id, guild).None? ==> rewards == old(rewards)
      ensures FindIndex(old(rewards), id, guild).Some? ==>
        var k := FindIndex(old(rewards), id, guild).value;
        rewards == old(rewards)[..k] + old(rewards)[k + 1..]
      ensures IdsUnique(old(rewards)) ==> FindIndex(rewards, id, guild).None? && IdsUnique(rewards)
    {
      var k := FindIndex(rewards, id, guild);
      if k.Some? {
        ghost var before := rewards;
        rewards := rewards[..k.value] + rewards[k.value + 1..];
        if IdsUnique(before) {
          forall j | 0 <= j < |rewards|
            ensures !(rewards[j].id == id && rewards[j].guildId == guild)
          {
            if j < k.value { assert rewards[j] == before[j]; } else { assert rewards[j] == before[j + 1]; }
          }
        }
      }
    }
  }

  /** A reward just created is in its guild's list. */
  lemma CreatedIsListed(rs: seq<MockReward>, r: MockReward)
    ensures r in OfGuild(rs + [r], r.guildId)
  {
  }

  /** With the corrected id, the reward just created is the one update and delete find. */
  lemma {:induction false} CreatedIsFound(rs: seq<MockReward>, guild: string, body: RewardCreate, now: string)
    ensures var r := MockReward(Finite(NextId(rs)), guild, body.fameAmount, body.description, body.value,
                                body.isActive, now, now);
            FindIndex(rs + [r], Finite(NextId(rs)), guild) == Some(|rs|)
  {
    var r := MockReward(Finite(NextId(rs)), guild, body.fameAmount, body.description, body.value, body.isActive, now, now);
    var all := rs + [r];
    assert all[|rs|] == r;
    assert forall j :: 0 <= j < |rs| ==> all[j] == rs[j];
  }

  /** As written, once every reward has been deleted the next reward gets id -Infinity, and so
      does every reward created after it. Updating or deleting one of them passes that id, which
      finds the first -Infinity reward of the guild: the new reward itself only when it is the
      guild's first, otherwise an earlier one. */
  lemma {:induction false} EmptiedListHitsFirst(rs: seq<MockReward>, guild: string, body: RewardCreate, now: string)
    requires forall i :: 0 <= i < |rs| ==> rs[i].id.NegInfinity?
    ensures var r := MockReward(Plus1(MaxId(rs)), guild, body.fameAmount, body.description, body.value,
                                body.isActive, now, now);
            && r.id.NegInfinity?
            && FindIndex(rs + [r], r.id, guild).Some?
            && (FindIndex(rs + [r], r.id, guild) == Some(|rs|) <==> forall j :: 0 <= j < |rs| ==> rs[j].guildId != guild)
  {
    var r := MockReward(Plus1(MaxId(rs)), guild, body.fameAmount, body.description, body.value, body.isActive, now, now);
    assert MaxId(rs).NegInfinity?;
    var all := rs + [r];
    assert all[|rs|] == r;
    assert forall j :: 0 <= j < |rs| ==> all[j] == rs[j];
  }

  /** While the list holds an entry with a non-negative integer id and nothing else, the code as
      written and the corrected id agree. */
  lemma {:induction false} AsWrittenAgreesWhileNonEmpty(rs: seq<MockReward>)
    requires |rs| > 0 && forall i :: 0 <= i < |rs| ==> rs[i].id.Finite? && rs[i].id.n >= 0
    ensures Plus1(MaxId(rs)) == Finite(NextId(rs))
  {
    assert rs[0].id.Finite?;
  }
}
