/** The fame-rewards cog: parsing the values an admin types into /fame_config, the medal ranking
    shown on the panel, and the in-memory cache of reward descriptions in front of the
    database. */
module FameRewardsSystem {
  import opened Wrappers
  import opened Text
  import FRD = FameRewardsDatabase

  // ---------------------------------------------------------------- /fame_config

  const MaxFameValues: nat := 25

  /** int(item.strip()) for each item; None where int() raises. */
  function Parsed(items: seq<string>): (r: seq<Option<int>>)
    ensures |r| == |items| && forall k :: 0 <= k < |items| ==> r[k] == ParseInt(Strip(items[k]))
  {
    seq(|items|, k requires 0 <= k < |items| => ParseInt(Strip(items[k])))
  }

  /** The values the parse loop keeps from the parsed items: those above zero, in input order. */
  function Kept(os: seq<Option<int>>): (r: seq<int>)
    ensures forall k :: 0 <= k < |r| ==> r[k] > 0
    ensures |r| <= |os|
  {
    if os == [] then []
    else
      var rest := Kept(os[..|os| - 1]);
      var v := os[|os| - 1];
      if v.Some? && v.value > 0 then rest + [v.value] else rest
  }

  function ValidValues(items: seq<string>): seq<int>
  {
    Kept(Parsed(items))
  }

  /** Every kept value is the parse of some item. */
  lemma {:induction false} KeptFromItems(os: seq<Option<int>>, k: int)
    requires 0 <= k < |Kept(os)|
    ensures exists j :: 0 <= j < |os| && os[j] == Some(Kept(os)[k])
  {
    var n := |os|;
    var init := os[..n - 1];
    var rest := Kept(init);
    if k < |rest| {
      KeptFromItems(init, k);
      var j :| 0 <= j < |init| && init[j] == Some(rest[k]);
      assert os[j] == init[j];
    } else {
      assert os[n - 1] == Some(Kept(os)[k]);
    }
  }

  /** Every positive parsed item is kept. */
  lemma {:induction false} KeptHasPositives(os: seq<Option<int>>, j: int)
    requires 0 <= j < |os| && os[j].Some? && os[j].value > 0
    ensures os[j].value in Kept(os)
  {
    var n := |os|;
    if j < n - 1 {
      var init := os[..n - 1];
      assert init[j] == os[j];
      KeptHasPositives(init, j);
    }
  }

  /** The kept values are exactly the positive integers among the items. */
  lemma ValidValuesMembers(items: seq<string>, v: int)
    ensures v in ValidValues(items) <==>
      v > 0 && exists j :: 0 <= j < |items| && ParseInt(Strip(items[j])) == Some(v)
  {
    var os := Parsed(items);
    if v in ValidValues(items) {
      var k :| 0 <= k < |Kept(os)| && Kept(os)[k] == v;
      KeptFromItems(os, k);
    }
    if v > 0 && exists j :: 0 <= j < |items| && ParseInt(Strip(items[j])) == Some(v) {
      var j :| 0 <= j < |items| && ParseInt(Strip(items[j])) == Some(v);
      KeptHasPositives(os, j);
    }
  }

  /** The parse loop of configure_fame_values. */
  method ParseFameValues(values: string) returns (fame: seq<int>)
    ensures fame == ValidValues(Split(values, ','))
  {
    var items := Split(values, ',');
    ghost var os := Parsed(items);
    fame := [];
    var i := 0;
    while i < |items|
      invariant 0 <= i <= |items|
      invariant fame == Kept(os[..i])
    {
      assert os[..i + 1][..i] == os[..i];
      var v := ParseInt(Strip(items[i]));
      if v.Some? && v.value > 0 {
        fame := fame + [v.value];
      }
      i := i + 1;
    }
    assert os[..i] == os;
  }

  predicate Ascending(s: seq<int>)
  {
    forall i, j :: 0 <= i < j < |s| ==> s[i] <= s[j]
  }

  function InsertInt(x: int, s: seq<int>): (r: seq<int>)
    ensures multiset(r) == multiset(s) + multiset{x}
  {
    if s == [] then [x]
    else if x <= s[0] then [x] + s
    else
      assert s == [s[0]] + s[1..];
      [s[0]] + InsertInt(x, s[1..])
  }

  lemma {:induction false} InsertIntAscending(x: int, s: seq<int>)
    requires Ascending(s)
    ensures Ascending(InsertInt(x, s))
  {
    if s != [] && x > s[0] {
      InsertIntAscending(x, s[1..]);
      var tail := InsertInt(x, s[1..]);
      forall j | 0 <= j < |tail| ensures s[0] <= tail[j] {
        assert tail[j] in multiset(tail);
        if tail[j] != x {
          assert tail[j] in multiset(s[1..]);
        }
      }
    }
  }

  /** list.sort() on integers. */
  function SortInts(s: seq<int>): (r: seq<int>)
    ensures Ascending(r) && multiset(r) == multiset(s)
  {
    if s == [] then []
    else
      assert s == s[..|s| - 1] + [s[|s| - 1]];
      InsertIntAscending(s[|s| - 1], SortInts(s[..|s| - 1]));
      InsertInt(s[|s| - 1], SortInts(s[..|s| - 1]))
  }

  /** The list /fame_config stores: the first 25 valid values, sorted ascending. */
  function ConfiguredValues(values: string): (r: Option<seq<int>>)
    ensures r.None? <==> ValidValues(Split(values, ',')) == []
    ensures r.Some? ==> Ascending(r.value) && 1 <= |r.value| <= MaxFameValues
    ensures r.Some? ==> var valid := ValidValues(Split(values, ','));
      multiset(r.value) == multiset(if |valid| <= MaxFameValues then valid else valid[..MaxFameValues])
  {
    var valid := ValidValues(Split(values, ','));
    if valid == [] then None
    else
      var kept := if |valid| <= MaxFameValues then valid else valid[..MaxFameValues];
      var r := SortInts(kept);
      assert |r| == |multiset(r)| == |kept|;
      Some(r)
  }

  /** Every stored value is positive. */
  lemma ConfiguredValuesPositive(values: string, k: int)
    requires ConfiguredValues(values).Some? && 0 <= k < |ConfiguredValues(values).value|
    ensures ConfiguredValues(values).value[k] > 0
  {
    var valid := ValidValues(Split(values, ','));
    var kept := if |valid| <= MaxFameValues then valid else valid[..MaxFameValues];
    var r := ConfiguredValues(values).value;
    assert r[k] in multiset(r);
    assert r[k] in multiset(kept);
  }

  /** configure_fame_values after the permission check: input without a valid value is refused
      and nothing is stored; otherwise the kept values are stored for the guild, where
      get_fame_config reads them back. */
  method ConfigureFameValues(store: FRD.FameStore, guild: string, values: string) returns (r: Result<seq<int>, string>)
    modifies store
    ensures r.Err? <==> ConfiguredValues(values).None?
    ensures r.Err? ==> store.configs == old(store.configs)
    ensures r.Ok? ==> r.value == ConfiguredValues(values).value
    ensures r.Ok? ==> store.configs == old(store.configs)[guild := FRD.JoinConfig(r.value)]
    ensures r.Ok? ==> store.GetFameConfig(guild) == Some(r.value)
    ensures store.claims == old(store.claims)
  {
    var fame := ParseFameValues(values);
    if fame == [] {
      return Err("Debes proporcionar al menos un valor numérico válido.");
    }
    if |fame| > MaxFameValues {
      fame := fame[..MaxFameValues];
    }
    var sorted := SortInts(fame);
    store.SetFameConfig(guild, sorted);
    r := Ok(sorted);
  }

  // ---------------------------------------------------------------- the ranking field

  /** One row of the top list as the panel shows it; the thousands-separated amount and the
      formatted date are given as text. */
  datatype RankEntry = RankEntry(ingameName: Option<string>, fameText: string, dateText: string)

  const FieldLimit: nat := 1024
  const UnknownName: string := "Nombre InGame Desconocido"
  const NoClaimsText: string := "*Aún no hay reclamaciones confirmadas. ¡Sé el primero!*"

  /** The medal of the i-th place (from 0): gold, silver and bronze, then 🏅. */
  function Medal(i: nat): (m: string)
    ensures i == 0 ==> m == "🥇"
    ensures i == 1 ==> m == "🥈"
    ensures i == 2 ==> m == "🥉"
    ensures i >= 3 ==> m == "🏅"
  {
    var medals := ["🥇", "🥈", "🥉"] + seq(7, _ => "🏅");
    if i < |medals| then medals[i] else "🏅"
  }

  function RankLine(i: nat, e: RankEntry): string
  {
    Medal(i) + " **" + e.ingameName.GetOr(UnknownName) + "** - " + e.fameText + " FP (" + e.dateText + ")\n"
  }

  /** The ranking text before the cut: one line per entry, numbered from the first. */
  function RankingText(entries: seq<RankEntry>): string
  {
    if entries == [] then ""
    else RankingText(entries[..|entries| - 1]) + RankLine(|entries| - 1, entries[|entries| - 1])
  }

  /** The loop that builds the ranking text. */
  method BuildRankingText(entries: seq<RankEntry>) returns (text: string)
    ensures text == RankingText(entries)
  {
    text := "";
    for i := 0 to |entries|
      invariant text == RankingText(entries[..i])
    {
      assert entries[..i + 1][..i] == entries[..i];
      text := text + RankLine(i, entries[i]);
    }
    assert entries[..|entries|] == entries;
  }

  /** The panel field: the ranking cut to Discord's 1024 characters, or the no-claims notice. */
  function RankingField(entries: seq<RankEntry>): (f: string)
    ensures |f| <= FieldLimit
    ensures entries == [] ==> f == NoClaimsText
    ensures entries != [] ==> |f| <= |RankingText(entries)| && f == RankingText(entries)[..|f|]
    ensures entries != [] && |RankingText(entries)| <= FieldLimit ==> f == RankingText(entries)
  {
    if entries == [] then NoClaimsText
    else
      var t := RankingText(entries);
      if |t| <= FieldLimit then t else t[..FieldLimit]
  }

  /** The text of a longer list starts with the text of the shorter one: adding a place never
      changes the lines above it. */
  lemma {:induction false} RankingTextGrows(entries: seq<RankEntry>, n: nat)
    requires n <= |entries|
    ensures RankingText(entries[..n]) <= RankingText(entries)
  {
    if n == |entries| {
      assert entries[..n] == entries;
    } else {
      var init := entries[..|entries| - 1];
      assert init[..n] == entries[..n];
      RankingTextGrows(init, n);
      var a := RankingText(entries[..n]);
      var b := RankingText(init);
      var c := RankingText(entries);
      assert c == b + RankLine(|init|, entries[|init|]);
      assert a == b[..|a|];
      assert a == c[..|a|];
    }
  }

  // ---------------------------------------------------------------- rewards cache

  /** The built-in reward descriptions. */
  function DefaultRewards(): (d: map<string, string>)
    ensures d.Keys == {"100", "500", "1000", "2000", "5000", "10000", "15000"}
  {
    map["100" := "🎒 Kit de Supervivencia Básico",
        "500" := "🔫 Set de Armas Avanzadas",
        "1000" := "🛡️ Armadura Completa Nivel 3",
        "2000" := "🚗 Vehículo Premium",
        "5000" := "🏠 Base Fortificada",
        "10000" := "👑 Título VIP por 30 días",
        "15000" := "💎 Recompensa Épica Personalizada"]
  }

  /** get_rewards_config given what the database call produced (None: it raised): a read is
      cached and returned; on failure the cached value, else the built-in one. */
  function GetStep(cache: map<string, map<string, string>>, guild: string, fromDb: Option<map<string, string>>)
    : (r: (map<string, string>, map<string, map<string, string>>))
    ensures fromDb.Some? ==> r.0 == fromDb.value && r.1 == cache[guild := fromDb.value]
    ensures fromDb.None? ==> r.1 == cache && r.0 == (if guild in cache then cache[guild] else DefaultRewards())
  {
    if fromDb.Some? then (fromDb.value, cache[guild := fromDb.value])
    else (if guild in cache then cache[guild] else DefaultRewards(), cache)
  }

  /** save_rewards_config given the database call's outcome (None: it raised): the cache is
      updated only when the database reports success. */
  function SaveStep(cache: map<string, map<string, string>>, guild: string, config: map<string, string>,
                    saved: Option<bool>): (r: (bool, map<string, map<string, string>>))
    ensures r.0 <==> saved == Some(true)
    ensures r.0 ==> r.1 == cache[guild := config]
    ensures !r.0 ==> r.1 == cache
  {
    if saved == Some(true) then (true, cache[guild := config]) else (false, cache)
  }

  class RewardsCache {
    var rewardsConfigs: map<string, map<string, string>>

    constructor ()
      ensures rewardsConfigs == map[]
    {
      rewardsConfigs := map[];
    }

    method GetRewardsConfig(guild: string, fromDb: Option<map<string, string>>) returns (r: map<string, string>)
      modifies this
      ensures (r, rewardsConfigs) == GetStep(old(rewardsConfigs), guild, fromDb)
    {
      var step := GetStep(rewardsConfigs, guild, fromDb);
      r, rewardsConfigs := step.0, step.1;
    }

    method SaveRewardsConfig(guild: string, config: map<string, string>, saved: Option<bool>) returns (ok: bool)
      modifies this
      ensures (ok, rewardsConfigs) == SaveStep(old(rewardsConfigs), guild, config, saved)
    {
      var step := SaveStep(rewardsConfigs, guild, config, saved);
      ok, rewardsConfigs := step.0, step.1;
    }
  }

  datatype RewardsOp = Save(guild: string, config: map<string, string>) | Get(guild: string)

  /** The cache after a run of calls as the cog is written: the database class it calls has no
      get_rewards_config or save_rewards_config, so every such call raises. */
  function RunAsWritten(cache: map<string, map<string, string>>, ops: seq<RewardsOp>): map<string, map<string, string>>
  {
    if ops == [] then cache
    else
      var before := RunAsWritten(cache, ops[..|ops| - 1]);
      var op := ops[|ops| - 1];
      match op
      case Save(g, c) => SaveStep(before, g, c, None).1
      case Get(g) => GetStep(before, g, None).1
  }

  /** As written, whatever is saved, the cache stays empty, every save reports failure and every
      read answers the built-in rewards. */
  lemma {:induction false} RewardsNeverSaved(ops: seq<RewardsOp>, guild: string, config: map<string, string>)
    ensures RunAsWritten(map[], ops) == map[]
    ensures !SaveStep(RunAsWritten(map[], ops), guild, config, None).0
    ensures GetStep(RunAsWritten(map[], ops), guild, None).0 == DefaultRewards()
  {
    if ops != [] {
      RewardsNeverSaved(ops[..|ops| - 1], guild, config);
    }
  }

  /** The evidently intended store: a rewards table the two calls write and read, with the cache
      in front of it. */
  function RunIntended(db: map<string, map<string, string>>, cache: map<string, map<string, string>>,
                       ops: seq<RewardsOp>): (r: (map<string, map<string, string>>, map<string, map<string, string>>))
    ensures r.1.Keys <= cache.Keys + r.0.Keys
  {
    if ops == [] then (db, cache)
    else
      var before := RunIntended(db, cache, ops[..|ops| - 1]);
      var op := ops[|ops| - 1];
      match op
      case Save(g, c) => (before.0[g := c], SaveStep(before.1, g, c, Some(true)).1)
      case Get(g) =>
        var fromDb := if g in before.0 then Some(before.0[g]) else None;
        (before.0, GetStep(before.1, g, fromDb).1)
  }

  /** What a read answers in the intended store. */
  function IntendedGet(db: map<string, map<string, string>>, cache: map<string, map<string, string>>, guild: string)
    : map<string, string>
  {
    GetStep(cache, guild, if guild in db then Some(db[guild]) else None).0
  }

  /** In the intended store the table keeps a saved value until the same guild saves again. */
  lemma {:induction false} TableKeepsSaved(db: map<string, map<string, string>>, cache: map<string, map<string, string>>,
                                           ops: seq<RewardsOp>, guild: string, config: map<string, string>)
    requires |ops| >= 1 && ops[0] == Save(guild, config)
    requires forall k :: 1 <= k < |ops| ==> ops[k].Get? || ops[k].guild != guild
    ensures var s := RunIntended(db, cache, ops); guild in s.0 && s.0[guild] == config
  {
    if |ops| == 1 {
      assert ops[..0] == [];
    } else {
      var init := ops[..|ops| - 1];
      assert init[0] == ops[0];
      forall k | 1 <= k < |init| ensures init[k].Get? || init[k].guild != guild {
        assert init[k] == ops[k];
      }
      TableKeepsSaved(db, cache, init, guild, config);
    }
  }

  /** So a read after a save of the same guild answers what was saved, however many calls for
      other guilds, or reads, come between. */
  lemma SavedRewardsAreRead(db: map<string, map<string, string>>, cache: map<string, map<string, string>>,
                            ops: seq<RewardsOp>, guild: string, config: map<string, string>)
    requires |ops| >= 1 && ops[0] == Save(guild, config)
    requires forall k :: 1 <= k < |ops| ==> ops[k].Get? || ops[k].guild != guild
    ensures var s := RunIntended(db, cache, ops); IntendedGet(s.0, s.1, guild) == config
  {
    TableKeepsSaved(db, cache, ops, guild, config);
  }
}
