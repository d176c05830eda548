/** The bridge between the admin panel and the bot: per-guild settings stored as tagged text,
    and reload triggers the bot polls for. The two tables are fields of the bridge; the clock is
    a parameter. */
module BotBridge {
  import opened Wrappers
  import opened Text

  datatype TriggerType =
    | ConfigReload | FameRewardsUpdate | TaxiConfigUpdate | BankingConfigUpdate
    | MechanicConfigUpdate | UserPermissionUpdate | SystemMaintenance

  function TriggerValue(t: TriggerType): string
  {
    match t
    case ConfigReload => "config_reload"
    case FameRewardsUpdate => "fame_rewards_update"
    case TaxiConfigUpdate => "taxi_config_update"
    case BankingConfigUpdate => "banking_config_update"
    case MechanicConfigUpdate => "mechanic_config_update"
    case UserPermissionUpdate => "user_permission_update"
    case SystemMaintenance => "system_maintenance"
  }

  /** A setting's value as the caller hands it over. A dict or list travels as its JSON text;
      `Other` is any further value (a float, None, ...) together with what str() makes of it. */
  datatype ConfigValue = BoolV(b: bool) | IntV(i: int) | JsonV(doc: string) | StrV(s: string) | Other(shown: string)

  /** A row of the settings table: the text, its type tag, and who wrote it. */
  datatype StoredValue = StoredValue(value: string, configType: string)
  datatype ConfigEntry = ConfigEntry(stored: StoredValue, updatedBy: string)

  /** The tagging of update_guild_bot_config: a bool is checked for before an int and stored as
      "true"/"false"; an int as its digits; a dict or list as JSON; anything else as a string. */
  function Encode(v: ConfigValue): (s: StoredValue)
    ensures v.BoolV? ==> s == StoredValue(if v.b then "true" else "false", "boolean")
    ensures v.IntV? ==> s.configType == "integer" && ParseInt(s.value) == Some(v.i)
    ensures v.JsonV? ==> s == StoredValue(v.doc, "json")
    ensures v.StrV? || v.Other? ==> s.configType == "string"
  {
    match v
    case BoolV(b) => StoredValue(if b then "true" else "false", "boolean")
    case IntV(i) => ParseIntOfString(i); StoredValue(IntToString(i), "integer")
    case JsonV(doc) => StoredValue(doc, "json")
    case StrV(s) => StoredValue(s, "string")
    case Other(shown) => StoredValue(shown, "string")
  }

  /** The decoding of get_guild_bot_config: JSON back to its document, an integer through int()
      (which may raise ValueError), a boolean as "is it 'true' in any case", and any other tag
      returned as its text. */
  function Decode(s: StoredValue): (r: Result<ConfigValue, PyError>)
    ensures s.configType == "integer" ==> (r.Ok? <==> ParseInt(s.value).Some?)
    ensures s.configType == "integer" && r.Ok? ==> r.value == IntV(ParseInt(s.value).value)
    ensures s.configType != "integer" ==> r.Ok?
    ensures s.configType == "boolean" ==> r.Ok? && r.value.BoolV?
    ensures s.configType == "boolean" && !(|s.value| == 4 && Lower(s.value[0]) == 't') ==> r == Ok(BoolV(false))
    ensures s.configType !in {"json", "integer", "boolean"} ==> r == Ok(StrV(s.value))
  {
    if s.configType == "json" then Ok(JsonV(s.value))
    else if s.configType == "integer" then
      var n := ParseInt(s.value);
      if n.Some? then Ok(IntV(n.value)) else Err(ValueError)
    else if s.configType == "boolean" then Ok(BoolV(ToLower(s.value) == "true"))
    else Ok(StrV(s.value))
  }

  /** What a value reads back as: itself, except that a value stored through str() reads back
      as that string. */
  function ReadBack(v: ConfigValue): ConfigValue
  {
    if v.Other? then StrV(v.shown) else v
  }

  /** A bool, an int, a JSON document or a string written and read back is the same value; any
      other value comes back as its string. */
  lemma RoundTrip(v: ConfigValue)
    ensures Decode(Encode(v)) == Ok(ReadBack(v))
  {
    if v.BoolV? {
      assert ToLower("true") == "true";
      assert ToLower("false") != "true";
    }
  }

  /** The settings of one guild, every row decoded, keyed by setting name. */
  function GuildConfig(table: map<(string, string), ConfigEntry>, guild: string): (m: map<string, ConfigValue>)
    requires AllDecode(table, guild)
    ensures forall key :: key in m <==> (guild, key) in table
  {
    map key | key in KeysOf(table, guild) :: Decode(table[(guild, key)].stored).value
  }

  function KeysOf(table: map<(string, string), ConfigEntry>, guild: string): (ks: set<string>)
    ensures forall key :: key in ks <==> (guild, key) in table
  {
    set p | p in table && p.0 == guild :: p.1
  }

  predicate AllDecode(table: map<(string, string), ConfigEntry>, guild: string)
  {
    forall key :: key in KeysOf(table, guild) ==> Decode(table[(guild, key)].stored).Ok?
  }

  /** After an update every earlier setting of the guild still decodes and the new one reads back
      as written, so a fetch right after an update sees it. */
  lemma WriteThenRead(table: map<(string, string), ConfigEntry>, guild: string, key: string, v: ConfigValue, user: string)
    requires AllDecode(table, guild)
    ensures var t := table[(guild, key) := ConfigEntry(Encode(v), user)];
      AllDecode(t, guild) && key in GuildConfig(t, guild) && GuildConfig(t, guild)[key] == ReadBack(v)
  {
    var t := table[(guild, key) := ConfigEntry(Encode(v), user)];
    RoundTrip(v);
    forall k | k in KeysOf(t, guild) ensures Decode(t[(guild, k)].stored).Ok? {
      if k != key { assert k in KeysOf(table, guild); }
    }
  }

  /** A row of admin_bot_triggers; `data` is the JSON object of the trigger as key/value text. */
  datatype Trigger = Trigger(id: string, triggerType: TriggerType, guild: string, data: map<string, string>,
                             createdAt: string, processed: bool)

  /** "<guild>_<type>_<whole seconds>". */
  function TriggerId(guild: string, t: TriggerType, seconds: int): (id: string)
    ensures |id| > |guild| + |TriggerValue(t)| + 2
  {
    guild + "_" + TriggerValue(t) + "_" + IntToString(seconds)
  }

  /** For one guild and type, the trigger id determines the second it was made in: two triggers
      of the same guild and type collide exactly when they fall in the same second. */
  lemma TriggerIdFixesSecond(guild: string, t: TriggerType, a: int, b: int)
    ensures TriggerId(guild, t, a) == TriggerId(guild, t, b) <==> a == b
  {
    var p := guild + "_" + TriggerValue(t) + "_";
    if TriggerId(guild, t, a) == TriggerId(guild, t, b) {
      assert TriggerId(guild, t, a)[|p|..] == IntToString(a);
      assert TriggerId(guild, t, b)[|p|..] == IntToString(b);
      ParseIntOfString(a);
      ParseIntOfString(b);
    }
  }

  predicate IdUsed(triggers: seq<Trigger>, id: string)
  {
    exists i :: 0 <= i < |triggers| && triggers[i].id == id
  }

  class Bridge {
    /** admin_bot_config, keyed by (guild, setting). The table has no unique key on that pair, so
        INSERT OR REPLACE adds a row per write; the read loop, reading in table order, keeps the
        last row of each setting, the last written, which is what this map holds. */
    var config: map<(string, string), ConfigEntry>
    /** admin_bot_triggers, in insertion order. */
    var triggers: seq<Trigger>

    /** No two triggers share an id: the table's primary key. */
    ghost predicate Valid()
      reads this
    {
      forall i, j :: 0 <= i < j < |triggers| ==> triggers[i].id != triggers[j].id
    }

    constructor ()
      ensures config == map[] && triggers == [] && Valid()
    {
      config, triggers := map[], [];
    }

    /** trigger_bot_reload: one unprocessed trigger with the id of this guild, type and second;
        a second trigger with that id is refused by the primary key and the call answers false. */
    method TriggerBotReload(t: TriggerType, guild: string, data: Option<map<string, string>>, seconds: int, nowIso: string)
      returns (ok: bool)
      requires Valid()
      modifies this
      ensures Valid() && config == old(config)
      ensures ok <==> !IdUsed(old(triggers), TriggerId(guild, t, seconds))
      ensures ok ==> triggers == old(triggers) + [Trigger(TriggerId(guild, t, seconds), t, guild,
                                                          data.GetOr(map[]), nowIso, false)]
      ensures !ok ==> triggers == old(triggers)
    {
      var id := TriggerId(guild, t, seconds);
      var i := 0;
      while i < |triggers|
        invariant 0 <= i <= |triggers|
        invariant forall j :: 0 <= j < i ==> triggers[j].id != id
      {
        if triggers[i].id == id {
          return false;
        }
        i := i + 1;
      }
      triggers := triggers + [Trigger(id, t, guild, data.GetOr(map[]), nowIso, false)];
      ok := true;
    }

    /** get_guild_bot_config: every setting of the guild decoded; when one row fails to decode the
        error is swallowed and the answer is empty. */
    method GetGuildBotConfig(guild: string) returns (result: map<string, ConfigValue>)
      ensures AllDecode(config, guild) ==> result == GuildConfig(config, guild)
      ensures !AllDecode(config, guild) ==> result == map[]
    {
      var todo := KeysOf(config, guild);
      var done: set<string> := {};
      result := map[];
      while todo != {}
        invariant todo !! done && todo + done == KeysOf(config, guild)
        invariant forall key :: key in done ==> Decode(config[(guild, key)].stored).Ok?
        invariant result == map key | key in done :: Decode(config[(guild, key)].stored).value
        decreases todo
      {
        var key :| key in todo;
        var d := Decode(config[(guild, key)].stored);
        if d.Err? {
          return map[];
        }
        result := result[key := d.value];
        todo, done := todo - {key}, done + {key};
      }
    }

    /** update_guild_bot_config: the setting is replaced by its tagged text, then a CONFIG_RELOAD
        trigger carrying the key and stored text is inserted; the trigger's failure is ignored and
        the update answers true. */
    method UpdateGuildBotConfig(guild: string, key: string, v: ConfigValue, user: string, seconds: int, nowIso: string)
      returns (ok: bool)
      requires Valid()
      modifies this
      ensures ok && Valid()
      ensures config == old(config)[(guild, key) := ConfigEntry(Encode(v), user)]
      ensures var id := TriggerId(guild, ConfigReload, seconds);
        && (!IdUsed(old(triggers), id) ==>
              triggers == old(triggers) + [Trigger(id, ConfigReload, guild,
                 map["config_key" := key, "config_value" := Encode(v).value], nowIso, false)])
        && (IdUsed(old(triggers), id) ==> triggers == old(triggers))
    {
      var s := Encode(v);
      config := config[(guild, key) := ConfigEntry(s, user)];
      var _ := TriggerBotReload(ConfigReload, guild, Some(map["config_key" := key, "config_value" := s.value]), seconds, nowIso);
      ok := true;
    }
  }
}
