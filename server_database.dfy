/** The monitored-server tables: servers keyed by a server id derived from the guild and the
    name, their status history, per-guild limits, and the reset-alert rows that removing a
    server also clears. */
module ServerDatabase {
  import opened Text

  datatype MonitoredServer = MonitoredServer(guild: string, name: string, ip: string, port: int,
                                             battlemetricsId: string, addedBy: string, addedAt: real,
                                             alertsEnabled: bool)

  datatype StatusRecord = StatusRecord(serverId: string, status: string, players: int, checkedAt: real)

  /** A user_reset_alerts or reset_alert_cache row. */
  datatype AlertRow = AlertRow(serverName: string, guild: string, userId: string)

  datatype LimitReport = LimitReport(currentCount: int, maxServers: int, canAdd: bool, remaining: int)

  const DefaultMaxServers: int := 5

  /** Spaces become underscores. */
  function Underscored(s: string): (r: string)
    ensures |r| == |s|
    ensures forall i :: 0 <= i < |s| ==> r[i] == (if s[i] == ' ' then '_' else s[i])
  {
    seq(|s|, i requires 0 <= i < |s| => if s[i] == ' ' then '_' else s[i])
  }

  /** The primary key of a monitored server: the guild, '_', then the lowercased name with
      spaces turned into underscores. */
  function ServerId(guild: string, name: string): string
  {
    guild + "_" + Underscored(ToLower(name))
  }

  /** Names that differ only in letter case, or in a space against an underscore, share an id,
      so the second of them cannot be added. */
  lemma ServerIdIgnoresCaseAndSpaces(guild: string, a: string, b: string)
    requires |a| == |b|
    requires forall i :: 0 <= i < |a| ==> Lower(a[i]) == Lower(b[i]) || (a[i] in " _" && b[i] in " _")
    ensures ServerId(guild, a) == ServerId(guild, b)
  {
    assert Underscored(ToLower(a)) == Underscored(ToLower(b));
  }

  /** With numeric guild ids the guild can be read back from the server id, so add, toggle and
      remove never reach another guild's server. */
  lemma ServerIdKeepsGuildsApart(g1: string, n1: string, g2: string, n2: string)
    requires IsDigits(g1) && IsDigits(g2)
    requires ServerId(g1, n1) == ServerId(g2, n2)
    ensures g1 == g2
  {
    SeparatorAfterGuild(g1, n1);
    SeparatorAfterGuild(g2, n2);
    var s := ServerId(g1, n1);
    if |g1| != |g2| {
      assert false;
    } else {
      assert g1 == s[..|g1|] == g2;
    }
  }

  /** The id holds the guild, then the '_' separator. */
  lemma SeparatorAfterGuild(g: string, n: string)
    ensures |ServerId(g, n)| > |g| && ServerId(g, n)[|g|] == '_' && ServerId(g, n)[..|g|] == g
  {
  }

  /** The number of the guild's monitored servers. */
  function GuildCount(servers: map<string, MonitoredServer>, guild: string): nat
  {
    |set id | id in servers && servers[id].guild == guild|
  }

  /** check_server_limit: the configured limit, 5 when none was set. */
  function LimitFor(current: int, configured: map<string, int>, guild: string): (r: LimitReport)
    ensures r.maxServers == (if guild in configured then configured[guild] else DefaultMaxServers)
    ensures r.canAdd <==> current < r.maxServers
    ensures r.remaining == r.maxServers - current && r.currentCount == current
  {
    var max := if guild in configured then configured[guild] else DefaultMaxServers;
    LimitReport(current, max, current < max, max - current)
  }

  /** What check_server_limit answers when the database fails. */
  const FallbackReport: LimitReport := LimitReport(0, 5, true, 5)

  /** The fallback is the report of an empty guild with no configured limit. */
  lemma FallbackIsEmptyGuild(guild: string)
    ensures FallbackReport == LimitFor(0, map[], guild)
  {
  }

  /** Rows that survive a removal: everything not about that name in that guild. */
  function OtherAlerts(rows: seq<AlertRow>, guild: string, name: string): (r: seq<AlertRow>)
    ensures forall i :: 0 <= i < |r| ==> !(r[i].serverName == name && r[i].guild == guild)
    ensures multiset(r) <= multiset(rows)
    ensures forall i :: 0 <= i < |rows| && !(rows[i].serverName == name && rows[i].guild == guild) ==> rows[i] in r
  {
    if rows == [] then []
    else
      var rest := OtherAlerts(rows[..|rows| - 1], guild, name);
      var last := rows[|rows| - 1];
      assert rows == rows[..|rows| - 1] + [last];
      if last.serverName == name && last.guild == guild then rest else rest + [last]
  }

  function OtherHistory(rows: seq<StatusRecord>, serverId: string): (r: seq<StatusRecord>)
    ensures forall i :: 0 <= i < |r| ==> r[i].serverId != serverId
    ensures forall i :: 0 <= i < |rows| && rows[i].serverId != serverId ==> rows[i] in r
  {
    if rows == [] then []
    else
      var rest := OtherHistory(rows[..|rows| - 1], serverId);
      var last := rows[|rows| - 1];
      if last.serverId == serverId then rest else rest + [last]
  }

  function OtherSchedules(names: seq<string>, name: string): (r: seq<string>)
    ensures name !in r
    ensures forall i :: 0 <= i < |names| && names[i] != name ==> names[i] in r
  {
    if names == [] then []
    else
      var rest := OtherSchedules(names[..|names| - 1], name);
      var last := names[|names| - 1];
      if last == name then rest else rest + [last]
  }

  /** Every row is stored under its own id. */
  ghost predicate KeyedById(servers: map<string, MonitoredServer>)
  {
    forall id :: id in servers ==> id == ServerId(servers[id].guild, servers[id].name)
  }

  /** Some row already has that name in that guild (the UNIQUE(guild_id, server_name) constraint). */
  predicate NameTaken(servers: map<string, MonitoredServer>, guild: string, name: string)
  {
    exists id :: id in servers && servers[id].guild == guild && servers[id].name == name
  }

  /** With rows keyed by their ids, the name constraint never fires without the key constraint. */
  lemma NameTakenMeansIdTaken(servers: map<string, MonitoredServer>, guild: string, name: string)
    requires KeyedById(servers) && NameTaken(servers, guild, name)
    ensures ServerId(guild, name) in servers
  {
  }

  class ServerStore {
    var servers: map<string, MonitoredServer>
    var history: seq<StatusRecord>
    var limits: map<string, int>
    /** The reset-alert tables of the taxi database. */
    var resetAlerts: seq<AlertRow>
    var alertCache: seq<AlertRow>
    var resetSchedules: seq<string>

    ghost predicate Valid()
      reads this
    {
      KeyedById(servers)
    }

    constructor ()
      ensures servers == map[] && history == [] && limits == map[] && resetAlerts == [] && alertCache == []
      ensures resetSchedules == []
      ensures Valid()
    {
      servers, history, limits, resetAlerts, alertCache, resetSchedules := map[], [], map[], [], [], [];
    }

    /** add_monitored_server: refused (False) when the id or the (guild, name) pair is taken;
        otherwise stored with alerts enabled. */
    method AddMonitoredServer(guild: string, name: string, ip: string, port: int, battlemetricsId: string,
                              addedBy: string, now: real) returns (added: bool)
      requires Valid()
      modifies this
      ensures Valid()
      ensures added <==> ServerId(guild, name) !in old(servers)
      ensures added ==> servers == old(servers)[ServerId(guild, name) :=
                                     MonitoredServer(guild, name, ip, port, battlemetricsId, addedBy, now, true)]
      ensures !added ==> servers == old(servers)
      ensures history == old(history) && limits == old(limits) && resetAlerts == old(resetAlerts)
      ensures alertCache == old(alertCache) && resetSchedules == old(resetSchedules)
    {
      var id := ServerId(guild, name);
      if id in servers || NameTaken(servers, guild, name) {
        if id !in servers {
          NameTakenMeansIdTaken(servers, guild, name);
        }
        return false;
      }
      servers := servers[id := MonitoredServer(guild, name, ip, port, battlemetricsId, addedBy, now, true)];
      added := true;
    }

    /** remove_monitored_server: the server's status history and its row go, and so do the
        guild's reset alerts for that name and every reset schedule under that name; True iff
        the server row existed. */
    method RemoveMonitoredServer(guild: string, name: string) returns (deleted: bool)
      requires Valid()
      modifies this
      ensures Valid()
      ensures deleted <==> ServerId(guild, name) in old(servers)
      ensures servers == old(servers) - {ServerId(guild, name)}
      ensures history == OtherHistory(old(history), ServerId(guild, name))
      ensures resetAlerts == OtherAlerts(old(resetAlerts), guild, name)
      ensures alertCache == OtherAlerts(old(alertCache), guild, name)
      ensures resetSchedules == OtherSchedules(old(resetSchedules), name)
      ensures limits == old(limits)
    {
      var id := ServerId(guild, name);
      history := OtherHistory(history, id);
      deleted := id in servers;
      servers := servers - {id};
      resetAlerts := OtherAlerts(resetAlerts, guild, name);
      alertCache := OtherAlerts(alertCache, guild, name);
      resetSchedules := OtherSchedules(resetSchedules, name);
    }

    /** toggle_server_alerts: sets the flag on the row with exactly that guild and name; True iff
        there was one. */
    method ToggleServerAlerts(guild: string, name: string, enabled: bool) returns (updated: bool)
      requires Valid()
      modifies this
      ensures Valid()
      ensures updated <==> NameTaken(old(servers), guild, name)
      ensures updated ==> var id := ServerId(guild, name);
        id in old(servers) && servers == old(servers)[id := old(servers)[id].(alertsEnabled := enabled)]
      ensures !updated ==> servers == old(servers)
      ensures history == old(history) && limits == old(limits) && resetAlerts == old(resetAlerts)
      ensures alertCache == old(alertCache) && resetSchedules == old(resetSchedules)
    {
      var id := ServerId(guild, name);
      if id in servers && servers[id].guild == guild && servers[id].name == name {
        servers := servers[id := servers[id].(alertsEnabled := enabled)];
        updated := true;
      } else {
        updated := false;
      }
    }

    /** check_server_limit. */
    function CheckServerLimit(guild: string): (r: LimitReport)
      reads this
      ensures r.currentCount == GuildCount(servers, guild)
      ensures r.canAdd <==> r.remaining > 0
    {
      LimitFor(GuildCount(servers, guild), limits, guild)
    }
  }

  /** A server that was just added is found again by remove under the same guild and name. */
  lemma AddThenRemoveFindsIt(servers: map<string, MonitoredServer>, guild: string, name: string, row: MonitoredServer)
    ensures ServerId(guild, name) in servers[ServerId(guild, name) := row]
    ensures (servers[ServerId(guild, name) := row] - {ServerId(guild, name)}) == servers - {ServerId(guild, name)}
  {
  }

  /** Adding a server to a guild uses up one place of its limit. */
  lemma AddUsesOnePlace(servers: map<string, MonitoredServer>, guild: string, name: string, row: MonitoredServer)
    requires ServerId(guild, name) !in servers && row.guild == guild
    ensures GuildCount(servers[ServerId(guild, name) := row], guild) == GuildCount(servers, guild) + 1
  {
    var id := ServerId(guild, name);
    var after := servers[id := row];
    var before := set k | k in servers && servers[k].guild == guild;
    assert (set k | k in after && after[k].guild == guild) == before + {id};
  }
}
