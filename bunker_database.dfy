/** The bot's bunker database, version 2: the servers of each Discord guild, the four abandoned
    bunkers of every server with their timers, the notifications scheduled around a timer, and
    each user's last registration for the free plan's one-per-72-hours rule. Times are seconds
    as reals and every read of the clock is a `now` parameter. */
module BunkerDatabaseV2 {
  import opened Wrappers
  import opened Text
  import opened Ordering
  import SW = SlidingWindow
  import opened Rounding

  const Hour: real := 3600.0
  const Day: real := 86400.0
  /** The free plan allows one registration per 72 hours. */
  const FreePlanPeriod: real := 72.0 * 3600.0

  /** The bunkers add_server creates for a new server, in this order. */
  const BunkerSeeds: seq<(string, string)> :=
    [("D1", "Bunker Abandonado D1"), ("C4", "Bunker Abandonado C4"),
     ("A1", "Bunker Abandonado A1"), ("A3", "Bunker Abandonado A3")]

  /** The sectors get_all_bunkers_status walks, in this order. */
  const BunkerSectors: seq<string> := ["D1", "C4", "A1", "A3"]

  /** A row of the servers table, keyed by (name, guild). */
  datatype ServerRow = ServerRow(description: string, createdBy: string)
  type ServerKey = (string, string)

  /** A row of the bunkers table, keyed by (sector, server name, guild). The timer columns are
      empty until a registration. */
  datatype BunkerRow = BunkerRow(name: string, registeredTime: Option<real>, expiryTime: Option<real>,
                                 registeredBy: Option<string>, discordUserId: Option<string>, lastUpdated: real)
  type BunkerKey = (string, string, string)

  /** A row of the notifications table. */
  datatype Notification = Notification(sector: string, serverName: string, guildId: string,
                                       time: real, kind: string, sent: bool)

  // ---------------------------------------------------------------- servers and their bunkers

  /** The bunker rows of a new server for the first seeds, timers empty. */
  function SeedMap(seeds: seq<(string, string)>, name: string, guild: string, now: real): map<BunkerKey, BunkerRow>
  {
    if seeds == [] then map[]
    else
      var last := seeds[|seeds| - 1];
      SeedMap(seeds[..|seeds| - 1], name, guild, now)[(last.0, name, guild) := BunkerRow(last.1, None, None, None, None, now)]
  }

  /** The seeded rows are exactly one per seed sector, all under the new server and guild. */
  lemma {:induction false} SeedMapKeys(seeds: seq<(string, string)>, name: string, guild: string, now: real)
    ensures forall k :: k in SeedMap(seeds, name, guild, now) <==>
      k.1 == name && k.2 == guild && exists j :: 0 <= j < |seeds| && seeds[j].0 == k.0
  {
    if seeds != [] {
      var init := seeds[..|seeds| - 1];
      SeedMapKeys(init, name, guild, now);
      forall k: BunkerKey | k.1 == name && k.2 == guild && (exists j :: 0 <= j < |seeds| && seeds[j].0 == k.0)
        ensures k in SeedMap(seeds, name, guild, now)
      {
        var j :| 0 <= j < |seeds| && seeds[j].0 == k.0;
        if j < |init| {
          assert init[j].0 == k.0;
        }
      }
    }
  }

  lemma SeedSectorsDistinct(a: int, b: int)
    requires 0 <= a < b < |BunkerSeeds|
    ensures BunkerSeeds[a].0 != BunkerSeeds[b].0
  {
  }

  /** One step of add_server's insertion loop: the next seed's key is taken only if it was taken
      before the loop, and inserting it extends the seeded prefix by one. */
  lemma SeedStep(bunkers: map<BunkerKey, BunkerRow>, name: string, guild: string, now: real, i: int)
    requires 0 <= i < |BunkerSeeds|
    ensures var key := (BunkerSeeds[i].0, name, guild);
      && (key in bunkers + SeedMap(BunkerSeeds[..i], name, guild, now) <==> key in bunkers)
      && (bunkers + SeedMap(BunkerSeeds[..i], name, guild, now))[key := BunkerRow(BunkerSeeds[i].1, None, None, None, None, now)]
         == bunkers + SeedMap(BunkerSeeds[..i + 1], name, guild, now)
  {
    SeedMapKeys(BunkerSeeds[..i], name, guild, now);
    forall j | 0 <= j < i
      ensures BunkerSeeds[..i][j].0 != BunkerSeeds[i].0
    {
      SeedSectorsDistinct(j, i);
    }
    assert BunkerSeeds[..i + 1][..i] == BunkerSeeds[..i];
  }

  /** The bunkers left after deleting every bunker of one server of one guild. */
  function WithoutServer(bunkers: map<BunkerKey, BunkerRow>, name: string, guild: string): map<BunkerKey, BunkerRow>
  {
    map k | k in bunkers && !(k.1 == name && k.2 == guild) :: bunkers[k]
  }

  /** None of the bunkers a new server would get exists yet. */
  predicate NoSeedClash(bunkers: map<BunkerKey, BunkerRow>, name: string, guild: string)
  {
    forall j :: 0 <= j < |BunkerSeeds| ==> (BunkerSeeds[j].0, name, guild) !in bunkers
  }

  /** Every bunker belongs to a server of its guild, and every server has its four bunkers. */
  ghost predicate TablesValid(servers: map<ServerKey, ServerRow>, bunkers: map<BunkerKey, BunkerRow>)
  {
    && (forall k :: k in bunkers ==> (k.1, k.2) in servers)
    && (forall s, i :: s in servers && 0 <= i < |BunkerSectors| ==> (BunkerSectors[i], s.0, s.1) in bunkers)
  }

  /** A new server with its seeded bunkers keeps the tables valid. */
  lemma AddKeepsValid(servers: map<ServerKey, ServerRow>, bunkers: map<BunkerKey, BunkerRow>,
                      name: string, guild: string, row: ServerRow, now: real)
    requires TablesValid(servers, bunkers)
    ensures TablesValid(servers[(name, guild) := row], bunkers + SeedMap(BunkerSeeds, name, guild, now))
  {
    SeedMapKeys(BunkerSeeds, name, guild, now);
    var servers', bunkers' := servers[(name, guild) := row], bunkers + SeedMap(BunkerSeeds, name, guild, now);
    forall s, i | s in servers' && 0 <= i < |BunkerSectors|
      ensures (BunkerSectors[i], s.0, s.1) in bunkers'
    {
      if s == (name, guild) {
        assert BunkerSeeds[i].0 == BunkerSectors[i];
      }
    }
  }

  // ---------------------------------------------------------------- notifications

  /** A notification of the given server and guild, and of the given sector unless it is None. */
  predicate Matches(n: Notification, sector: Option<string>, server: string, guild: string)
  {
    n.serverName == server && n.guildId == guild && (sector.None? || n.sector == sector.value)
  }

  /** The notifications that a DELETE of the matching ones leaves, in their order. */
  function WithoutMatching(ns: seq<Notification>, sector: Option<string>, server: string, guild: string): seq<Notification>
  {
    if ns == [] then []
    else
      var rest := WithoutMatching(ns[..|ns| - 1], sector, server, guild);
      if Matches(ns[|ns| - 1], sector, server, guild) then rest else rest + [ns[|ns| - 1]]
  }

  /** The DELETE removes exactly the matching notifications. */
  lemma {:induction false} WithoutMatchingExact(ns: seq<Notification>, sector: Option<string>, server: string, guild: string)
    ensures forall n :: n in WithoutMatching(ns, sector, server, guild) <==> n in ns && !Matches(n, sector, server, guild)
    ensures |WithoutMatching(ns, sector, server, guild)| <= |ns|
  {
    if ns != [] {
      var init := ns[..|ns| - 1];
      WithoutMatchingExact(init, sector, server, guild);
      assert ns == init + [ns[|ns| - 1]];
    }
  }

  /** The four reminders of a timer: two hours and thirty minutes before it runs out, when the
      bunker opens, and when it closes a day later. */
  function Reminders(expiry: real): seq<(real, string)>
  {
    [(expiry - 2.0 * Hour, "2_hours_before"), (expiry - 1800.0, "30_minutes_before"),
     (expiry, "bunker_opens"), (expiry + Day, "bunker_closes")]
  }

  /** The notification a reminder becomes when it is still in the future. */
  function IfFuture(sector: string, server: string, guild: string, reminder: (real, string), now: real): seq<Notification>
  {
    if reminder.0 > now then [Notification(sector, server, guild, reminder.0, reminder.1, false)] else []
  }

  /** The unsent notifications inserted for the reminders that are still in the future. */
  function Scheduled(sector: string, server: string, guild: string, reminders: seq<(real, string)>, now: real): seq<Notification>
  {
    if reminders == [] then []
    else Scheduled(sector, server, guild, reminders[..|reminders| - 1], now)
         + IfFuture(sector, server, guild, reminders[|reminders| - 1], now)
  }

  /** Only future reminders are scheduled, all of them are, unsent and for the one bunker. */
  lemma {:induction false} ScheduledExactlyFuture(sector: string, server: string, guild: string, reminders: seq<(real, string)>, now: real)
    ensures var s := Scheduled(sector, server, guild, reminders, now);
      && |s| <= |reminders|
      && (forall n :: n in s ==> n.time > now && !n.sent && Matches(n, Some(sector), server, guild))
      && (forall j :: 0 <= j < |reminders| && reminders[j].0 > now ==>
            Notification(sector, server, guild, reminders[j].0, reminders[j].1, false) in s)
  {
    if reminders != [] {
      var init := reminders[..|reminders| - 1];
      ScheduledExactlyFuture(sector, server, guild, init, now);
      forall j | 0 <= j < |init|
        ensures reminders[j] == init[j]
      {
      }
    }
  }

  lemma ScheduledFour(sector: string, server: string, guild: string, r: seq<(real, string)>, now: real)
    requires |r| == 4
    ensures Scheduled(sector, server, guild, r, now)
      == IfFuture(sector, server, guild, r[0], now) + IfFuture(sector, server, guild, r[1], now)
         + IfFuture(sector, server, guild, r[2], now) + IfFuture(sector, server, guild, r[3], now)
  {
    assert r[..1][..0] == [] && r[..2][..1] == r[..1] && r[..3][..2] == r[..2] && r[..4] == r && r[..4][..3] == r[..3];
    var s1 := Scheduled(sector, server, guild, r[..1], now);
    var s2 := Scheduled(sector, server, guild, r[..2], now);
    var s3 := Scheduled(sector, server, guild, r[..3], now);
    assert r[..1][0] == r[0] && r[..2][1] == r[1] && r[..3][2] == r[2];
    assert s1 == Scheduled(sector, server, guild, [], now) + IfFuture(sector, server, guild, r[0], now);
    assert s2 == s1 + IfFuture(sector, server, guild, r[1], now);
    assert s3 == s2 + IfFuture(sector, server, guild, r[2], now);
  }

  /** A timer more than two hours away gets all four reminders; one that closed already gets
      none; and while the bunker has not closed, its closing reminder is the last one. */
  lemma RemindersAroundTimer(sector: string, server: string, guild: string, expiry: real, now: real)
    ensures expiry - 2.0 * Hour > now ==> |Scheduled(sector, server, guild, Reminders(expiry), now)| == 4
    ensures expiry + Day <= now ==> Scheduled(sector, server, guild, Reminders(expiry), now) == []
    ensures expiry + Day > now ==>
      var s := Scheduled(sector, server, guild, Reminders(expiry), now);
      s != [] && s[|s| - 1] == Notification(sector, server, guild, expiry + Day, "bunker_closes", false)
  {
    ScheduledFour(sector, server, guild, Reminders(expiry), now);
  }

  // ---------------------------------------------------------------- timer status

  /** Hours and minutes of a duration, as int(s // 3600) and int((s % 3600) // 60). */
  datatype Span = Span(hours: int, minutes: int)

  /** The span is the duration cut down to whole minutes. */
  predicate Approximates(s: Span, secs: real)
  {
    && 0 <= s.minutes < 60
    && (s.hours * 3600 + s.minutes * 60) as real <= secs < (s.hours * 3600 + s.minutes * 60 + 60) as real
  }

  function SpanOf(secs: real): (s: Span)
    ensures Approximates(s, secs)
  {
    var h := (secs / Hour).Floor;
    var m := ((secs - h as real * Hour) / 60.0).Floor;
    Span(h, m)
  }

  function SpanText(s: Span): string
  {
    IntToString(s.hours) + "h " + IntToString(s.minutes) + "m"
  }

  /** The state of a bunker's timer: not registered; closed until the expiry; open for a day
      after it; expired after that. */
  datatype Phase =
    | NoData
    | Closed(remaining: Span, expiry: real)
    | Active(remaining: Span, activeSince: Span, finalExpiry: real)
    | Expired(expiredSince: Span)

  /** The status branch of get_bunker_status: the spans say how long until the bunker opens, how
      long it has been open and how long it stays open, or how long it has been expired. */
  function Classify(expiry: Option<real>, now: real): (p: Phase)
    ensures p.NoData? <==> expiry.None?
    ensures p.Closed? ==> Approximates(p.remaining, expiry.value - now) && p.expiry == expiry.value
    ensures p.Active? ==> && Approximates(p.activeSince, now - expiry.value)
                          && Approximates(p.remaining, Day - (now - expiry.value))
                          && p.finalExpiry == expiry.value + Day
    ensures p.Expired? ==> Approximates(p.expiredSince, now - expiry.value - Day)
  {
    match expiry
    case None => NoData
    case Some(e) =>
      var diff := e - now;
      if diff > 0.0 then Closed(SpanOf(diff), e)
      else if diff > -Day then
        var activeTime := -diff;
        Active(SpanOf(Day - activeTime), SpanOf(activeTime), e + Day)
      else Expired(SpanOf(-diff - Day))
  }

  /** Every registered timer is in exactly one of the three states, decided by how far the
      expiry lies from now. */
  lemma StatusPartition(e: real, now: real)
    ensures Classify(Some(e), now).Closed? <==> e - now > 0.0
    ensures Classify(Some(e), now).Active? <==> -Day < e - now <= 0.0
    ensures Classify(Some(e), now).Expired? <==> e - now <= -Day
  {
  }

  /** A timer set d > 0 seconds ahead is closed now, opens at the expiry, and has expired a day
      after that. */
  lemma TimerLifecycle(now: real, d: real)
    requires d > 0.0
    ensures Classify(Some(now + d), now).Closed?
    ensures Classify(Some(now + d), now + d).Active?
    ensures Classify(Some(now + d), now + d + Day).Expired?
  {
  }

  function StatusName(p: Phase): string
  {
    match p
    case NoData => "no_data"
    case Closed(_, _) => "closed"
    case Active(_, _, _) => "active"
    case Expired(_) => "expired"
  }

  function TimeRemainingText(p: Phase): string
  {
    match p
    case NoData => "Sin registro"
    case Closed(r, _) => SpanText(r)
    case Active(r, _, _) => SpanText(r)
    case Expired(_) => "EXPIRADO"
  }

  /** The dictionary get_bunker_status returns. */
  datatype BunkerStatus = BunkerStatus(sector: string, name: string, registeredBy: Option<string>,
                                       discordUserId: Option<string>, serverName: string, phase: Phase)

  // ---------------------------------------------------------------- the free plan's usage check

  /** The dictionary check_daily_usage returns; hours_remaining is rounded to one decimal and
      next_available is the Unix time of the next allowed registration, or None for
      "Disponible ahora". */
  datatype UsageCheck = UsageCheck(bunkersInPeriod: int, lastRegistration: Option<real>, canRegister: bool,
                                   hoursRemaining: real, nextAvailable: Option<int>)

  /** The usage check for a user whose last registration is `last`. The decision and the next
      slot use the exact hours left; only the reported hours are rounded, so a wait under
      0.05 hours is reported as 0.0 hours while registering is still refused. */
  function UsageCheckFor(last: Option<real>, now: real): (c: UsageCheck)
    ensures last.None? ==> c.canRegister && c.hoursRemaining == 0.0 && c.bunkersInPeriod == 0 && c.nextAvailable.None?
    ensures last.Some? ==> (c.canRegister <==> now - last.value >= FreePlanPeriod)
    ensures c.canRegister ==> c.hoursRemaining == 0.0
    ensures last.Some? && !c.canRegister ==>
      c.hoursRemaining == Round1(72.0 - (now - last.value) / Hour)
      && -0.05 <= c.hoursRemaining - (72.0 - (now - last.value) / Hour) <= 0.05
    ensures last.Some? ==> (c.hoursRemaining == 0.0 <==> 72.0 - (now - last.value) / Hour <= 0.05)
    ensures c.bunkersInPeriod == (if c.canRegister then 0 else 1)
    ensures c.lastRegistration == last
    ensures c.nextAvailable.Some? <==> !c.canRegister
    ensures c.nextAvailable.Some? ==> c.nextAvailable.value == SW.Trunc(last.value + FreePlanPeriod)
  {
    match last
    case None => UsageCheck(0, None, true, 0.0, None)
    case Some(t) =>
      var hoursSince := (now - t) / Hour;
      var canRegister := hoursSince >= 72.0;
      var hoursRemaining := if 72.0 - hoursSince > 0.0 then 72.0 - hoursSince else 0.0;
      var nextAvailable := if hoursRemaining > 0.0 then Some(SW.Trunc(t + 72.0 * Hour)) else None;
      Round1IsZero(hoursRemaining);
      UsageCheck(if hoursSince < 72.0 then 1 else 0, Some(t), canRegister, Round1(hoursRemaining), nextAvailable)
  }

  /** 71.96 hours after a registration the check reports 0.0 hours remaining, yet refuses. */
  lemma ZeroHoursShownWhileWaiting()
    ensures UsageCheckFor(Some(0.0), 71.96 * Hour).hoursRemaining == 0.0
    ensures !UsageCheckFor(Some(0.0), 71.96 * Hour).canRegister
  {
  }

  /** After a registration at t, the next one is allowed from t + 72 hours on and not before. */
  lemma OnePerPeriod(t: real, now: real)
    ensures UsageCheckFor(Some(t), now).canRegister <==> now >= t + FreePlanPeriod
  {
  }

  // ---------------------------------------------------------------- the database

  class BunkerDatabase {
    var servers: map<ServerKey, ServerRow>
    var bunkers: map<BunkerKey, BunkerRow>
    var notifications: seq<Notification>
    /** The last_bunker_timestamp of each (guild, user)'s latest daily_usage row. */
    var lastUsage: map<(string, string), Option<real>>

    ghost predicate Valid()
      reads this
    {
      TablesValid(servers, bunkers)
    }

    constructor ()
      ensures servers == map[] && bunkers == map[] && notifications == [] && lastUsage == map[]
      ensures Valid()
    {
      servers, bunkers, notifications, lastUsage := map[], map[], [], map[];
    }

    /** add_server: the server row and its four bunkers, all or nothing; an existing server or
        bunker key violates a UNIQUE constraint and nothing is written. */
    method AddServer(name: string, description: string, createdBy: string, guild: string, now: real) returns (ok: bool)
      modifies this
      ensures notifications == old(notifications) && lastUsage == old(lastUsage)
      ensures ok <==> (name, guild) !in old(servers) && NoSeedClash(old(bunkers), name, guild)
      ensures !ok ==> servers == old(servers) && bunkers == old(bunkers)
      ensures ok ==> && servers == old(servers)[(name, guild) := ServerRow(description, createdBy)]
                     && bunkers == old(bunkers) + SeedMap(BunkerSeeds, name, guild, now)
      ensures old(Valid()) ==> Valid()
    {
      if (name, guild) in servers {
        return false;
      }
      var newBunkers := bunkers;
      var i := 0;
      while i < |BunkerSeeds|
        invariant 0 <= i <= |BunkerSeeds|
        invariant servers == old(servers) && bunkers == old(bunkers)
        invariant notifications == old(notifications) && lastUsage == old(lastUsage)
        invariant newBunkers == bunkers + SeedMap(BunkerSeeds[..i], name, guild, now)
        invariant forall j :: 0 <= j < i ==> (BunkerSeeds[j].0, name, guild) !in bunkers
      {
        var (sector, bunkerName) := BunkerSeeds[i];
        SeedStep(bunkers, name, guild, now, i);
        if (sector, name, guild) in newBunkers {
          return false;
        }
        newBunkers := newBunkers[(sector, name, guild) := BunkerRow(bunkerName, None, None, None, None, now)];
        i := i + 1;
      }
      assert BunkerSeeds[..i] == BunkerSeeds;
      if TablesValid(servers, bunkers) {
        AddKeepsValid(servers, bunkers, name, guild, ServerRow(description, createdBy), now);
      }
      servers := servers[(name, guild) := ServerRow(description, createdBy)];
      bunkers := newBunkers;
      ok := true;
    }

    /** remove_server: refused for "Default" and for a server the guild does not have; otherwise
        the server's notifications, bunkers and row are deleted. */
    method RemoveServer(name: string, guild: string) returns (ok: bool)
      modifies this
      ensures lastUsage == old(lastUsage)
      ensures ok <==> name != "Default" && (name, guild) in old(servers)
      ensures !ok ==> servers == old(servers) && bunkers == old(bunkers) && notifications == old(notifications)
      ensures ok ==> && notifications == WithoutMatching(old(notifications), None, name, guild)
                     && bunkers == WithoutServer(old(bunkers), name, guild)
                     && servers == old(servers) - {(name, guild)}
      ensures old(Valid()) ==> Valid()
    {
      if name == "Default" {
        return false;
      }
      if (name, guild) !in servers {
        return false;
      }
      notifications := WithoutMatching(notifications, None, name, guild);
      bunkers := WithoutServer(bunkers, name, guild);
      servers := servers - {(name, guild)};
      ok := true;
    }

    /** _schedule_notifications: the bunker's earlier notifications are deleted, then one is
        inserted for each reminder still in the future, in order. */
    method ScheduleNotifications(sector: string, expiry: real, server: string, guild: string, now: real)
      modifies this
      ensures servers == old(servers) && bunkers == old(bunkers) && lastUsage == old(lastUsage)
      ensures notifications == WithoutMatching(old(notifications), Some(sector), server, guild)
                               + Scheduled(sector, server, guild, Reminders(expiry), now)
    {
      notifications := WithoutMatching(notifications, Some(sector), server, guild);
      ghost var kept := notifications;
      var reminders := Reminders(expiry);
      for i := 0 to |reminders|
        invariant servers == old(servers) && bunkers == old(bunkers) && lastUsage == old(lastUsage)
        invariant notifications == kept + Scheduled(sector, server, guild, reminders[..i], now)
      {
        assert reminders[..i + 1][..i] == reminders[..i];
        var (time, kind) := reminders[i];
        if time > now {
          notifications := notifications + [Notification(sector, server, guild, time, kind, false)];
        }
        assert notifications == kept + Scheduled(sector, server, guild, reminders[..i], now)
                                + IfFuture(sector, server, guild, reminders[i], now);
      }
      assert reminders[..|reminders|] == reminders;
    }

    /** register_bunker_time: the timer runs out hours and minutes from now; the bunker's row,
        if there is one, records who registered it and when, and its reminders are rescheduled
        (even when no row matched). */
    method RegisterBunkerTime(sector: string, hours: int, minutes: int, registeredBy: string, guild: string,
                              discordUserId: Option<string>, serverName: string, now: real) returns (ok: bool)
      modifies this
      ensures servers == old(servers) && lastUsage == old(lastUsage)
      ensures ok
      ensures var key := (sector, serverName, guild);
        var expiry := now + (hours * 3600 + minutes * 60) as real;
        && bunkers == (if key in old(bunkers)
                       then old(bunkers)[key := old(bunkers)[key].(registeredTime := Some(now), expiryTime := Some(expiry),
                                                                   registeredBy := Some(registeredBy),
                                                                   discordUserId := discordUserId, lastUpdated := now)]
                       else old(bunkers))
        && notifications == WithoutMatching(old(notifications), Some(sector), serverName, guild)
                            + Scheduled(sector, serverName, guild, Reminders(expiry), now)
      ensures old(Valid()) ==> Valid()
    {
      var expiry := now + (hours * 3600 + minutes * 60) as real;
      var key := (sector, serverName, guild);
      if key in bunkers {
        bunkers := bunkers[key := bunkers[key].(registeredTime := Some(now), expiryTime := Some(expiry),
                                                registeredBy := Some(registeredBy),
                                                discordUserId := discordUserId, lastUpdated := now)];
      }
      ScheduleNotifications(sector, expiry, serverName, guild, now);
      ok := true;
    }

    /** get_bunker_status: None for a bunker the server does not have; otherwise its row with the
        state of its timer at `now`. */
    function GetBunkerStatus(sector: string, guild: string, server: string, now: real): (r: Option<BunkerStatus>)
      reads this
      ensures r.None? <==> (sector, server, guild) !in bunkers
      ensures r.Some? ==> var row := bunkers[(sector, server, guild)];
        && r.value == BunkerStatus(sector, row.name, row.registeredBy, row.discordUserId, server, r.value.phase)
        && r.value.phase == Classify(row.expiryTime, now)
    {
      var key := (sector, server, guild);
      if key !in bunkers then None
      else
        var row := bunkers[key];
        Some(BunkerStatus(sector, row.name, row.registeredBy, row.discordUserId, server, Classify(row.expiryTime, now)))
    }

    /** The statuses of the bunkers of the given sectors that exist, in sector order. */
    function Statuses(sectors: seq<string>, guild: string, server: string, now: real): seq<BunkerStatus>
      reads this
    {
      if sectors == [] then []
      else
        var rest := Statuses(sectors[..|sectors| - 1], guild, server, now);
        match GetBunkerStatus(sectors[|sectors| - 1], guild, server, now)
        case Some(s) => rest + [s]
        case None => rest
    }

    /** get_all_bunkers_status: the status of each of D1, C4, A1, A3 that exists, in that order. */
    method GetAllBunkersStatus(guild: string, server: string, now: real) returns (r: seq<BunkerStatus>)
      ensures r == Statuses(BunkerSectors, guild, server, now)
    {
      r := [];
      for i := 0 to |BunkerSectors|
        invariant r == Statuses(BunkerSectors[..i], guild, server, now)
      {
        assert BunkerSectors[..i + 1][..i] == BunkerSectors[..i];
        var status := GetBunkerStatus(BunkerSectors[i], guild, server, now);
        if status.Some? {
          r := r + [status.value];
        }
      }
      assert BunkerSectors[..|BunkerSectors|] == BunkerSectors;
    }

    /** At most one status per sector, and a server of the guild in a valid database shows all
        four of its bunkers, in order. */
    lemma {:induction false} StatusesPerSector(sectors: seq<string>, guild: string, server: string, now: real)
      ensures |Statuses(sectors, guild, server, now)| <= |sectors|
      ensures Valid() && (server, guild) in servers && (forall i :: 0 <= i < |sectors| ==> sectors[i] in BunkerSectors) ==>
        |Statuses(sectors, guild, server, now)| == |sectors|
        && forall i :: 0 <= i < |sectors| ==> Statuses(sectors, guild, server, now)[i].sector == sectors[i]
    {
      if sectors != [] {
        var init := sectors[..|sectors| - 1];
        StatusesPerSector(init, guild, server, now);
        if Valid() && (server, guild) in servers && (forall i :: 0 <= i < |sectors| ==> sectors[i] in BunkerSectors) {
          var last := sectors[|sectors| - 1];
          var j :| 0 <= j < |BunkerSectors| && BunkerSectors[j] == last;
          assert (BunkerSectors[j], server, guild) in bunkers;
          assert forall i :: 0 <= i < |init| ==> init[i] == sectors[i];
        }
      }
    }

    /** get_unique_servers: the distinct server names of the guild's bunkers, sorted, or just
        "Default" when the guild has none. */
    method GetUniqueServers(guild: string) returns (r: seq<string>)
      ensures StrictlySorted(r)
      ensures var names := set k | k in bunkers && k.2 == guild :: k.1;
        && (names == {} ==> r == ["Default"])
        && (names != {} ==> Elems(r) == names)
    {
      var names := set k | k in bunkers && k.2 == guild :: k.1;
      var remaining := names;
      r := [];
      while remaining != {}
        invariant StrictlySorted(r)
        invariant Elems(r) + remaining == names
        decreases |remaining|
      {
        var n :| n in remaining;
        InsertSortedKeepsOrder(r, n);
        InsertSortedElems(r, n);
        r := InsertSorted(r, n);
        remaining := remaining - {n};
      }
      assert r != [] ==> r[0] in Elems(r);
      if r == [] {
        r := ["Default"];
      }
    }

    /** check_daily_usage for a user of a guild. */
    function CheckDailyUsage(guild: string, user: string, now: real): (c: UsageCheck)
      reads this
      ensures (guild, user) !in lastUsage ==> c.canRegister && c.hoursRemaining == 0.0
      ensures (guild, user) in lastUsage ==> c == UsageCheckFor(lastUsage[(guild, user)], now)
    {
      UsageCheckFor(if (guild, user) in lastUsage then lastUsage[(guild, user)] else None, now)
    }

    /** increment_daily_usage: the user's registration at `now` becomes the latest, so a check at
        the same moment refuses another one. */
    method IncrementDailyUsage(guild: string, user: string, now: real)
      modifies this
      ensures servers == old(servers) && bunkers == old(bunkers) && notifications == old(notifications)
      ensures lastUsage == old(lastUsage)[(guild, user) := Some(now)]
      ensures !CheckDailyUsage(guild, user, now).canRegister
      ensures CheckDailyUsage(guild, user, now).hoursRemaining == 72.0
    {
      lastUsage := lastUsage[(guild, user) := Some(now)];
    }
  }
}
