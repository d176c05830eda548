/** The admin panel's bunker API: who may act on a guild, how a registration's timer is
    classified for the listing, the paged listing with its counters, server updates and manual
    registrations. The admin tables (servers, sectors, bunkers) are fields of one store; times are
    seconds as reals and the clock is a `now` parameter. */
module AdminBunkerRoutes {
  import opened Wrappers
  import opened Text
  import BD = BunkerDatabaseV2
  import SW = SlidingWindow

  /** The authenticated user of a request: id, role and the guilds the user may manage. */
  datatype Caller = Caller(userId: string, role: string, guilds: seq<string>)

  /** The guild check every endpoint starts with: the refusal, if there is one. */
  function CheckGuildAccess(caller: Caller, guild: string): (refusal: Option<HttpError>)
    ensures refusal.None? <==> guild in caller.guilds || caller.role == "super_admin"
    ensures refusal.Some? ==> refusal.value.status == 403
  {
    if guild !in caller.guilds && caller.role != "super_admin" then Some(HttpError(403, "Access denied to this guild"))
    else None
  }

  // ---------------------------------------------------------------- registration status

  datatype RegStatus = Unknown | NearExpiry | Active | Expired

  /** The value of the BunkerStatus enum. */
  function StatusValue(s: RegStatus): string
  {
    match s
    case Unknown => "unknown"
    case NearExpiry => "near_expiry"
    case Active => "active"
    case Expired => "expired"
  }

  /** A timer this close to running out is reported as near expiry. */
  const NearExpiryWindow: real := 1800.0

  /** Status, time remaining and whole minutes since expiry of one registration. */
  datatype Classified = Classified(status: RegStatus, timeRemaining: Option<BD.Span>, expiredMinutesAgo: Option<int>)

  /** divmod(int(secs), 3600) and then divmod of the remainder by 60. */
  function DivmodSpan(secs: real): (s: BD.Span)
    ensures secs >= 0.0 ==> BD.Approximates(s, secs)
  {
    var n := SW.Trunc(secs);
    BD.Span(n / 3600, (n % 3600) / 60)
  }

  /** The status branch of the registration listings: the time remaining is the distance to the
      expiry cut to whole minutes, and expired_minutes_ago the whole minutes since it. */
  function ClassifyRegistration(expiry: Option<real>, now: real): (c: Classified)
    ensures c.status == Unknown <==> expiry.None?
    ensures c.timeRemaining.Some? <==> expiry.Some? && expiry.value > now
    ensures c.timeRemaining.Some? ==> BD.Approximates(c.timeRemaining.value, expiry.value - now)
    ensures c.expiredMinutesAgo.Some? <==> c.status == Expired
    ensures c.expiredMinutesAgo.Some? ==> var m := c.expiredMinutesAgo.value;
      m >= 0 && (m * 60) as real <= now - expiry.value < (m * 60 + 60) as real
  {
    match expiry
    case None => Classified(Unknown, None, None)
    case Some(e) =>
      if e > now then
        var diff := e - now;
        Classified(if diff <= NearExpiryWindow then NearExpiry else Active, Some(DivmodSpan(diff)), None)
      else
        Classified(Expired, None, Some(SW.Trunc((now - e) / 60.0)))
  }

  /** Each registered timer gets exactly one status from its distance to now. */
  lemma RegistrationPartition(e: real, now: real)
    ensures ClassifyRegistration(Some(e), now).status == NearExpiry <==> 0.0 < e - now <= NearExpiryWindow
    ensures ClassifyRegistration(Some(e), now).status == Active <==> e - now > NearExpiryWindow
    ensures ClassifyRegistration(Some(e), now).status == Expired <==> e <= now
  {
  }

  /** The text of time_remaining. */
  function SpanText(s: BD.Span): string
  {
    IntToString(s.hours) + "h " + IntToString(s.minutes) + "m"
  }

  // ---------------------------------------------------------------- rows and listings

  /** A row of the bunkers table as the admin panel reads it; the bot leaves the timer columns
      empty until a bunker is registered. */
  datatype BunkerRecord = BunkerRecord(guild: string, sector: string, name: string, serverName: string,
                                       registeredTime: Option<real>, expiryTime: Option<real>,
                                       registeredBy: Option<string>, discordUserId: Option<string>,
                                       lastUpdated: Option<real>)

  /** The WHERE clause of the listings: the guild's rows, and the server's when a non-empty
      server name is given. */
  predicate Matches(r: BunkerRecord, guild: string, serverName: Option<string>)
  {
    r.guild == guild && (serverName.None? || serverName.value == "" || r.serverName == serverName.value)
  }

  /** The rows the WHERE clause keeps, in table order; the COUNT(*) of the listing counts them. */
  function Matching(table: seq<(int, BunkerRecord)>, guild: string, serverName: Option<string>): (rows: seq<(int, BunkerRecord)>)
    ensures |rows| <= |table|
  {
    if table == [] then []
    else
      var rest := Matching(table[..|table| - 1], guild, serverName);
      var row := table[|table| - 1];
      if Matches(row.1, guild, serverName) then rest + [row] else rest
  }

  /** The WHERE clause keeps exactly the matching rows of the table. */
  lemma {:induction false} MatchingExact(table: seq<(int, BunkerRecord)>, guild: string, serverName: Option<string>)
    ensures forall x :: x in Matching(table, guild, serverName) <==> x in table && Matches(x.1, guild, serverName)
  {
    if table != [] {
      MatchingExact(table[..|table| - 1], guild, serverName);
      assert table == table[..|table| - 1] + [table[|table| - 1]];
    }
  }

  // ---------------------------------------------------------------- query order

  /** CASE WHEN expiry_time > now THEN 1 ELSE 2 END: timers still running come first; a NULL
      expiry is greater than nothing, so it falls into the second group. */
  function RunningRank(r: BunkerRecord, now: real): int
  {
    if r.expiryTime.Some? && r.expiryTime.value > now then 1 else 2
  }

  /** expiry_time DESC: a later expiry first; SQLite orders NULL below every value, so a NULL
      expiry comes after every present one. */
  predicate ExpiryLater(a: Option<real>, b: Option<real>)
  {
    a.Some? && (b.None? || a.value > b.value)
  }

  /** a comes strictly before b in the ORDER BY of both listings. */
  predicate QueryBefore(a: BunkerRecord, b: BunkerRecord, now: real)
  {
    RunningRank(a, now) < RunningRank(b, now)
    || (RunningRank(a, now) == RunningRank(b, now) && ExpiryLater(a.expiryTime, b.expiryTime))
  }

  lemma QueryBeforeTransitive(a: BunkerRecord, b: BunkerRecord, c: BunkerRecord, now: real)
    requires QueryBefore(a, b, now) && QueryBefore(b, c, now)
    ensures QueryBefore(a, c, now)
  {
  }

  /** No row is followed by one the ORDER BY puts strictly before it. */
  predicate QuerySorted(rows: seq<(int, BunkerRecord)>, now: real)
  {
    forall i, j :: 0 <= i < j < |rows| ==> !QueryBefore(rows[j].1, rows[i].1, now)
  }

  /** x put before the first row it strictly precedes; rows the ORDER BY ties stay in table
      order (SQLite leaves their order open). */
  function InsertByQuery(x: (int, BunkerRecord), s: seq<(int, BunkerRecord)>, now: real): seq<(int, BunkerRecord)>
  {
    if s == [] then [x]
    else if QueryBefore(x.1, s[0].1, now) then [x] + s
    else [s[0]] + InsertByQuery(x, s[1..], now)
  }

  function SortByQuery(rows: seq<(int, BunkerRecord)>, now: real): seq<(int, BunkerRecord)>
  {
    if rows == [] then []
    else InsertByQuery(rows[|rows| - 1], SortByQuery(rows[..|rows| - 1], now), now)
  }

  /** Inserting adds exactly the one row. */
  lemma {:induction false} InsertByQueryCount(x: (int, BunkerRecord), s: seq<(int, BunkerRecord)>, now: real)
    ensures multiset(InsertByQuery(x, s, now)) == multiset(s) + multiset{x}
  {
    if s != [] && !QueryBefore(x.1, s[0].1, now) {
      InsertByQueryCount(x, s[1..], now);
      assert s == [s[0]] + s[1..];
    }
  }

  /** A row that no later row strictly precedes can head a sorted list. */
  lemma ConsSorted(a: (int, BunkerRecord), s: seq<(int, BunkerRecord)>, now: real)
    requires QuerySorted(s, now)
    requires forall j :: 0 <= j < |s| ==> !QueryBefore(s[j].1, a.1, now)
    ensures QuerySorted([a] + s, now)
  {
    var r := [a] + s;
    forall i, j | 0 <= i < j < |r|
      ensures !QueryBefore(r[j].1, r[i].1, now)
    {
      assert r[j] == s[j - 1];
      if i > 0 {
        assert r[i] == s[i - 1];
      }
    }
  }

  /** A row strictly before the head of a sorted list is strictly before none of it after. */
  lemma BeforeHeadBeforeAll(x: (int, BunkerRecord), s: seq<(int, BunkerRecord)>, now: real)
    requires QuerySorted(s, now) && s != [] && QueryBefore(x.1, s[0].1, now)
    ensures forall j :: 0 <= j < |s| ==> !QueryBefore(s[j].1, x.1, now)
  {
    forall j | 0 <= j < |s|
      ensures !QueryBefore(s[j].1, x.1, now)
    {
      if QueryBefore(s[j].1, x.1, now) {
        QueryBeforeTransitive(s[j].1, x.1, s[0].1, now);
      }
    }
  }

  lemma {:induction false} InsertByQuerySorted(x: (int, BunkerRecord), s: seq<(int, BunkerRecord)>, now: real)
    requires QuerySorted(s, now)
    ensures QuerySorted(InsertByQuery(x, s, now), now)
  {
    if s == [] {
    } else if QueryBefore(x.1, s[0].1, now) {
      BeforeHeadBeforeAll(x, s, now);
      ConsSorted(x, s, now);
    } else {
      assert QuerySorted(s[1..], now);
      InsertByQuerySorted(x, s[1..], now);
      InsertByQueryCount(x, s[1..], now);
      var tail := InsertByQuery(x, s[1..], now);
      forall j | 0 <= j < |tail|
        ensures !QueryBefore(tail[j].1, s[0].1, now)
      {
        assert tail[j] in multiset(tail);
        if tail[j] != x {
          assert tail[j] in s[1..];
          var k :| 0 <= k < |s[1..]| && s[1..][k] == tail[j];
          assert s[k + 1] == tail[j];
        }
      }
      ConsSorted(s[0], tail, now);
    }
  }

  /** The insertion sort puts the rows in query order and keeps every row exactly once. */
  lemma {:induction false} SortByQueryOrders(rows: seq<(int, BunkerRecord)>, now: real)
    ensures QuerySorted(SortByQuery(rows, now), now)
    ensures multiset(SortByQuery(rows, now)) == multiset(rows)
  {
    if rows != [] {
      var init := rows[..|rows| - 1];
      SortByQueryOrders(init, now);
      InsertByQuerySorted(rows[|rows| - 1], SortByQuery(init, now), now);
      InsertByQueryCount(rows[|rows| - 1], SortByQuery(init, now), now);
      assert rows == init + [rows[|rows| - 1]];
    }
  }

  /** The rows a listing selects: those of the WHERE clause, in the order of the ORDER BY. */
  function Selected(table: seq<(int, BunkerRecord)>, guild: string, serverName: Option<string>, now: real): seq<(int, BunkerRecord)>
  {
    SortByQuery(Matching(table, guild, serverName), now)
  }

  /** The selection holds each matching row once, running timers before the others, later
      expiries before earlier ones within a group, and rows without an expiry last. */
  lemma SelectedQueryOrder(table: seq<(int, BunkerRecord)>, guild: string, serverName: Option<string>, now: real)
    ensures multiset(Selected(table, guild, serverName, now)) == multiset(Matching(table, guild, serverName))
    ensures var sel := Selected(table, guild, serverName, now);
      forall i, j :: 0 <= i < j < |sel| ==>
        && (RunningRank(sel[j].1, now) == 1 ==> RunningRank(sel[i].1, now) == 1)
        && (sel[i].1.expiryTime.None? ==> sel[j].1.expiryTime.None?)
        && (RunningRank(sel[i].1, now) == RunningRank(sel[j].1, now) && sel[j].1.expiryTime.Some? ==>
              sel[i].1.expiryTime.Some? && sel[i].1.expiryTime.value >= sel[j].1.expiryTime.value)
  {
    SortByQueryOrders(Matching(table, guild, serverName), now);
  }

  /** SQL's LIMIT size OFFSET offset. */
  function Window<T>(rows: seq<T>, offset: nat, size: nat): (w: seq<T>)
    ensures |w| <= size
  {
    if offset >= |rows| then []
    else if offset + size <= |rows| then rows[offset..offset + size]
    else rows[offset..]
  }

  /** One listed registration: the row's id, the row and its classification. */
  datatype Registration = Registration(id: int, row: BunkerRecord, info: Classified)

  function Listed(rows: seq<(int, BunkerRecord)>, now: real): (regs: seq<Registration>)
    ensures |regs| == |rows|
    ensures forall i :: 0 <= i < |rows| ==>
      regs[i] == Registration(rows[i].0, rows[i].1, ClassifyRegistration(rows[i].1.expiryTime, now))
  {
    if rows == [] then []
    else Listed(rows[..|rows| - 1], now) + [Registration(rows[|rows| - 1].0, rows[|rows| - 1].1,
                                                        ClassifyRegistration(rows[|rows| - 1].1.expiryTime, now))]
  }

  /** The registrations a status filter keeps (all of them without a filter). */
  function FilterStatus(regs: seq<Registration>, filter: Option<RegStatus>): seq<Registration>
  {
    if regs == [] then []
    else
      var rest := FilterStatus(regs[..|regs| - 1], filter);
      var last := regs[|regs| - 1];
      if filter.None? || last.info.status == filter.value then rest + [last] else rest
  }

  /** The filter keeps exactly the registrations of the requested status. */
  lemma {:induction false} FilterStatusExact(regs: seq<Registration>, filter: Option<RegStatus>)
    ensures forall r :: r in FilterStatus(regs, filter) <==> r in regs && (filter.None? || r.info.status == filter.value)
  {
    if regs != [] {
      FilterStatusExact(regs[..|regs| - 1], filter);
      assert regs == regs[..|regs| - 1] + [regs[|regs| - 1]];
    }
  }

  /** How many rows have a timer of the given status. */
  function CountStatus(rows: seq<(int, BunkerRecord)>, s: RegStatus, now: real): (n: nat)
    ensures n <= |rows|
  {
    if rows == [] then 0
    else CountStatus(rows[..|rows| - 1], s, now)
         + (if ClassifyRegistration(rows[|rows| - 1].1.expiryTime, now).status == s then 1 else 0)
  }

  /** Every row of the page carries the columns the response model requires. */
  predicate FitsResponse(r: BunkerRecord)
  {
    r.registeredTime.Some? && r.expiryTime.Some? && r.registeredBy.Some? && r.discordUserId.Some? && r.lastUpdated.Some?
  }

  predicate PageFits(rows: seq<(int, BunkerRecord)>)
  {
    forall i :: 0 <= i < |rows| ==> FitsResponse(rows[i].1)
  }

  /** BunkerRegistrationList. */
  datatype Listing = Listing(bunkers: seq<Registration>, total: int, active: int, expired: int, nearExpiry: int,
                             page: int, pageSize: int)

  /** The rows of one page of the listing. */
  function PageRows(table: seq<(int, BunkerRecord)>, guild: string, serverName: Option<string>, page: int, pageSize: int, now: real): seq<(int, BunkerRecord)>
    requires page >= 1 && pageSize >= 1
  {
    Window(Selected(table, guild, serverName, now), (page - 1) * pageSize, pageSize)
  }

  /** Extending the page prefix by one row appends its registration, bumps the counter of its
      status, and keeps the prefix listable exactly when the row fits. */
  lemma PageStep(rows: seq<(int, BunkerRecord)>, i: int, now: real)
    requires 0 <= i < |rows|
    ensures var reg := Registration(rows[i].0, rows[i].1, ClassifyRegistration(rows[i].1.expiryTime, now));
      && Listed(rows[..i + 1], now) == Listed(rows[..i], now) + [reg]
      && (forall s :: CountStatus(rows[..i + 1], s, now) == CountStatus(rows[..i], s, now) + (if reg.info.status == s then 1 else 0))
      && (PageFits(rows[..i + 1]) <==> PageFits(rows[..i]) && FitsResponse(rows[i].1))
  {
    assert rows[..i + 1][..i] == rows[..i];
  }

  /** The loop of get_bunker_registrations: each row of the page is classified and counted, and
      the first row missing a column the response model requires stops the page. */
  method ClassifyPage(rows: seq<(int, BunkerRecord)>, now: real)
    returns (fits: bool, bunkers: seq<Registration>, active: int, expired: int, nearExpiry: int)
    ensures fits == PageFits(rows)
    ensures fits ==> (bunkers == Listed(rows, now) && active == CountStatus(rows, Active, now)
                      && expired == CountStatus(rows, Expired, now) && nearExpiry == CountStatus(rows, NearExpiry, now))
  {
    bunkers := [];
    active, expired, nearExpiry := 0, 0, 0;
    for i := 0 to |rows|
      invariant bunkers == Listed(rows[..i], now)
      invariant active == CountStatus(rows[..i], Active, now)
      invariant expired == CountStatus(rows[..i], Expired, now)
      invariant nearExpiry == CountStatus(rows[..i], NearExpiry, now)
      invariant PageFits(rows[..i])
    {
      PageStep(rows, i, now);
      var (id, row) := rows[i];
      var info := ClassifyRegistration(row.expiryTime, now);
      if info.status == NearExpiry {
        nearExpiry := nearExpiry + 1;
      } else if info.status == Active {
        active := active + 1;
      } else if info.status == Expired {
        expired := expired + 1;
      }
      if !FitsResponse(row) {
        return false, bunkers, active, expired, nearExpiry;
      }
      bunkers := bunkers + [Registration(id, row, info)];
    }
    assert rows[..|rows|] == rows;
    fits := true;
  }

  /** get_bunker_registrations as written: the page is classified row by row and counted, then
      filtered by status; a row missing a column the response model requires fails the request. */
  method GetBunkerRegistrations(caller: Caller, guild: string, serverName: Option<string>, statusFilter: Option<RegStatus>,
                                page: int, pageSize: int, table: seq<(int, BunkerRecord)>, now: real)
    returns (r: Result<Listing, HttpError>)
    ensures !(page >= 1 && 1 <= pageSize <= 200) ==> r == Err(HttpError(422, "Invalid query parameters"))
    ensures page >= 1 && 1 <= pageSize <= 200 ==>
      var rows := PageRows(table, guild, serverName, page, pageSize, now);
      && (CheckGuildAccess(caller, guild).Some? ==> r == Err(CheckGuildAccess(caller, guild).value))
      && (CheckGuildAccess(caller, guild).None? && !PageFits(rows) ==> r == Err(HttpError(500, "Internal Server Error")))
      && (CheckGuildAccess(caller, guild).None? && PageFits(rows) ==>
            r == Ok(Listing(FilterStatus(Listed(rows, now), statusFilter), |Matching(table, guild, serverName)|,
                            CountStatus(rows, Active, now), CountStatus(rows, Expired, now),
                            CountStatus(rows, NearExpiry, now), page, pageSize)))
  {
    if !(page >= 1 && 1 <= pageSize <= 200) {
      return Err(HttpError(422, "Invalid query parameters"));
    }
    var refusal := CheckGuildAccess(caller, guild);
    if refusal.Some? {
      return Err(refusal.value);
    }
    var total := |Matching(table, guild, serverName)|;
    var offset := (page - 1) * pageSize;
    var rows := Window(Selected(table, guild, serverName, now), offset, pageSize);
    var fits, bunkers, active, expired, nearExpiry := ClassifyPage(rows, now);
    if !fits {
      return Err(HttpError(500, "Internal Server Error"));
    }
    bunkers := FilterStatus(bunkers, statusFilter);
    r := Ok(Listing(bunkers, total, active, expired, nearExpiry, page, pageSize));
  }

  /** A listing that succeeds never shows the "unknown" status: a row without an expiry is
      exactly a row the response model refuses. */
  lemma UnknownNeverListed(rows: seq<(int, BunkerRecord)>, now: real)
    requires PageFits(rows)
    ensures forall reg :: reg in Listed(rows, now) ==> reg.info.status != Unknown
  {
  }

  /** A page holding a bunker that was never registered (the bot creates its bunkers that way)
      cannot be listed. */
  lemma UnregisteredRowBreaksPage(rows: seq<(int, BunkerRecord)>, i: int)
    requires 0 <= i < |rows| && rows[i].1.expiryTime.None?
    ensures !PageFits(rows)
  {
  }

  /** The listing as evidently intended: unregistered rows are listed as "unknown" instead of
      failing the request. */
  function GetBunkerRegistrationsIntended(caller: Caller, guild: string, serverName: Option<string>, statusFilter: Option<RegStatus>,
                                          page: int, pageSize: int, table: seq<(int, BunkerRecord)>, now: real)
    : (r: Result<Listing, HttpError>)
    ensures r.Err? <==> !(page >= 1 && 1 <= pageSize <= 200) || CheckGuildAccess(caller, guild).Some?
    ensures r.Ok? ==> r.value.total == |Matching(table, guild, serverName)|
  {
    if !(page >= 1 && 1 <= pageSize <= 200) then Err(HttpError(422, "Invalid query parameters"))
    else if CheckGuildAccess(caller, guild).Some? then Err(CheckGuildAccess(caller, guild).value)
    else
      var rows := PageRows(table, guild, serverName, page, pageSize, now);
      Ok(Listing(FilterStatus(Listed(rows, now), statusFilter), |Matching(table, guild, serverName)|,
                 CountStatus(rows, Active, now), CountStatus(rows, Expired, now),
                 CountStatus(rows, NearExpiry, now), page, pageSize))
  }

  /** In the intended listing, without a status filter, every row of the page is listed in order,
      the unregistered ones as "unknown", and the counters add up to the registered ones. */
  lemma {:induction false} IntendedListsWholePage(rows: seq<(int, BunkerRecord)>, now: real)
    ensures |FilterStatus(Listed(rows, now), None)| == |rows|
    ensures forall i :: 0 <= i < |rows| && rows[i].1.expiryTime.None? ==>
      FilterStatus(Listed(rows, now), None)[i].info.status == Unknown
    ensures CountStatus(rows, Active, now) + CountStatus(rows, Expired, now) + CountStatus(rows, NearExpiry, now)
            + CountStatus(rows, Unknown, now) == |rows|
  {
    if rows != [] {
      var init := rows[..|rows| - 1];
      IntendedListsWholePage(init, now);
      assert Listed(rows, now)[..|rows| - 1] == Listed(init, now);
    }
  }

  // ---------------------------------------------------------------- the admin store

  /** A row of admin_bunker_servers. */
  datatype AdminServer = AdminServer(guild: string, name: string, displayName: string, description: Option<string>,
                                     maxBunkers: int, isActive: bool, defaultChannels: Option<seq<string>>,
                                     createdBy: string, updatedAt: real)

  /** A row of admin_bunker_sectors. */
  datatype AdminSector = AdminSector(guild: string, sector: string, name: string, coordinates: Option<string>,
                                     description: Option<string>, defaultDurationHours: int,
                                     notificationEnabled: bool, isActive: bool, createdBy: string, updatedAt: real)

  /** The body of a server update: every field optional. */
  datatype ServerUpdate = ServerUpdate(name: Option<string>, displayName: Option<string>, description: Option<string>,
                                       maxBunkers: Option<int>, isActive: Option<bool>, defaultChannels: Option<seq<string>>)

  predicate NoFields(u: ServerUpdate)
  {
    u.name.None? && u.displayName.None? && u.description.None? && u.maxBunkers.None? && u.isActive.None? && u.defaultChannels.None?
  }

  /** The server after an update: given fields replaced, updated_at set. */
  function Applied(s: AdminServer, u: ServerUpdate, now: real): AdminServer
  {
    s.(name := u.name.GetOr(s.name), displayName := u.displayName.GetOr(s.displayName),
       description := if u.description.Some? then u.description else s.description,
       maxBunkers := u.maxBunkers.GetOr(s.maxBunkers), isActive := u.isActive.GetOr(s.isActive),
       defaultChannels := if u.defaultChannels.Some? then u.defaultChannels else s.defaultChannels,
       updatedAt := now)
  }

  /** An update sets exactly the given fields and never moves the server to another guild or
      changes who created it. */
  lemma AppliedSetsOnlyGivenFields(s: AdminServer, u: ServerUpdate, now: real)
    ensures var t := Applied(s, u, now);
      && t.guild == s.guild && t.createdBy == s.createdBy && t.updatedAt == now
      && (u.name.None? ==> t.name == s.name) && (u.name.Some? ==> t.name == u.name.value)
      && (u.displayName.None? ==> t.displayName == s.displayName) && (u.displayName.Some? ==> t.displayName == u.displayName.value)
      && (u.description.None? ==> t.description == s.description) && (u.description.Some? ==> t.description == u.description)
      && (u.maxBunkers.None? ==> t.maxBunkers == s.maxBunkers) && (u.maxBunkers.Some? ==> t.maxBunkers == u.maxBunkers.value)
      && (u.isActive.None? ==> t.isActive == s.isActive) && (u.isActive.Some? ==> t.isActive == u.isActive.value)
      && (u.defaultChannels.None? ==> t.defaultChannels == s.defaultChannels)
      && (u.defaultChannels.Some? ==> t.defaultChannels == u.defaultChannels)
  {
  }

  /** UNIQUE(guild_id, name) of admin_bunker_servers: another server of the guild already has
      the name. */
  predicate NameClash(servers: map<int, AdminServer>, guild: string, serverId: int, name: string)
  {
    exists k :: k in servers && k != serverId && servers[k].guild == guild && servers[k].name == name
  }

  /** A manual registration request. */
  datatype ManualRegistration = ManualRegistration(serverName: string, sector: string, hours: int, minutes: int, registeredBy: string)

  /** The reply of a manual registration. */
  datatype RegisterReply = RegisterReply(message: string, sector: string, server: string, expiry: real, duration: string)

  predicate SameBunker(a: BunkerRecord, b: BunkerRecord)
  {
    a.sector == b.sector && a.serverName == b.serverName && a.guild == b.guild
  }

  /** INSERT OR REPLACE under UNIQUE(sector, server_name, discord_guild_id): the row with the same
      key, if any, goes and the new one comes in under a new id. */
  function Upserted(bunkers: map<int, BunkerRecord>, id: int, rec: BunkerRecord): map<int, BunkerRecord>
  {
    (map k | k in bunkers && !SameBunker(bunkers[k], rec) :: bunkers[k])[id := rec]
  }

  /** After an upsert the new row is the only one with its key, and every row with another key
      is kept under its id. */
  lemma UpsertKeepsOneRowPerKey(bunkers: map<int, BunkerRecord>, id: int, rec: BunkerRecord)
    requires id !in bunkers
    ensures var b := Upserted(bunkers, id, rec);
      && id in b && b[id] == rec
      && (forall k :: k in b && SameBunker(b[k], rec) ==> k == id)
      && (forall k :: k in bunkers && !SameBunker(bunkers[k], rec) ==> k in b && b[k] == bunkers[k])
  {
  }

  predicate HasActiveSector(sectors: map<int, AdminSector>, guild: string, sector: string)
  {
    exists k :: k in sectors && sectors[k].guild == guild && sectors[k].sector == sector && sectors[k].isActive
  }

  predicate HasActiveServer(servers: map<int, AdminServer>, guild: string, name: string)
  {
    exists k :: k in servers && servers[k].guild == guild && servers[k].name == name && servers[k].isActive
  }

  /** The row a manual registration writes: the sector uppercased and used as the name too. */
  function ManualRecord(guild: string, reg: ManualRegistration, userId: string, now: real): BunkerRecord
  {
    var sector := ToUpper(reg.sector);
    BunkerRecord(guild, sector, sector, reg.serverName, Some(now), Some(ManualExpiry(reg, now)),
                 Some(reg.registeredBy), Some(userId), Some(now))
  }

  /** now + timedelta(hours=h, minutes=m). */
  function ManualExpiry(reg: ManualRegistration, now: real): real
  {
    now + (reg.hours * 3600 + reg.minutes * 60) as real
  }

  function ManualReply(reg: ManualRegistration, now: real): RegisterReply
  {
    RegisterReply("Bunker " + reg.sector + " registered successfully", ToUpper(reg.sector), reg.serverName,
                  ManualExpiry(reg, now), IntToString(reg.hours) + "h " + IntToString(reg.minutes) + "m")
  }

  /** A manual registration lasting more than 30 minutes starts active, a shorter one near
      expiry, and one of zero length already expired. */
  lemma ManualRegistrationStatus(reg: ManualRegistration, now: real)
    ensures var c := ClassifyRegistration(Some(ManualExpiry(reg, now)), now);
      var d := reg.hours * 3600 + reg.minutes * 60;
      && (d > 1800 ==> c.status == Active)
      && (0 < d <= 1800 ==> c.status == NearExpiry)
      && (d <= 0 ==> c.status == Expired)
  {
  }

  class AdminBunkerStore {
    var servers: map<int, AdminServer>
    var sectors: map<int, AdminSector>
    var bunkers: map<int, BunkerRecord>
    var nextServerId: int
    var nextSectorId: int
    var nextBunkerId: int

    /** Fresh ids are above every id in use. */
    ghost predicate Valid()
      reads this
    {
      && (forall k :: k in servers ==> k < nextServerId)
      && (forall k :: k in sectors ==> k < nextSectorId)
      && (forall k :: k in bunkers ==> k < nextBunkerId)
    }

    constructor ()
      ensures servers == map[] && sectors == map[] && bunkers == map[]
      ensures nextServerId == 1 && nextSectorId == 1 && nextBunkerId == 1
      ensures Valid()
    {
      servers, sectors, bunkers := map[], map[], map[];
      nextServerId, nextSectorId, nextBunkerId := 1, 1, 1;
    }

    /** update_server: 403 without access to the guild, 404 for a server of another guild or
        none, 400 for a body without fields, 500 when the new name is another server's of the
        guild (the UPDATE breaks the table's uniqueness constraint); otherwise the given fields
        are written. */
    method UpdateServer(caller: Caller, guild: string, serverId: int, u: ServerUpdate, now: real)
      returns (r: Result<AdminServer, HttpError>)
      modifies this
      ensures sectors == old(sectors) && bunkers == old(bunkers)
      ensures nextServerId == old(nextServerId) && nextSectorId == old(nextSectorId) && nextBunkerId == old(nextBunkerId)
      ensures CheckGuildAccess(caller, guild).Some? ==> r == Err(CheckGuildAccess(caller, guild).value)
      ensures CheckGuildAccess(caller, guild).None? && !(serverId in old(servers) && old(servers)[serverId].guild == guild) ==>
        r == Err(HttpError(404, "Server not found"))
      ensures CheckGuildAccess(caller, guild).None? && serverId in old(servers) && old(servers)[serverId].guild == guild && NoFields(u) ==>
        r == Err(HttpError(400, "No fields to update"))
      ensures CheckGuildAccess(caller, guild).None? && serverId in old(servers) && old(servers)[serverId].guild == guild && !NoFields(u)
              && u.name.Some? && NameClash(old(servers), guild, serverId, u.name.value) ==>
        r == Err(HttpError(500, "Internal Server Error"))
      ensures r.Ok? <==> && CheckGuildAccess(caller, guild).None?
                         && serverId in old(servers) && old(servers)[serverId].guild == guild && !NoFields(u)
                         && !(u.name.Some? && NameClash(old(servers), guild, serverId, u.name.value))
      ensures r.Err? ==> servers == old(servers)
      ensures r.Ok? ==> && serverId in old(servers)
                        && servers == old(servers)[serverId := Applied(old(servers)[serverId], u, now)]
                        && r.value == servers[serverId]
      ensures old(Valid()) ==> Valid()
    {
      var refusal := CheckGuildAccess(caller, guild);
      if refusal.Some? {
        return Err(refusal.value);
      }
      if !(serverId in servers && servers[serverId].guild == guild) {
        return Err(HttpError(404, "Server not found"));
      }
      if NoFields(u) {
        return Err(HttpError(400, "No fields to update"));
      }
      if u.name.Some? && NameClash(servers, guild, serverId, u.name.value) {
        return Err(HttpError(500, "Internal Server Error"));
      }
      servers := servers[serverId := Applied(servers[serverId], u, now)];
      r := Ok(servers[serverId]);
    }

    /** register_bunker_manual: 403 without access, 400 unless the uppercased sector and the
        server are active in the guild; otherwise the bunker's row is replaced by the new
        registration, made by the calling user. */
    method RegisterBunkerManual(caller: Caller, guild: string, reg: ManualRegistration, now: real)
      returns (r: Result<RegisterReply, HttpError>)
      modifies this
      ensures servers == old(servers) && sectors == old(sectors)
      ensures nextServerId == old(nextServerId) && nextSectorId == old(nextSectorId)
      ensures r.Ok? <==> && CheckGuildAccess(caller, guild).None?
                         && HasActiveSector(old(sectors), guild, ToUpper(reg.sector))
                         && HasActiveServer(old(servers), guild, reg.serverName)
      ensures CheckGuildAccess(caller, guild).Some? ==> r == Err(CheckGuildAccess(caller, guild).value)
      ensures r.Err? ==> bunkers == old(bunkers) && nextBunkerId == old(nextBunkerId)
      ensures r.Err? && CheckGuildAccess(caller, guild).None? ==> r.error.status == 400
      ensures r.Ok? ==> && bunkers == Upserted(old(bunkers), old(nextBunkerId), ManualRecord(guild, reg, caller.userId, now))
                        && nextBunkerId == old(nextBunkerId) + 1
                        && r.value == ManualReply(reg, now)
      ensures old(Valid()) ==> Valid()
    {
      var refusal := CheckGuildAccess(caller, guild);
      if refusal.Some? {
        return Err(refusal.value);
      }
      r := RegisterChecked(guild, reg, caller.userId, now);
    }

    /** The part of a manual registration both API variants share: the sector and server checks
        and the upsert, with the given discord_user_id. */
    method RegisterChecked(guild: string, reg: ManualRegistration, userId: string, now: real)
      returns (r: Result<RegisterReply, HttpError>)
      modifies this
      ensures servers == old(servers) && sectors == old(sectors)
      ensures nextServerId == old(nextServerId) && nextSectorId == old(nextSectorId)
      ensures r.Ok? <==> HasActiveSector(old(sectors), guild, ToUpper(reg.sector)) && HasActiveServer(old(servers), guild, reg.serverName)
      ensures r.Err? ==> bunkers == old(bunkers) && nextBunkerId == old(nextBunkerId) && r.error.status == 400
      ensures r.Ok? ==> && bunkers == Upserted(old(bunkers), old(nextBunkerId), ManualRecord(guild, reg, userId, now))
                        && nextBunkerId == old(nextBunkerId) + 1
                        && r.value == ManualReply(reg, now)
      ensures old(Valid()) ==> Valid()
    {
      if !HasActiveSector(sectors, guild, ToUpper(reg.sector)) {
        return Err(HttpError(400, "Sector " + reg.sector + " not found or inactive"));
      }
      if !HasActiveServer(servers, guild, reg.serverName) {
        return Err(HttpError(400, "Server " + reg.serverName + " not found or inactive"));
      }
      bunkers := Upserted(bunkers, nextBunkerId, ManualRecord(guild, reg, userId, now));
      nextBunkerId := nextBunkerId + 1;
      r := Ok(ManualReply(reg, now));
    }
  }
}
