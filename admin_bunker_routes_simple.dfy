/** The simplified bunker API of the admin panel, which takes the guild from the request instead
    of checking the caller: server and sector creation, manual registration and its cancellation,
    the registration listing with string statuses, and the overview counters. It works on the
    same tables as the full API. */
module AdminBunkerRoutesSimple {
  import opened Wrappers
  import opened Text
  import opened AdminBunkerRoutes
  import SW = SlidingWindow

  // ---------------------------------------------------------------- creation

  datatype CreateServerRequest = CreateServerRequest(guild: string, name: string, displayName: string,
                                                     description: Option<string>, maxBunkers: int)

  datatype CreateSectorRequest = CreateSectorRequest(guild: string, sector: string, name: string, coordinates: Option<string>,
                                                     description: Option<string>, defaultDurationHours: int)

  predicate ServerNameTaken(servers: map<int, AdminServer>, guild: string, name: string)
  {
    exists k :: k in servers && servers[k].guild == guild && servers[k].name == name
  }

  predicate SectorTaken(sectors: map<int, AdminSector>, guild: string, sector: string)
  {
    exists k :: k in sectors && sectors[k].guild == guild && sectors[k].sector == sector
  }

  /** The row create_server inserts: active, created by "admin". */
  function NewServer(req: CreateServerRequest, now: real): AdminServer
  {
    AdminServer(req.guild, req.name, req.displayName, req.description, req.maxBunkers, true, None, "admin", now)
  }

  /** The row create_sector inserts: the code uppercased, notifications on, active. */
  function NewSector(req: CreateSectorRequest, now: real): AdminSector
  {
    AdminSector(req.guild, ToUpper(req.sector), req.name, req.coordinates, req.description,
                req.defaultDurationHours, true, true, "admin", now)
  }

  /** create_server: 409 when the guild already has a server of that name, otherwise a new active
      row under a fresh id. */
  method CreateServer(store: AdminBunkerStore, req: CreateServerRequest, now: real)
    returns (r: Result<(int, AdminServer), HttpError>)
    modifies store
    ensures store.sectors == old(store.sectors) && store.bunkers == old(store.bunkers)
    ensures store.nextSectorId == old(store.nextSectorId) && store.nextBunkerId == old(store.nextBunkerId)
    ensures r.Err? <==> ServerNameTaken(old(store.servers), req.guild, req.name)
    ensures r.Err? ==> r.error.status == 409 && store.servers == old(store.servers) && store.nextServerId == old(store.nextServerId)
    ensures r.Ok? ==> && r.value == (old(store.nextServerId), NewServer(req, now))
                      && store.servers == old(store.servers)[old(store.nextServerId) := NewServer(req, now)]
                      && store.nextServerId == old(store.nextServerId) + 1
    ensures old(store.Valid()) ==> store.Valid()
  {
    if ServerNameTaken(store.servers, req.guild, req.name) {
      return Err(HttpError(409, "Server name already exists"));
    }
    var id := store.nextServerId;
    store.servers := store.servers[id := NewServer(req, now)];
    store.nextServerId := id + 1;
    r := Ok((id, NewServer(req, now)));
  }

  /** create_sector: 409 when the guild already has the uppercased code, otherwise a new row
      holding the code uppercased. */
  method CreateSector(store: AdminBunkerStore, req: CreateSectorRequest, now: real)
    returns (r: Result<(int, AdminSector), HttpError>)
    modifies store
    ensures store.servers == old(store.servers) && store.bunkers == old(store.bunkers)
    ensures store.nextServerId == old(store.nextServerId) && store.nextBunkerId == old(store.nextBunkerId)
    ensures r.Err? <==> SectorTaken(old(store.sectors), req.guild, ToUpper(req.sector))
    ensures r.Err? ==> r.error.status == 409 && store.sectors == old(store.sectors) && store.nextSectorId == old(store.nextSectorId)
    ensures r.Ok? ==> && r.value == (old(store.nextSectorId), NewSector(req, now))
                      && store.sectors == old(store.sectors)[old(store.nextSectorId) := NewSector(req, now)]
                      && store.nextSectorId == old(store.nextSectorId) + 1
    ensures old(store.Valid()) ==> store.Valid()
  {
    if SectorTaken(store.sectors, req.guild, ToUpper(req.sector)) {
      return Err(HttpError(409, "Sector already exists"));
    }
    var id := store.nextSectorId;
    store.sectors := store.sectors[id := NewSector(req, now)];
    store.nextSectorId := id + 1;
    r := Ok((id, NewSector(req, now)));
  }

  /** Once a sector is created, creating it again in the same guild, in any letter case, is
      refused. */
  lemma SectorCodesStayUnique(sectors: map<int, AdminSector>, id: int, req: CreateSectorRequest, again: CreateSectorRequest, now: real)
    requires again.guild == req.guild && ToUpper(again.sector) == ToUpper(req.sector)
    ensures SectorTaken(sectors[id := NewSector(req, now)], again.guild, ToUpper(again.sector))
  {
    assert sectors[id := NewSector(req, now)][id] == NewSector(req, now);
  }

  // ---------------------------------------------------------------- registrations

  /** register_bunker_manual of the simplified API: the guild comes with the request and the
      registration is recorded under the user id "admin". */
  method RegisterBunkerManual(store: AdminBunkerStore, guild: string, reg: ManualRegistration, now: real)
    returns (r: Result<RegisterReply, HttpError>)
    modifies store
    ensures store.servers == old(store.servers) && store.sectors == old(store.sectors)
    ensures store.nextServerId == old(store.nextServerId) && store.nextSectorId == old(store.nextSectorId)
    ensures r.Ok? <==> HasActiveSector(old(store.sectors), guild, ToUpper(reg.sector)) && HasActiveServer(old(store.servers), guild, reg.serverName)
    ensures r.Err? ==> store.bunkers == old(store.bunkers) && store.nextBunkerId == old(store.nextBunkerId) && r.error.status == 400
    ensures r.Ok? ==> && store.bunkers == Upserted(old(store.bunkers), old(store.nextBunkerId), ManualRecord(guild, reg, "admin", now))
                      && store.nextBunkerId == old(store.nextBunkerId) + 1
                      && r.value == ManualReply(reg, now)
    ensures old(store.Valid()) ==> store.Valid()
  {
    r := store.RegisterChecked(guild, reg, "admin", now);
  }

  /** cancel_bunker_registration: 404 for an id that is absent or belongs to another guild, and
      then nothing is deleted; otherwise exactly that row goes. */
  method CancelBunkerRegistration(store: AdminBunkerStore, bunkerId: int, guild: string)
    returns (r: Result<string, HttpError>)
    modifies store
    ensures store.servers == old(store.servers) && store.sectors == old(store.sectors)
    ensures store.nextServerId == old(store.nextServerId) && store.nextSectorId == old(store.nextSectorId)
    ensures store.nextBunkerId == old(store.nextBunkerId)
    ensures r.Ok? <==> bunkerId in old(store.bunkers) && old(store.bunkers)[bunkerId].guild == guild
    ensures r.Err? ==> r.error == HttpError(404, "Bunker registration not found") && store.bunkers == old(store.bunkers)
    ensures r.Ok? ==> store.bunkers == old(store.bunkers) - {bunkerId}
    ensures old(store.Valid()) ==> store.Valid()
  {
    if !(bunkerId in store.bunkers && store.bunkers[bunkerId].guild == guild) {
      return Err(HttpError(404, "Bunker registration not found"));
    }
    var sector := store.bunkers[bunkerId].sector;
    store.bunkers := store.bunkers - {bunkerId};
    r := Ok("Bunker registration " + sector + " cancelled successfully");
  }

  /** One entry of the simplified listing: the stored times as they are, the expiry and the author
      empty when missing (None here), and the status as a string. */
  datatype SimpleRegistration = SimpleRegistration(id: int, sector: string, name: string, serverName: string,
                                                   registeredTime: real, expiryTime: Option<real>, registeredBy: string,
                                                   lastUpdated: real, status: string, timeRemaining: Option<string>,
                                                   expiredMinutesAgo: Option<int>)

  /** The entry of a row that has a registration time. */
  function Entry(id: int, b: BunkerRecord, registeredTime: real, now: real): SimpleRegistration
  {
    var c := ClassifyRegistration(b.expiryTime, now);
    SimpleRegistration(id, b.sector, b.name, b.serverName, registeredTime, b.expiryTime, b.registeredBy.GetOr(""),
                       b.lastUpdated.GetOr(registeredTime), StatusValue(c.status),
                       if c.timeRemaining.Some? then Some(SpanText(c.timeRemaining.value)) else None,
                       c.expiredMinutesAgo)
  }

  /** The entries of rows that all have a registration time. */
  function Entries(rows: seq<(int, BunkerRecord)>, now: real): (es: seq<SimpleRegistration>)
    requires forall i :: 0 <= i < |rows| ==> rows[i].1.registeredTime.Some?
    ensures |es| == |rows|
  {
    if rows == [] then []
    else
      var last := rows[|rows| - 1];
      Entries(rows[..|rows| - 1], now) + [Entry(last.0, last.1, last.1.registeredTime.value, now)]
  }

  predicate AllRegistered(rows: seq<(int, BunkerRecord)>)
  {
    forall i :: 0 <= i < |rows| ==> rows[i].1.registeredTime.Some?
  }

  /** The first limit rows of the guild (and server) in the order of the query. */
  function Limited(table: seq<(int, BunkerRecord)>, guild: string, serverName: Option<string>, limit: nat, now: real): seq<(int, BunkerRecord)>
  {
    Window(Selected(table, guild, serverName, now), 0, limit)
  }

  /** get_registrations as written: 422 for a limit outside 1..200; otherwise the rows in order,
      failing with 500 when one of them has no registration time. */
  method GetRegistrations(guild: string, serverName: Option<string>, limit: int, table: seq<(int, BunkerRecord)>, now: real)
    returns (r: Result<seq<SimpleRegistration>, HttpError>)
    ensures !(1 <= limit <= 200) ==> r == Err(HttpError(422, "Invalid query parameters"))
    ensures 1 <= limit <= 200 ==>
      var rows := Limited(table, guild, serverName, limit, now);
      && (!AllRegistered(rows) ==> r == Err(HttpError(500, "Internal Server Error")))
      && (AllRegistered(rows) ==> r == Ok(Entries(rows, now)))
  {
    if !(1 <= limit <= 200) {
      return Err(HttpError(422, "Invalid query parameters"));
    }
    var rows := Limited(table, guild, serverName, limit, now);
    var entries: seq<SimpleRegistration> := [];
    for i := 0 to |rows|
      invariant AllRegistered(rows[..i])
      invariant entries == Entries(rows[..i], now)
    {
      var (id, b) := rows[i];
      if b.registeredTime.None? {
        return Err(HttpError(500, "Internal Server Error"));
      }
      EntriesStep(rows, i, now);
      entries := entries + [Entry(id, b, b.registeredTime.value, now)];
    }
    assert rows[..|rows|] == rows;
    r := Ok(entries);
  }

  /** One more registered row adds its entry at the end. */
  lemma EntriesStep(rows: seq<(int, BunkerRecord)>, i: int, now: real)
    requires 0 <= i < |rows| && AllRegistered(rows[..i]) && rows[i].1.registeredTime.Some?
    ensures AllRegistered(rows[..i + 1])
    ensures Entries(rows[..i + 1], now) == Entries(rows[..i], now) + [Entry(rows[i].0, rows[i].1, rows[i].1.registeredTime.value, now)]
  {
    assert rows[..i + 1][..i] == rows[..i];
  }

  /** The listing as written lists a row exactly as the full classification says, and it falls
      back from the last update to the registration time. */
  lemma {:induction false} EntriesClassify(rows: seq<(int, BunkerRecord)>, now: real, i: int)
    requires AllRegistered(rows) && 0 <= i < |rows|
    ensures var e := Entries(rows, now)[i];
      && e.id == rows[i].0
      && e.status == StatusValue(ClassifyRegistration(rows[i].1.expiryTime, now).status)
      && (e.status == "unknown" <==> rows[i].1.expiryTime.None?)
      && (rows[i].1.lastUpdated.None? ==> e.lastUpdated == rows[i].1.registeredTime.value)
      && (rows[i].1.lastUpdated.Some? ==> e.lastUpdated == rows[i].1.lastUpdated.value)
  {
    if i < |rows| - 1 {
      EntriesClassify(rows[..|rows| - 1], now, i);
    }
  }

  /** A bunker the bot created but nobody registered yet has no registration time, so a listing
      that reaches it fails. */
  lemma UnregisteredRowBreaksListing(rows: seq<(int, BunkerRecord)>, i: int)
    requires 0 <= i < |rows| && rows[i].1.registeredTime.None?
    ensures !AllRegistered(rows)
  {
  }

  /** The entry of any row; a missing registration time is shown empty, which 0.0 stands for
      here, and a row with a time is the source's entry. */
  function IntendedEntry(id: int, b: BunkerRecord, now: real): SimpleRegistration
  {
    var e := Entry(id, b, 0.0, now);
    if b.registeredTime.Some? then Entry(id, b, b.registeredTime.value, now) else e
  }

  /** The listing as evidently intended: every selected row is listed, never a 500. */
  function GetRegistrationsIntended(guild: string, serverName: Option<string>, limit: int, table: seq<(int, BunkerRecord)>, now: real)
    : (r: Result<seq<SimpleRegistration>, HttpError>)
    ensures r.Err? <==> !(1 <= limit <= 200)
    ensures r.Ok? ==> |r.value| == |Limited(table, guild, serverName, limit, now)|
    ensures r.Ok? ==> forall i :: 0 <= i < |r.value| ==>
      var row := Limited(table, guild, serverName, limit, now)[i];
      r.value[i].id == row.0 && (row.1.expiryTime.None? ==> r.value[i].status == "unknown")
  {
    if !(1 <= limit <= 200) then Err(HttpError(422, "Invalid query parameters"))
    else
      var rows := Limited(table, guild, serverName, limit, now);
      Ok(seq(|rows|, i requires 0 <= i < |rows| => IntendedEntry(rows[i].0, rows[i].1, now)))
  }

  /** Where the written listing succeeds, the intended one gives the same entries. */
  lemma {:induction false} IntendedAgreesWhenRegistered(rows: seq<(int, BunkerRecord)>, now: real)
    requires AllRegistered(rows)
    ensures Entries(rows, now) == seq(|rows|, i requires 0 <= i < |rows| => IntendedEntry(rows[i].0, rows[i].1, now))
  {
    forall i | 0 <= i < |rows|
      ensures Entries(rows, now)[i] == IntendedEntry(rows[i].0, rows[i].1, now)
    {
      EntriesClassify(rows, now, i);
      EntryAt(rows, now, i);
    }
  }

  lemma {:induction false} EntryAt(rows: seq<(int, BunkerRecord)>, now: real, i: int)
    requires AllRegistered(rows) && 0 <= i < |rows|
    ensures Entries(rows, now)[i] == Entry(rows[i].0, rows[i].1, rows[i].1.registeredTime.value, now)
  {
    if i < |rows| - 1 {
      EntryAt(rows[..|rows| - 1], now, i);
    }
  }

  // ---------------------------------------------------------------- overview

  /** The statistics of get_bunkers_overview and its health. */
  datatype Overview = Overview(totalServers: nat, totalSectors: nat, totalRegistrations: nat, activeRegistrations: nat,
                               registrationsToday: nat, mostActiveSector: Option<string>, health: string)

  function GuildServers(servers: map<int, AdminServer>, guild: string): set<int>
  {
    set k | k in servers && servers[k].guild == guild
  }

  function GuildSectors(sectors: map<int, AdminSector>, guild: string): set<int>
  {
    set k | k in sectors && sectors[k].guild == guild
  }

  function GuildBunkers(bunkers: map<int, BunkerRecord>, guild: string): set<int>
  {
    set k | k in bunkers && bunkers[k].guild == guild
  }

  /** The guild's bunkers whose expiry is still ahead (a missing expiry never is). */
  function ActiveBunkers(bunkers: map<int, BunkerRecord>, guild: string, now: real): set<int>
  {
    set k | k in bunkers && bunkers[k].guild == guild && bunkers[k].expiryTime.Some? && bunkers[k].expiryTime.value > now
  }

  /** DATE(t): the day number of a time in seconds. */
  function Day(t: real): int
  {
    (t / 86400.0).Floor
  }

  /** The guild's bunkers registered on the calendar day of now (a missing time never is). */
  function RegisteredToday(bunkers: map<int, BunkerRecord>, guild: string, now: real): set<int>
  {
    set k | k in bunkers && bunkers[k].guild == guild && bunkers[k].registeredTime.Some?
                         && Day(bunkers[k].registeredTime.value) == Day(now)
  }

  /** The guild's bunkers registered in the last seven days. */
  function RecentBunkers(bunkers: map<int, BunkerRecord>, guild: string, now: real): set<int>
  {
    set k | k in bunkers && bunkers[k].guild == guild && bunkers[k].registeredTime.Some?
                         && bunkers[k].registeredTime.value >= now - 7.0 * 86400.0
  }

  /** COUNT(*) of one sector's group. */
  function SectorCount(bunkers: map<int, BunkerRecord>, keys: set<int>, sector: string): nat
  {
    |set k | k in keys && k in bunkers && bunkers[k].sector == sector|
  }

  /** The sectors of the recent registrations: the groups of the GROUP BY. */
  function RecentSectors(bunkers: map<int, BunkerRecord>, guild: string, now: real): set<string>
  {
    set k | k in RecentBunkers(bunkers, guild, now) :: bunkers[k].sector
  }

  /** Some group of a finite non-empty set of sectors has the largest count. */
  lemma {:induction false} LargestGroupExists(bunkers: map<int, BunkerRecord>, keys: set<int>, sectors: set<string>)
    requires sectors != {}
    ensures exists s :: s in sectors && forall t :: t in sectors ==> SectorCount(bunkers, keys, t) <= SectorCount(bunkers, keys, s)
    decreases |sectors|
  {
    var x :| x in sectors;
    if sectors != {x} {
      var rest := sectors - {x};
      LargestGroupExists(bunkers, keys, rest);
      var m :| m in rest && forall t :: t in rest ==> SectorCount(bunkers, keys, t) <= SectorCount(bunkers, keys, m);
      if SectorCount(bunkers, keys, x) <= SectorCount(bunkers, keys, m) {
        assert forall t :: t in sectors ==> t == x || t in rest;
      } else {
        assert forall t :: t in sectors ==> t == x || t in rest;
      }
    }
  }

  lemma SomeRecentSector(bunkers: map<int, BunkerRecord>, guild: string, now: real)
    requires RecentBunkers(bunkers, guild, now) != {}
    ensures RecentSectors(bunkers, guild, now) != {}
  {
    forall k | k in RecentBunkers(bunkers, guild, now)
      ensures bunkers[k].sector in RecentSectors(bunkers, guild, now)
    {
    }
  }

  /** ORDER BY count DESC LIMIT 1 over the recent groups: None without a recent registration,
      otherwise a sector with the largest count (SQLite leaves the choice among ties open). */
  ghost function MostActiveSector(bunkers: map<int, BunkerRecord>, guild: string, now: real): (m: Option<string>)
    ensures m.None? <==> RecentBunkers(bunkers, guild, now) == {}
    ensures m.Some? ==> && m.value in RecentSectors(bunkers, guild, now)
                        && forall t :: t in RecentSectors(bunkers, guild, now) ==>
                             SectorCount(bunkers, RecentBunkers(bunkers, guild, now), t)
                             <= SectorCount(bunkers, RecentBunkers(bunkers, guild, now), m.value)
  {
    var recent := RecentBunkers(bunkers, guild, now);
    var sectors := RecentSectors(bunkers, guild, now);
    if recent == {} then None
    else
      SomeRecentSector(bunkers, guild, now);
      LargestGroupExists(bunkers, recent, sectors);
      var s :| s in sectors && forall t :: t in sectors ==> SectorCount(bunkers, recent, t) <= SectorCount(bunkers, recent, s);
      Some(s)
  }

  lemma SubsetCard(a: set<int>, b: set<int>)
    requires a <= b
    ensures |a| <= |b|
  {
    assert b == a + (b - a);
  }

  /** get_bunkers_overview: the guild's servers, sectors, registrations, active registrations,
      registrations of the day and the most active sector of the week; healthy exactly when
      something is active. */
  ghost function GetBunkersOverview(store: AdminBunkerStore, guild: string, now: real): (o: Overview)
    reads store
    ensures o.health == "healthy" <==> o.activeRegistrations > 0
    ensures o.health == "warning" <==> o.activeRegistrations == 0
    ensures o.activeRegistrations <= o.totalRegistrations
    ensures o.registrationsToday <= o.totalRegistrations
    ensures o.mostActiveSector.None? <==> RecentBunkers(store.bunkers, guild, now) == {}
  {
    var active := ActiveBunkers(store.bunkers, guild, now);
    var today := RegisteredToday(store.bunkers, guild, now);
    SubsetCard(active, GuildBunkers(store.bunkers, guild));
    SubsetCard(today, GuildBunkers(store.bunkers, guild));
    Overview(|GuildServers(store.servers, guild)|, |GuildSectors(store.sectors, guild)|,
             |GuildBunkers(store.bunkers, guild)|, |active|, |today|,
             MostActiveSector(store.bunkers, guild, now),
             if |active| > 0 then "healthy" else "warning")
  }

  /** A registration made now for a positive duration makes its guild healthy. */
  lemma RegistrationMakesHealthy(bunkers: map<int, BunkerRecord>, id: int, guild: string, reg: ManualRegistration, now: real)
    requires reg.hours * 3600 + reg.minutes * 60 > 0
    ensures id in ActiveBunkers(Upserted(bunkers, id, ManualRecord(guild, reg, "admin", now)), guild, now)
  {
  }
}
