/** The taxi system's tables (users, bank accounts, transactions, welcome packs, drivers and
    requests) as fields of one store, and the operations that change them: registering users
    and drivers, transferring money, creating and accepting requests, and driver status. */
module TaxiDatabase {
  import opened Wrappers
  import opened Text
  import TC = TaxiConfig

  // ---------------------------------------------------------------- rows

  datatype User = User(discordId: string, guildId: string, username: string, displayName: Option<string>,
                       welcomePackClaimed: bool)

  datatype Account = Account(userId: nat, accountNumber: string, balance: real, active: bool)

  datatype Transaction = Transaction(fromAccount: Option<string>, toAccount: string, amount: real,
                                     kind: string, description: string, referenceId: Option<string>)

  /** A welcome pack row: the cash bonus and the items given with it. */
  datatype WelcomePack = WelcomePack(userId: nat, cash: real, taxiVouchers: nat, premiumTrialDays: nat)

  /** The vehicle column of a driver: a JSON list of vehicle names, or a single legacy name. */
  datatype Vehicles = Listed(names: seq<string>) | Single(name: string)

  datatype Driver = Driver(driverId: nat, license: string, vehicles: Vehicles, vehicleName: Option<string>,
                           status: string)

  datatype Request = Request(
    passengerId: int, driverId: Option<nat>,
    pickup: (real, real, real), pickupZone: string,
    destination: (Option<real>, Option<real>, Option<real>), destinationZone: Option<string>,
    distance: Option<real>, estimatedCost: Option<real>,
    vehicleType: string, status: string, specialInstructions: Option<string>)

  /** The zone found at a location: its id, display name and restriction. */
  datatype LocatedZone = LocatedZone(zoneId: string, zoneName: string, restriction: string)

  // ---------------------------------------------------------------- lookups

  predicate HasUser(users: seq<User>, discordId: string, guildId: string) {
    exists i :: 0 <= i < |users| && users[i].discordId == discordId && users[i].guildId == guildId
  }

  predicate DiscordIdTaken(users: seq<User>, discordId: string) {
    exists i :: 0 <= i < |users| && users[i].discordId == discordId
  }

  /** The user_id (position + 1) of the first user with the given discord id. */
  function UserIdOf(users: seq<User>, discordId: string): (r: Option<nat>)
    ensures r.Some? ==> 1 <= r.value <= |users| && users[r.value - 1].discordId == discordId
    ensures r.Some? ==> forall i :: 0 <= i < r.value - 1 ==> users[i].discordId != discordId
    ensures r.None? <==> !DiscordIdTaken(users, discordId)
  {
    if users == [] then None
    else if users[0].discordId == discordId then Some(1)
    else
      var rest := UserIdOf(users[1..], discordId);
      if rest.None? then None else Some(rest.value + 1)
  }

  const ActiveRequestStatuses: set<string> := {"pending", "accepted", "in_progress"}

  predicate HasActiveRequest(requests: seq<Request>, passengerId: int) {
    exists i :: 0 <= i < |requests| && requests[i].passengerId == passengerId
      && requests[i].status in ActiveRequestStatuses
  }

  /** The account number of a user: "TAX" and the user id in at least six digits. */
  function AccountNumber(userId: nat): string
  {
    "TAX" + ZeroPad(userId, 6)
  }

  /** The licence of a driver: "DRV" and the user id in at least six digits. */
  function LicenseNumber(userId: nat): string
  {
    "DRV" + ZeroPad(userId, 6)
  }

  /** An account number is "TAX" followed by digits that spell the user id, so distinct users
      get distinct account numbers and the UNIQUE constraint on them never rejects a
      registration. */
  lemma AccountNumberShape(userId: nat, other: nat)
    ensures var r := AccountNumber(userId);
      |r| >= 9 && r[..3] == "TAX" && IsDigits(r[3..]) && DigitsValue(r[3..]) == userId
    ensures AccountNumber(userId) == AccountNumber(other) ==> userId == other
  {
    assert AccountNumber(userId)[3..] == ZeroPad(userId, 6);
    assert AccountNumber(other)[3..] == ZeroPad(other, 6);
  }

  /** A licence is "DRV" followed by digits that spell the user id, so distinct drivers get
      distinct licences. */
  lemma LicenseNumberShape(userId: nat, other: nat)
    ensures var r := LicenseNumber(userId);
      |r| >= 9 && r[..3] == "DRV" && IsDigits(r[3..]) && DigitsValue(r[3..]) == userId
    ensures LicenseNumber(userId) == LicenseNumber(other) ==> userId == other
  {
    assert LicenseNumber(userId)[3..] == ZeroPad(userId, 6);
    assert LicenseNumber(other)[3..] == ZeroPad(other, 6);
  }

  /** The vehicle names of a driver's vehicle column. */
  function VehicleList(v: Vehicles): (r: seq<string>)
    ensures v.Single? && v.name != "" ==> r == [v.name]
    ensures v.Single? && v.name == "" ==> r == []
    ensures v.Listed? ==> r == v.names
  {
    match v
    case Listed(names) => names
    case Single(name) => if name == "" then [] else [name]
  }

  // ---------------------------------------------------------------- transfers

  /** The accounts after moving `amount` from one account to another: the debit is applied
      first and the credit second, so a transfer to the same account leaves it unchanged. */
  function Transfer(accounts: map<string, Account>, from: string, to: string, amount: real): map<string, Account>
    requires from in accounts && to in accounts
  {
    var debited := accounts[from := accounts[from].(balance := accounts[from].balance - amount)];
    debited[to := debited[to].(balance := debited[to].balance + amount)]
  }

  /** A transfer conserves the sum of the two balances, moves exactly `amount` between two
      distinct accounts, and touches no other account. */
  lemma TransferConserves(accounts: map<string, Account>, from: string, to: string, amount: real)
    requires from in accounts && to in accounts
    ensures var after := Transfer(accounts, from, to, amount);
      && after.Keys == accounts.Keys
      && (from != to ==> after[from].balance + after[to].balance == accounts[from].balance + accounts[to].balance)
      && (from != to ==> after[from].balance == accounts[from].balance - amount)
      && (from != to ==> after[to].balance == accounts[to].balance + amount)
      && (from == to ==> after[from] == accounts[from])
      && (forall k :: k in accounts && k != from && k != to ==> after[k] == accounts[k])
  {
  }

  datatype TransferOutcome = Transferred | InsufficientFunds | DestinationNotFound

  // ---------------------------------------------------------------- routes

  /** Python's `in` on what validate_route receives: a substring test on a zone name, a key
      test on a zone dictionary. */
  datatype Place = Named(name: string) | ZoneDict(keys: set<string>)

  predicate Mentions(p: Place, word: string) {
    match p
    case Named(name) => IsSubstring(word, name)
    case ZoneDict(keys) => word in keys
  }

  predicate MentionsAny(p: Place, words: seq<string>) {
    exists i :: 0 <= i < |words| && Mentions(p, words[i])
  }

  const AirportZones: seq<string> := ["Aeropuerto Principal", "Pista de Aterrizaje Sur", "Aeropuerto Norte", "Z0-8", "A4-3", "B4-1", "A0-1"]
  const WaterZones: seq<string> := ["Puerto Este", "Puerto Oeste", "Marina", "Isla", "Muelle"]
  const IslandZones: seq<string> := ["Isla Sur Remote", "Isla Norte", "Isla Central"]

  datatype RouteVerdict = ValidRoute | UnknownVehicle | PlaneNeedsAirports | BoatNeedsWater | IslandNeedsBoat

  /** validate_route: a known vehicle; planes fly between airports; boats need water or an
      island at one end; islands are reached only by boat or seaplane. */
  function ValidateRoute(pickup: Place, destination: Place, vehicle: string, vehicleTypes: map<string, TC.VehicleType>): (r: RouteVerdict)
    ensures r == ValidRoute <==>
      && vehicle in vehicleTypes
      && (vehicle == "avion" ==> MentionsAny(pickup, AirportZones) && MentionsAny(destination, AirportZones))
      && (vehicle == "barco" ==> MentionsAny(pickup, WaterZones) || MentionsAny(destination, WaterZones)
                                 || MentionsAny(pickup, IslandZones) || MentionsAny(destination, IslandZones))
      && (MentionsAny(pickup, IslandZones) || MentionsAny(destination, IslandZones) ==> vehicle in {"barco", "hidroavion"})
    ensures vehicle !in vehicleTypes ==> r == UnknownVehicle
  {
    if vehicle !in vehicleTypes then UnknownVehicle
    else if vehicle == "avion" && !(MentionsAny(pickup, AirportZones) && MentionsAny(destination, AirportZones)) then
      PlaneNeedsAirports
    else if vehicle == "barco" && !(MentionsAny(pickup, WaterZones) || MentionsAny(destination, WaterZones)
                                    || MentionsAny(pickup, IslandZones) || MentionsAny(destination, IslandZones)) then
      BoatNeedsWater
    else if (MentionsAny(pickup, IslandZones) || MentionsAny(destination, IslandZones)) && vehicle !in {"barco", "hidroavion"} then
      IslandNeedsBoat
    else ValidRoute
  }

  /** The keys of the dictionary get_zone_at_location returns. */
  const ZoneDictKeys: set<string> := {"zone_id", "zone_name", "restriction", "rules"}

  /** As written, create_taxi_request hands validate_route the zone dictionaries, so a plane is
      refused even between two airports. */
  lemma PlaneRefusedOnZoneDicts(vehicleTypes: map<string, TC.VehicleType>)
    requires "avion" in vehicleTypes
    ensures ValidateRoute(ZoneDict(ZoneDictKeys), ZoneDict(ZoneDictKeys), "avion", vehicleTypes) == PlaneNeedsAirports
  {
    assert !MentionsAny(ZoneDict(ZoneDictKeys), AirportZones) by {
      forall i | 0 <= i < |AirportZones|
        ensures !Mentions(ZoneDict(ZoneDictKeys), AirportZones[i])
      {
      }
    }
  }

  /** With the zone names, a plane between two airports is accepted. */
  lemma PlaneAcceptedBetweenAirports(vehicleTypes: map<string, TC.VehicleType>)
    requires "avion" in vehicleTypes
    ensures ValidateRoute(Named("Aeropuerto Principal"), Named("Aeropuerto Norte"), "avion", vehicleTypes) == ValidRoute
  {
    AirportNotIsland("Aeropuerto Principal", 0);
    AirportNotIsland("Aeropuerto Norte", 2);
  }

  /** The name of an airport zone without a capital I mentions an airport and no island. */
  lemma AirportNotIsland(name: string, i: nat)
    requires i < |AirportZones| && name == AirportZones[i] && 'I' !in name
    ensures MentionsAny(Named(name), AirportZones)
    ensures !MentionsAny(Named(name), IslandZones)
  {
    SelfSubstring(name);
    assert Mentions(Named(name), AirportZones[i]);
    NoIsland(name);
  }

  /** A name without a capital I mentions no island. */
  lemma NoIsland(name: string)
    requires 'I' !in name
    ensures !MentionsAny(Named(name), IslandZones)
  {
    forall i | 0 <= i < |IslandZones|
      ensures !IsSubstring(IslandZones[i], name)
    {
      assert IslandZones[i][0] == 'I';
      NotSubstringByFirstChar(IslandZones[i], name);
    }
  }

  // ---------------------------------------------------------------- requests

  /** Python truthiness of an optional coordinate: present and non-zero. */
  predicate Truthy(x: Option<real>) { x.Some? && x.value != 0.0 }

  /** The Euclidean distance of taxi_config.calculate_distance, characterised by its square. */
  ghost predicate IsDistance(x1: real, y1: real, x2: real, y2: real, d: real) {
    d >= 0.0 && d * d == (x2 - x1) * (x2 - x1) + (y2 - y1) * (y2 - y1)
  }

  /** The bot's distance stays in map units: unlike the admin panel's, it is not divided by 1000. */
  lemma DistanceInMapUnits()
    ensures IsDistance(0.0, 0.0, 3000.0, 4000.0, 5000.0)
    ensures !IsDistance(0.0, 0.0, 3000.0, 4000.0, 5.0)
  {
  }

  datatype RequestError =
    | ActiveTrip | PickupForbidden(pickupRestriction: string) | DropoffForbidden(dropoffRestriction: string)
    | RouteRefused(verdict: RouteVerdict)

  datatype Created = Created(requestId: nat, pickupZone: LocatedZone, destinationZone: Option<LocatedZone>,
                             distance: Option<real>, estimatedCost: Option<real>)

  datatype AcceptError = NotPending | DriverUnavailable | MissingVehicle(required: string)

  const DriverStatuses: seq<string> := ["available", "busy", "offline", "break"]

  datatype StatusError = InvalidStatus | UserNotFound | DriverNotFound

  /** The taxi database: one field per table. User, driver and request ids are assigned in
      insertion order, starting at 1. */
  class TaxiStore {
    var users: seq<User>
    var accounts: map<string, Account>
    var transactions: seq<Transaction>
    var welcomePacks: seq<WelcomePack>
    var drivers: map<nat, Driver>
    var requests: seq<Request>

    constructor ()
      ensures users == [] && accounts == map[] && transactions == [] && welcomePacks == []
      ensures drivers == map[] && requests == []
    {
      users, accounts, transactions, welcomePacks := [], map[], [], [];
      drivers, requests := map[], [];
    }

    /** register_user: refuses a (discord id, guild) pair already registered, and a discord id
        registered in another guild (the column is unique). Otherwise it adds the user, opens
        the account "TAX" + six digits with the welcome bonus (0 when the pack is disabled),
        records the welcome pack, and records a welcome_bonus transaction when the bonus is
        positive. */
    method RegisterUser(discordId: string, guildId: string, username: string, displayName: Option<string>,
                        welcomePackEnabled: bool, welcomeBonus: real)
      returns (r: Result<(nat, string, real), string>)
      modifies this
      ensures HasUser(old(users), discordId, guildId) ==> r == Err("Usuario ya registrado")
      ensures r.Err? ==> users == old(users) && accounts == old(accounts) && transactions == old(transactions)
                         && welcomePacks == old(welcomePacks)
      ensures r.Ok? <==> !DiscordIdTaken(old(users), discordId) && AccountNumber(|old(users)| + 1) !in old(accounts)
      ensures r.Ok? ==>
        var userId := |old(users)| + 1;
        var bonus := if welcomePackEnabled then welcomeBonus else 0.0;
        && r.value == (userId, AccountNumber(userId), bonus)
        && users == old(users) + [User(discordId, guildId, username, displayName, true)]
        && accounts == old(accounts)[AccountNumber(userId) := Account(userId, AccountNumber(userId), bonus, true)]
        && welcomePacks == old(welcomePacks) + [WelcomePack(userId, bonus, 3, 7)]
        && transactions == old(transactions) +
             (if bonus > 0.0
              then [Transaction(None, AccountNumber(userId), bonus, "welcome_bonus", "Bono de bienvenida - Nuevo usuario", None)]
              else [])
      ensures drivers == old(drivers) && requests == old(requests)
    {
      if HasUser(users, discordId, guildId) {
        return Err("Usuario ya registrado");
      }
      if DiscordIdTaken(users, discordId) {
        return Err("UNIQUE constraint failed: taxi_users.discord_id");
      }
      var userId := |users| + 1;
      var accountNumber := AccountNumber(userId);
      if accountNumber in accounts {
        return Err("UNIQUE constraint failed: bank_accounts.account_number");
      }
      var bonus := if welcomePackEnabled then welcomeBonus else 0.0;
      users := users + [User(discordId, guildId, username, displayName, true)];
      accounts := accounts[accountNumber := Account(userId, accountNumber, bonus, true)];
      welcomePacks := welcomePacks + [WelcomePack(userId, bonus, 3, 7)];
      if bonus > 0.0 {
        transactions := transactions + [Transaction(None, accountNumber, bonus, "welcome_bonus", "Bono de bienvenida - Nuevo usuario", None)];
      }
      r := Ok((userId, accountNumber, bonus));
    }

    /** transfer_money: the source must be an active account holding at least `amount`, and the
        destination an active account; then the source is debited, the destination credited
        and one transfer recorded. A refused transfer changes nothing. */
    method TransferMoney(from: string, to: string, amount: real, description: string, referenceId: Option<string>)
      returns (r: TransferOutcome)
      modifies this
      ensures r == InsufficientFunds <==>
        !(from in old(accounts) && old(accounts)[from].active && old(accounts)[from].balance >= amount)
      ensures r == DestinationNotFound <==>
        from in old(accounts) && old(accounts)[from].active && old(accounts)[from].balance >= amount
        && !(to in old(accounts) && old(accounts)[to].active)
      ensures r != Transferred ==> accounts == old(accounts) && transactions == old(transactions)
      ensures r == Transferred ==>
        && accounts == Transfer(old(accounts), from, to, amount)
        && transactions == old(transactions) + [Transaction(Some(from), to, amount, "transfer", description, referenceId)]
      ensures users == old(users) && welcomePacks == old(welcomePacks) && drivers == old(drivers) && requests == old(requests)
    {
      if !(from in accounts && accounts[from].active) || accounts[from].balance < amount {
        return InsufficientFunds;
      }
      if !(to in accounts && accounts[to].active) {
        return DestinationNotFound;
      }
      accounts := accounts[from := accounts[from].(balance := accounts[from].balance - amount)];
      accounts := accounts[to := accounts[to].(balance := accounts[to].balance + amount)];
      transactions := transactions + [Transaction(Some(from), to, amount, "transfer", description, referenceId)];
      return Transferred;
    }

    /** register_driver: refuses a user who already drives; otherwise adds an offline driver
        with licence "DRV" + six digits and the given vehicle. */
    method RegisterDriver(userId: nat, vehicleType: string, vehicleName: Option<string>) returns (r: Result<string, string>)
      modifies this
      ensures userId in old(drivers) <==> r.Err?
      ensures r.Err? ==> r.error == "Ya estás registrado como conductor" && drivers == old(drivers)
      ensures r.Ok? ==>
        && r.value == LicenseNumber(userId)
        && drivers == old(drivers)[userId := Driver(|old(drivers)| + 1, LicenseNumber(userId), Single(vehicleType), vehicleName, "offline")]
      ensures users == old(users) && accounts == old(accounts) && transactions == old(transactions)
      ensures welcomePacks == old(welcomePacks) && requests == old(requests)
    {
      if userId in drivers {
        return Err("Ya estás registrado como conductor");
      }
      var license := LicenseNumber(userId);
      drivers := drivers[userId := Driver(|drivers| + 1, license, Single(vehicleType), vehicleName, "offline")];
      r := Ok(license);
    }

    /** create_taxi_request: refuses a passenger with a pending, accepted or in-progress
        request, then a pickup zone whose rules forbid pickups. When all three destination
        coordinates are truthy it also refuses a forbidden drop-off or an invalid route, and
        computes the distance and the fare; otherwise both stay None. The zones found at the
        pickup and destination points and the Euclidean distance between them are inputs. */
    method CreateTaxiRequest(passengerId: int, pickup: (real, real, real),
                             destination: (Option<real>, Option<real>, Option<real>),
                             vehicleType: string, specialInstructions: Option<string>,
                             cfg: TC.Config, pickupZone: LocatedZone, destinationZone: LocatedZone, distance: real)
      returns (r: Result<Created, RequestError>)
      requires Truthy(destination.0) && Truthy(destination.1) && Truthy(destination.2) ==>
        IsDistance(pickup.0, pickup.1, destination.0.value, destination.1.value, distance)
      modifies this
      ensures HasActiveRequest(old(requests), passengerId) ==> r == Err(ActiveTrip)
      ensures !HasActiveRequest(old(requests), passengerId) && !TC.RuleFor(pickupZone.restriction).pickupAllowed ==>
        r == Err(PickupForbidden(pickupZone.restriction))
      ensures Truthy(destination.0) && Truthy(destination.1) && Truthy(destination.2)
              && !HasActiveRequest(old(requests), passengerId) && TC.RuleFor(pickupZone.restriction).pickupAllowed ==>
        && (!TC.RuleFor(destinationZone.restriction).dropoffAllowed ==> r == Err(DropoffForbidden(destinationZone.restriction)))
        && (TC.RuleFor(destinationZone.restriction).dropoffAllowed
            && ValidateRoute(Named(pickupZone.zoneName), Named(destinationZone.zoneName), vehicleType, cfg.vehicleTypes) != ValidRoute ==>
              r == Err(RouteRefused(ValidateRoute(Named(pickupZone.zoneName), Named(destinationZone.zoneName), vehicleType, cfg.vehicleTypes))))
      ensures r.Ok? <==>
        var withDestination := Truthy(destination.0) && Truthy(destination.1) && Truthy(destination.2);
        && !HasActiveRequest(old(requests), passengerId)
        && TC.RuleFor(pickupZone.restriction).pickupAllowed
        && (withDestination ==>
              && TC.RuleFor(destinationZone.restriction).dropoffAllowed
              && ValidateRoute(Named(pickupZone.zoneName), Named(destinationZone.zoneName), vehicleType, cfg.vehicleTypes) == ValidRoute)
      ensures r.Err? ==> requests == old(requests)
      ensures r.Ok? ==> HasActiveRequest(requests, passengerId)
      ensures r.Ok? ==>
        var withDestination := Truthy(destination.0) && Truthy(destination.1) && Truthy(destination.2);
        && r.value.requestId == |old(requests)| + 1
        && r.value.pickupZone == pickupZone
        && r.value.destinationZone == (if withDestination then Some(destinationZone) else None)
        && (r.value.distance.Some? <==> withDestination)
        && (r.value.estimatedCost.Some? <==> withDestination)
        && (withDestination ==>
              && r.value.distance == Some(distance)
              && r.value.estimatedCost == Some(TC.CalculateFare(cfg, distance, vehicleType)))
        && requests == old(requests) + [Request(passengerId, None, pickup, pickupZone.zoneName, destination,
              if withDestination then Some(destinationZone.zoneName) else None,
              r.value.distance, r.value.estimatedCost, vehicleType, "pending", specialInstructions)]
      ensures users == old(users) && accounts == old(accounts) && transactions == old(transactions)
      ensures welcomePacks == old(welcomePacks) && drivers == old(drivers)
    {
      if HasActiveRequest(requests, passengerId) {
        return Err(ActiveTrip);
      }
      if !TC.RuleFor(pickupZone.restriction).pickupAllowed {
        return Err(PickupForbidden(pickupZone.restriction));
      }
      var dist: Option<real> := None;
      var cost: Option<real> := None;
      var destZone: Option<LocatedZone> := None;
      if Truthy(destination.0) && Truthy(destination.1) && Truthy(destination.2) {
        destZone := Some(destinationZone);
        if !TC.RuleFor(destinationZone.restriction).dropoffAllowed {
          return Err(DropoffForbidden(destinationZone.restriction));
        }
        var verdict := ValidateRoute(Named(pickupZone.zoneName), Named(destinationZone.zoneName), vehicleType, cfg.vehicleTypes);
        if verdict != ValidRoute {
          return Err(RouteRefused(verdict));
        }
        dist := Some(distance);
        cost := Some(TC.CalculateFare(cfg, distance, vehicleType));
      }
      requests := requests + [Request(passengerId, None, pickup, pickupZone.zoneName, destination,
                                      if destZone.Some? then Some(destZone.value.zoneName) else None,
                                      dist, cost, vehicleType, "pending", specialInstructions)];
      assert requests[|requests| - 1].status in ActiveRequestStatuses;
      r := Ok(Created(|requests|, pickupZone, destZone, dist, cost));
    }

    /** accept_request: only a pending request, only by a registered driver who is available
        or online, and only when the driver has the requested vehicle; the request then
        becomes accepted by that driver. */
    method AcceptRequest(requestId: int, driverUserId: nat) returns (r: Result<(), AcceptError>)
      modifies this
      ensures !(1 <= requestId <= |old(requests)| && old(requests)[requestId - 1].status == "pending") ==> r == Err(NotPending)
      ensures r.Ok? <==>
        && 1 <= requestId <= |old(requests)| && old(requests)[requestId - 1].status == "pending"
        && driverUserId in drivers && drivers[driverUserId].status in {"available", "online"}
        && old(requests)[requestId - 1].vehicleType in VehicleList(drivers[driverUserId].vehicles)
      ensures r.Err? ==> requests == old(requests)
      ensures r.Ok? ==> requests == old(requests)[requestId - 1 := old(requests)[requestId - 1]
                                      .(driverId := Some(drivers[driverUserId].driverId), status := "accepted")]
      ensures users == old(users) && accounts == old(accounts) && transactions == old(transactions)
      ensures welcomePacks == old(welcomePacks) && drivers == old(drivers)
    {
      if !(1 <= requestId <= |requests|) || requests[requestId - 1].status != "pending" {
        return Err(NotPending);
      }
      var required := requests[requestId - 1].vehicleType;
      if driverUserId !in drivers || drivers[driverUserId].status !in {"available", "online"} {
        return Err(DriverUnavailable);
      }
      var driver := drivers[driverUserId];
      if required !in VehicleList(driver.vehicles) {
        return Err(MissingVehicle(required));
      }
      requests := requests[requestId - 1 := requests[requestId - 1].(driverId := Some(driver.driverId), status := "accepted")];
      r := Ok(());
    }

    /** update_driver_status: a status outside available/busy/offline/break is refused before
        any lookup; otherwise the driver of the user with that discord id gets the status. */
    method UpdateDriverStatus(discordUserId: int, newStatus: string) returns (r: Result<(), StatusError>)
      modifies this
      ensures newStatus !in DriverStatuses ==> r == Err(InvalidStatus)
      ensures r.Ok? <==>
        newStatus in DriverStatuses && UserIdOf(users, IntToString(discordUserId)).Some?
        && UserIdOf(users, IntToString(discordUserId)).value in old(drivers)
      ensures r.Err? ==> drivers == old(drivers)
      ensures r.Ok? ==>
        var userId := UserIdOf(users, IntToString(discordUserId)).value;
        drivers == old(drivers)[userId := old(drivers)[userId].(status := newStatus)]
      ensures users == old(users) && accounts == old(accounts) && transactions == old(transactions)
      ensures welcomePacks == old(welcomePacks) && requests == old(requests)
    {
      if newStatus !in DriverStatuses {
        return Err(InvalidStatus);
      }
      var found := UserIdOf(users, IntToString(discordUserId));
      if found.None? {
        return Err(UserNotFound);
      }
      var userId := found.value;
      if userId !in drivers {
        return Err(DriverNotFound);
      }
      drivers := drivers[userId := drivers[userId].(status := newStatus)];
      r := Ok(());
    }
  }
}
