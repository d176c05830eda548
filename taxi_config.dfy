/** The bot's taxi configuration: the grid/pad coordinate system of the SCUM map, grid
    distances, fares, driver levels, vehicle/zone access and zone lookup by name. */
module TaxiConfig {
  import opened Wrappers
  import opened Text

  /** A vehicle type. A list the configuration leaves out is the empty list. */
  datatype VehicleType = VehicleType(
    name: string, costMultiplier: Option<real>,
    accessTypes: seq<string>, restrictedZones: seq<string>)

  /** A PvP zone or a taxi stop; optional keys of the source's dictionaries are Options. */
  datatype Zone = Zone(
    name: string, coordinates: Option<string>, grid: Option<string>, pad: Option<int>, zoneType: Option<string>,
    restriction: Option<string>, accessTypes: Option<seq<string>>, vehicleAccess: seq<string>)

  datatype DriverLevel = DriverLevel(name: string, emoji: string, bonus: real)

  /** The attributes of a TaxiConfig object that the modelled operations read. Dictionaries
      whose iteration order matters are association lists in insertion order. */
  datatype Config = Config(
    taxiEnabled: bool, baseRate: real, perKmRate: real,
    vehicleTypes: map<string, VehicleType>,
    taxiStops: seq<(string, Zone)>, pvpZones: seq<(string, Zone)>,
    driverLevels: seq<(int, DriverLevel)>)

  function Lookup<V>(xs: seq<(string, V)>, key: string): (r: Option<V>)
    ensures r.Some? <==> exists i :: 0 <= i < |xs| && xs[i].0 == key
  {
    if xs == [] then None else if xs[0].0 == key then Some(xs[0].1) else Lookup(xs[1..], key)
  }

  const DefaultDriverLevels: seq<(int, DriverLevel)> := [
    (0, DriverLevel("Novato", "🟢", 0.0)),
    (10, DriverLevel("Conductor", "🔵", 0.05)),
    (25, DriverLevel("Experto", "🟡", 0.10)),
    (50, DriverLevel("Veterano", "🟠", 0.15)),
    (100, DriverLevel("Leyenda", "🔴", 0.25))]

  const DefaultVehicleTypes: map<string, VehicleType> := map[
    "auto" := VehicleType("Automóvil", Some(1.0), ["land", "road"], ["water", "air_only"]),
    "moto" := VehicleType("Motocicleta", Some(0.8), ["land", "road", "offroad"], ["water", "air_only"]),
    "avion" := VehicleType("Avión", Some(3.5), ["air", "airstrip"], ["water_only"]),
    "hidroavion" := VehicleType("Hidroavión", Some(3.0), ["air", "water", "seaplane"], []),
    "barco" := VehicleType("Barco", Some(4.5), ["water", "port"], ["land_only", "air_only"])]

  // ---------------------------------------------------------------- zone rules

  datatype ZoneRule = ZoneRule(pickupAllowed: bool, dropoffAllowed: bool)

  /** ZONE_RULES: what a zone's restriction allows. */
  function ZoneRules(restriction: string): (r: Option<ZoneRule>)
    ensures r.Some? <==> restriction in {"no_taxi", "combat_zone", "safe_zone", "neutral", "trade_zone"}
  {
    match restriction
    case "no_taxi" => Some(ZoneRule(false, false))
    case "combat_zone" => Some(ZoneRule(true, false))
    case "safe_zone" => Some(ZoneRule(true, true))
    case "neutral" => Some(ZoneRule(true, true))
    case "trade_zone" => Some(ZoneRule(true, true))
    case _ => None
  }

  /** The rule applied to a zone: its restriction's rule, with unknown restrictions read as neutral. */
  function RuleFor(restriction: string): ZoneRule {
    ZoneRules(restriction).GetOr(ZoneRules("neutral").value)
  }

  /** Only a no-taxi zone refuses pick-ups; only no-taxi and combat zones refuse drop-offs. */
  lemma RuleForAllows(restriction: string)
    ensures !RuleFor(restriction).pickupAllowed <==> restriction == "no_taxi"
    ensures !RuleFor(restriction).dropoffAllowed <==> restriction in {"no_taxi", "combat_zone"}
  {
  }

  // ---------------------------------------------------------------- grid and pad

  const RowMap: map<char, int> := map['D' := 4, 'C' := 3, 'B' := 2, 'A' := 1, 'Z' := 0]

  /** grid_to_coordinates: "B2" is (row 2, column 2). A string not of length 2, an unknown
      row letter or a column over 4 give (0, 0); a second character that is not a digit
      makes int() raise ValueError. */
  function GridToCoordinates(grid: string): (r: Result<(int, int), PyError>)
    ensures |grid| != 2 ==> r == Ok((0, 0))
    ensures |grid| == 2 && !IsDigit(grid[1]) ==> r == Err(ValueError)
    ensures |grid| == 2 && IsDigit(grid[1]) ==> r.Ok?
    ensures r.Err? ==> r == Err(ValueError)
    ensures r.Ok? ==> 0 <= r.value.0 <= 4 && 0 <= r.value.1 <= 4
    ensures r.Ok? && r.value != (0, 0) ==>
      |grid| == 2 && Upper(grid[0]) in RowMap && r.value.0 == RowMap[Upper(grid[0])] && r.value.1 == DigitValue(grid[1])
    ensures |grid| == 2 && IsDigit(grid[1]) && (Upper(grid[0]) !in RowMap || DigitValue(grid[1]) > 4) ==> r == Ok((0, 0))
  {
    if |grid| != 2 then Ok((0, 0))
    else
      var rowLetter := Upper(grid[0]);
      if !IsDigit(grid[1]) then Err(ValueError)
      else
        var col := DigitValue(grid[1]);
        if rowLetter !in RowMap || col < 0 || col > 4 then Ok((0, 0))
        else Ok((RowMap[rowLetter], col))
  }

  const PadCoords: map<int, (int, int)> := map[
    1 := (0, 0), 2 := (0, 1), 3 := (0, 2),
    4 := (1, 0), 5 := (1, 1), 6 := (1, 2),
    7 := (2, 0), 8 := (2, 1), 9 := (2, 2)]

  /** pad_to_subgrid_coords: pad p of the numeric keypad layout is ((p-1) div 3, (p-1) mod 3);
      any other pad is the centre (1, 1). */
  function PadToSubgrid(pad: int): (r: (int, int))
    ensures 1 <= pad <= 9 ==> r == ((pad - 1) / 3, (pad - 1) % 3)
    ensures !(1 <= pad <= 9) ==> r == (1, 1)
  {
    if pad in PadCoords then PadCoords[pad] else (1, 1)
  }

  function Abs(x: int): nat { if x < 0 then -x else x }

  /** Kilometre coordinates of a pad: each grid square is 3 km, each pad 1 km. */
  function KmPoint(grid: (int, int), pad: int): (int, int) {
    var sub := PadToSubgrid(pad);
    (grid.1 * 3 + sub.1, grid.0 * 3 + sub.0)
  }

  function Manhattan(a: (int, int), b: (int, int)): nat {
    Abs(b.0 - a.0) + Abs(b.1 - a.1)
  }

  /** calculate_grid_distance: 1.4 times the Manhattan distance between the two pads' kilometre
      points (the factor stands for winding roads). */
  function GridDistance(originGrid: string, originPad: int, destGrid: string, destPad: int): (r: Result<real, PyError>)
    ensures r.Ok? <==> GridToCoordinates(originGrid).Ok? && GridToCoordinates(destGrid).Ok?
    ensures r.Ok? ==> r.value >= 0.0
    ensures r.Ok? ==> r.value == 1.4 * Manhattan(KmPoint(GridToCoordinates(originGrid).value, originPad),
                                               KmPoint(GridToCoordinates(destGrid).value, destPad)) as real
  {
    var o :- GridToCoordinates(originGrid);
    var d :- GridToCoordinates(destGrid);
    var ox := o.1 * 3 + PadToSubgrid(originPad).1;
    var oy := o.0 * 3 + PadToSubgrid(originPad).0;
    var dx := d.1 * 3 + PadToSubgrid(destPad).1;
    var dy := d.0 * 3 + PadToSubgrid(destPad).0;
    Ok((Abs(dx - ox) + Abs(dy - oy)) as real * 1.4)
  }

  lemma GridDistanceSymmetric(g1: string, p1: int, g2: string, p2: int)
    ensures GridDistance(g1, p1, g2, p2) == GridDistance(g2, p2, g1, p1)
  {
  }

  lemma GridDistanceToSelf(g: string, p: int)
    requires GridToCoordinates(g).Ok?
    ensures GridDistance(g, p, g, p) == Ok(0.0)
  {
  }

  /** calculate_zone_distance: 10 km when either zone lacks a grid or a pad. */
  function ZoneDistance(origin: Zone, dest: Zone): (r: Result<real, PyError>)
    ensures origin.grid.None? || origin.pad.None? || dest.grid.None? || dest.pad.None? ==> r == Ok(10.0)
    ensures origin.grid.Some? && origin.pad.Some? && dest.grid.Some? && dest.pad.Some? ==>
      r == GridDistance(origin.grid.value, origin.pad.value, dest.grid.value, dest.pad.value)
  {
    if origin.grid.None? || origin.pad.None? then Ok(10.0)
    else if dest.grid.None? || dest.pad.None? then Ok(10.0)
    else GridDistance(origin.grid.value, origin.pad.value, dest.grid.value, dest.pad.value)
  }

  // ---------------------------------------------------------------- fares and levels

  /** calculate_fare (before its two-decimal rounding): nothing when the taxi is switched off,
      otherwise the base rate plus the distance rate, scaled by the vehicle's cost multiplier
      (1.0 for an unknown vehicle or one without a multiplier). */
  function CalculateFare(cfg: Config, distanceKm: real, vehicle: string): (r: real)
    ensures !cfg.taxiEnabled ==> r == 0.0
    ensures cfg.taxiEnabled && (vehicle !in cfg.vehicleTypes || cfg.vehicleTypes[vehicle].costMultiplier.None?) ==>
      r == cfg.baseRate + distanceKm * cfg.perKmRate
    ensures cfg.taxiEnabled && vehicle in cfg.vehicleTypes && cfg.vehicleTypes[vehicle].costMultiplier.Some? ==>
      r == (cfg.baseRate + distanceKm * cfg.perKmRate) * cfg.vehicleTypes[vehicle].costMultiplier.value
  {
    if !cfg.taxiEnabled then 0.0
    else
      var multiplier := if vehicle in cfg.vehicleTypes then cfg.vehicleTypes[vehicle].costMultiplier.GetOr(1.0) else 1.0;
      (cfg.baseRate + distanceKm * cfg.perKmRate) * multiplier
  }

  /** The level key the loop of get_driver_level settles on: it walks the thresholds in
      order, remembering each one reached, and stops at the first one not reached. */
  function LevelKey(thresholds: seq<int>, rides: int, current: int): int {
    if thresholds == [] || rides < thresholds[0] then current
    else LevelKey(thresholds[1..], rides, thresholds[0])
  }

  function Keys<V>(xs: seq<(int, V)>): (ks: seq<int>)
    ensures |ks| == |xs| && forall i :: 0 <= i < |xs| ==> ks[i] == xs[i].0
  {
    seq(|xs|, i requires 0 <= i < |xs| => xs[i].0)
  }

  function LookupLevel(xs: seq<(int, DriverLevel)>, key: int): Option<DriverLevel> {
    if xs == [] then None else if xs[0].0 == key then Some(xs[0].1) else LookupLevel(xs[1..], key)
  }

  /** get_driver_level. The entry whose key the loop settles on; None when that key is not
      in the table (the source's KeyError, which only a table without key 0 can reach). */
  method GetDriverLevel(levels: seq<(int, DriverLevel)>, totalRides: int) returns (r: Option<DriverLevel>)
    ensures r == LookupLevel(levels, LevelKey(Keys(levels), totalRides, 0))
  {
    var current := 0;
    var i := 0;
    while i < |levels|
      invariant 0 <= i <= |levels|
      invariant LevelKey(Keys(levels), totalRides, 0) == LevelKey(Keys(levels)[i..], totalRides, current)
    {
      if totalRides >= levels[i].0 {
        current := levels[i].0;
      } else {
        break;
      }
      i := i + 1;
    }
    r := LookupLevel(levels, current);
  }

  predicate Ascending(ks: seq<int>) {
    forall i, j :: 0 <= i < j < |ks| ==> ks[i] < ks[j]
  }

  /** An element of a non-empty sequence is its head or an element of its tail; on ascending
      keys the head is below every element of the tail. */
  lemma HeadAndTail(ks: seq<int>)
    requires ks != [] && Ascending(ks)
    ensures forall k :: k in ks <==> k == ks[0] || k in ks[1..]
    ensures forall k :: k in ks[1..] ==> ks[0] < k
  {
    assert ks == [ks[0]] + ks[1..];
    forall k | k in ks[1..] ensures ks[0] < k {
      var j :| 0 <= j < |ks[1..]| && ks[1..][j] == k;
      assert ks[j + 1] == k;
    }
  }

  /** On ascending thresholds the loop finds the largest threshold not above the ride count,
      or keeps its start value when no threshold is reached. */
  lemma {:induction false} LevelKeyIsLargestReached(ks: seq<int>, rides: int, current: int)
    requires Ascending(ks)
    ensures (forall k :: k in ks ==> k > rides) ==> LevelKey(ks, rides, current) == current
    ensures (exists k :: k in ks && k <= rides) ==>
      var r := LevelKey(ks, rides, current);
      r in ks && r <= rides && forall k :: k in ks && k <= rides ==> k <= r
  {
    if ks != [] {
      HeadAndTail(ks);
      if rides >= ks[0] {
        LevelKeyIsLargestReached(ks[1..], rides, ks[0]);
      }
    }
  }

  /** With the default table: fewer than 10 rides is a novice, 100 or more a legend. */
  lemma DefaultLevelBounds(rides: int)
    ensures rides < 10 ==> LookupLevel(DefaultDriverLevels, LevelKey(Keys(DefaultDriverLevels), rides, 0)) == Some(DefaultDriverLevels[0].1)
    ensures rides >= 100 ==> LookupLevel(DefaultDriverLevels, LevelKey(Keys(DefaultDriverLevels), rides, 0)) == Some(DefaultDriverLevels[4].1)
  {
    var ks := Keys(DefaultDriverLevels);
    assert ks == [0, 10, 25, 50, 100];
    if rides >= 100 {
      assert LevelKey(ks, rides, 0) == LevelKey(ks[1..], rides, 0) == LevelKey(ks[2..], rides, 10)
          == LevelKey(ks[3..], rides, 25) == LevelKey(ks[4..], rides, 50) == LevelKey(ks[5..], rides, 100) == 100;
    }
  }

  // ---------------------------------------------------------------- vehicle / zone access

  datatype ZoneAccess =
    | ExplicitlyAllowed | Allowed
    | ZoneNotFound | InvalidVehicle | NoCompatibleAccess | RestrictedZoneType | NoTaxiZone
    | NeedsAirstrip | NeedsWater | NeedsSeaplaneAccess
  {
    predicate Ok() { this == ExplicitlyAllowed || this == Allowed }
  }

  function FindZone(cfg: Config, zoneId: string): Option<Zone> {
    var z := Lookup(cfg.pvpZones, zoneId);
    if z.Some? then z else Lookup(cfg.taxiStops, zoneId)
  }

  function ZoneAccessTypes(z: Zone): seq<string> { z.accessTypes.GetOr(["land", "road"]) }
  function ZoneTypeOf(z: Zone): string { z.zoneType.GetOr("normal") }

  predicate Shares(a: seq<string>, b: seq<string>) { exists x :: x in a && x in b }

  /** The vehicle-specific rule: planes need an airport, an airstrip or air access; boats water
      or a port; seaplanes water, air or a seaplane base. */
  function VehicleRule(vehicle: string, z: Zone): ZoneAccess {
    var access := ZoneAccessTypes(z);
    if vehicle == "avion" && ZoneTypeOf(z) !in ["airport", "airstrip"] && "air" !in access then NeedsAirstrip
    else if vehicle == "barco" && "water" !in access && "port" !in access then NeedsWater
    else if vehicle == "hidroavion" && !Shares(["water", "air", "seaplane"], access) then NeedsSeaplaneAccess
    else Allowed
  }

  /** validate_vehicle_zone. */
  function ValidateVehicleZone(cfg: Config, zoneId: string, vehicle: string): (r: ZoneAccess)
    ensures FindZone(cfg, zoneId).None? ==> r == ZoneNotFound
    ensures FindZone(cfg, zoneId).Some? && vehicle !in cfg.vehicleTypes ==> r == InvalidVehicle
    ensures r == ExplicitlyAllowed <==>
      FindZone(cfg, zoneId).Some? && vehicle in cfg.vehicleTypes && vehicle in FindZone(cfg, zoneId).value.vehicleAccess
    ensures r == NoCompatibleAccess <==>
      FindZone(cfg, zoneId).Some? && vehicle in cfg.vehicleTypes &&
      var z, v := FindZone(cfg, zoneId).value, cfg.vehicleTypes[vehicle];
      vehicle !in z.vehicleAccess && !Shares(v.accessTypes, ZoneAccessTypes(z))
    ensures r == RestrictedZoneType <==>
      FindZone(cfg, zoneId).Some? && vehicle in cfg.vehicleTypes &&
      var z, v := FindZone(cfg, zoneId).value, cfg.vehicleTypes[vehicle];
      vehicle !in z.vehicleAccess && Shares(v.accessTypes, ZoneAccessTypes(z)) && ZoneTypeOf(z) in v.restrictedZones
    ensures r == NoTaxiZone <==>
      FindZone(cfg, zoneId).Some? && vehicle in cfg.vehicleTypes &&
      var z, v := FindZone(cfg, zoneId).value, cfg.vehicleTypes[vehicle];
      && vehicle !in z.vehicleAccess && Shares(v.accessTypes, ZoneAccessTypes(z)) && ZoneTypeOf(z) !in v.restrictedZones
      && z.restriction.GetOr("neutral") == "no_taxi"
    ensures r in {NeedsAirstrip, NeedsWater, NeedsSeaplaneAccess} <==>
      FindZone(cfg, zoneId).Some? && vehicle in cfg.vehicleTypes &&
      var z, v := FindZone(cfg, zoneId).value, cfg.vehicleTypes[vehicle];
      && vehicle !in z.vehicleAccess && Shares(v.accessTypes, ZoneAccessTypes(z)) && ZoneTypeOf(z) !in v.restrictedZones
      && z.restriction.GetOr("neutral") != "no_taxi" && VehicleRule(vehicle, z) == r && r != Allowed
    ensures r == Allowed <==>
      FindZone(cfg, zoneId).Some? && vehicle in cfg.vehicleTypes &&
      var z, v := FindZone(cfg, zoneId).value, cfg.vehicleTypes[vehicle];
      && vehicle !in z.vehicleAccess
      && Shares(v.accessTypes, ZoneAccessTypes(z))
      && ZoneTypeOf(z) !in v.restrictedZones
      && z.restriction.GetOr("neutral") != "no_taxi"
      && VehicleRule(vehicle, z) == Allowed
  {
    match FindZone(cfg, zoneId)
    case None => ZoneNotFound
    case Some(z) =>
      if vehicle !in cfg.vehicleTypes then InvalidVehicle
      else
        var v := cfg.vehicleTypes[vehicle];
        if z.vehicleAccess != [] && vehicle in z.vehicleAccess then ExplicitlyAllowed
        else if !(exists a :: a in ZoneAccessTypes(z) && a in v.accessTypes) then NoCompatibleAccess
        else if ZoneTypeOf(z) in v.restrictedZones then RestrictedZoneType
        else if z.restriction.GetOr("neutral") == "no_taxi" then NoTaxiZone
        else VehicleRule(vehicle, z)
  }

  // ---------------------------------------------------------------- coordinates to grid-pad

  function Clamp(v: int, lo: int, hi: int): (r: int)
    requires lo <= hi
    ensures lo <= r <= hi
    ensures lo <= v <= hi ==> r == v
  {
    if v < lo then lo else if v > hi then hi else v
  }

  /** The pad number of the numeric keypad layout for pad column px and pad row py. */
  function PadNumber(px: int, py: int): (p: int)
    requires 0 <= px <= 2 && 0 <= py <= 2
    ensures 1 <= p <= 9
  {
    (2 - py) * 3 + px + 1
  }

  /** The pad numbering of coords_to_grid_pad and that of pad_to_subgrid_coords agree:
      pad row py of the former is sub-row 2 - py of the latter. */
  lemma PadNumberInverse(px: int, py: int)
    requires 0 <= px <= 2 && 0 <= py <= 2
    ensures PadToSubgrid(PadNumber(px, py)) == (2 - py, px)
  {
  }

  /** coords_to_grid_pad: the map spans -25000..25000 in 5 x 5 grid squares of 10000 units,
      each cut into 3 x 3 pads; indices are clamped into the map. */
  function CoordsToGridPad(x: real, y: real): (r: string)
    ensures |r| == 4 && 'A' <= r[0] <= 'E' && '0' <= r[1] <= '4' && r[2] == '-' && '1' <= r[3] <= '9'
    ensures var gx := Clamp(((x + 25000.0) / 10000.0).Floor, 0, 4);
            var gy := Clamp(((y + 25000.0) / 10000.0).Floor, 0, 4);
            var px := Clamp(((x - (gx * 10000 - 25000) as real) / 3333.33).Floor, 0, 2);
            var py := Clamp(((y - (gy * 10000 - 25000) as real) / 3333.33).Floor, 0, 2);
            r[0] as int - 'A' as int == gx && DigitValue(r[1]) == gy && DigitValue(r[3]) == PadNumber(px, py)
  {
    var gx := Clamp(((x + 25000.0) / 10000.0).Floor, 0, 4);
    var gy := Clamp(((y + 25000.0) / 10000.0).Floor, 0, 4);
    var localX := x - (gx * 10000 - 25000) as real;
    var localY := y - (gy * 10000 - 25000) as real;
    var px := Clamp((localX / 3333.33).Floor, 0, 2);
    var py := Clamp((localY / 3333.33).Floor, 0, 2);
    [('A' as int + gx) as char, DigitChar(gy), '-', DigitChar(PadNumber(px, py))]
  }

  // ---------------------------------------------------------------- find zone by name

  function FirstMatch(zs: seq<(string, Zone)>, p: Zone -> bool): (r: Option<Zone>)
    ensures r.None? <==> forall i :: 0 <= i < |zs| ==> !p(zs[i].1)
    ensures r.Some? ==> exists i :: 0 <= i < |zs| && zs[i].1 == r.value && p(r.value) && forall j :: 0 <= j < i ==> !p(zs[j].1)
  {
    if zs == [] then None
    else if p(zs[0].1) then Some(zs[0].1)
    else
      var r := FirstMatch(zs[1..], p);
      assert forall i :: 1 <= i < |zs| ==> zs[i] == zs[1..][i - 1];
      r
  }

  /** One scan of find_zone_by_name: the first zone of the table satisfying p. */
  method FindFirst(zs: seq<(string, Zone)>, p: Zone -> bool) returns (r: Option<Zone>)
    ensures r == FirstMatch(zs, p)
  {
    var i := 0;
    while i < |zs|
      invariant 0 <= i <= |zs|
      invariant forall j :: 0 <= j < i ==> !p(zs[j].1)
    {
      if p(zs[i].1) {
        FirstMatchAt(zs, p, i);
        return Some(zs[i].1);
      }
      i := i + 1;
    }
    return None;
  }

  lemma FirstMatchAt(zs: seq<(string, Zone)>, p: Zone -> bool, i: int)
    requires 0 <= i < |zs| && p(zs[i].1) && forall j :: 0 <= j < i ==> !p(zs[j].1)
    ensures FirstMatch(zs, p) == Some(zs[i].1)
  {
    var r := FirstMatch(zs, p);
    var k :| 0 <= k < |zs| && zs[k].1 == r.value && p(r.value) && forall j :: 0 <= j < k ==> !p(zs[j].1);
  }

  function PadText(pad: Option<int>): string {
    if pad.Some? then IntToString(pad.value) else ""
  }

  predicate ExactName(q: string, z: Zone) { ToLower(z.name) == q }
  predicate PartialName(q: string, z: Zone) { IsSubstring(q, ToLower(z.name)) || IsSubstring(ToLower(z.name), q) }
  predicate GridPadName(q: string, z: Zone) { ToLower(z.grid.GetOr("") + "-" + PadText(z.pad)) == q }
  predicate StopName(q: string, z: Zone) { ToLower(z.name) == q || IsSubstring(q, ToLower(z.name)) }

  /** A taxi stop reported as a zone: its name and type, a safe-zone restriction, and its grid
      and pad (B2 and 5 when absent). */
  function StopAsZone(s: Zone): Zone {
    Zone(s.name, None, Some(s.grid.GetOr("B2")), Some(s.pad.GetOr(5)), s.zoneType, Some("safe_zone"), None, [])
  }

  function MapOption(o: Option<Zone>, f: Zone -> Zone): Option<Zone> {
    if o.Some? then Some(f(o.value)) else None
  }

  /** find_zone_by_name: an exact (case-insensitive) PvP zone name, else a partial name match
      either way round, else a "grid-pad" match, else a taxi stop whose name equals or contains
      the query, reported as a safe zone; otherwise none. */
  function FindZoneByNameSpec(cfg: Config, zoneName: string): Option<Zone> {
    var q := Strip(ToLower(zoneName));
    var exact := FirstMatch(cfg.pvpZones, z => ExactName(q, z));
    var partial := FirstMatch(cfg.pvpZones, z => PartialName(q, z));
    var coords := FirstMatch(cfg.pvpZones, z => GridPadName(q, z));
    if exact.Some? then exact
    else if partial.Some? then partial
    else if coords.Some? then coords
    else MapOption(FirstMatch(cfg.taxiStops, z => StopName(q, z)), StopAsZone)
  }

  method FindZoneByName(cfg: Config, zoneName: string) returns (r: Option<Zone>)
    ensures r == FindZoneByNameSpec(cfg, zoneName)
  {
    var q := Strip(ToLower(zoneName));
    r := FindFirst(cfg.pvpZones, z => ExactName(q, z));
    if r.Some? { return; }
    r := FindFirst(cfg.pvpZones, z => PartialName(q, z));
    if r.Some? { return; }
    r := FindFirst(cfg.pvpZones, z => GridPadName(q, z));
    if r.Some? { return; }
    var stop := FindFirst(cfg.taxiStops, z => StopName(q, z));
    r := if stop.Some? then Some(StopAsZone(stop.value)) else None;
  }

  /** An exact name match wins over every other kind of match. */
  lemma ExactNameFirst(cfg: Config, zoneName: string, i: int)
    requires 0 <= i < |cfg.pvpZones|
    requires ToLower(cfg.pvpZones[i].1.name) == Strip(ToLower(zoneName))
    ensures FindZoneByNameSpec(cfg, zoneName).Some?
    ensures ToLower(FindZoneByNameSpec(cfg, zoneName).value.name) == Strip(ToLower(zoneName))
  {
    var q := Strip(ToLower(zoneName));
    var p := z => ExactName(q, z);
    assert p(cfg.pvpZones[i].1);
  }

  /** A match among the taxi stops is always reported as a safe zone. */
  lemma StopMatchIsSafe(cfg: Config, zoneName: string)
    requires FindZoneByNameSpec(cfg, zoneName).Some?
    requires FindZoneByNameSpec(cfg, zoneName).value.restriction != Some("safe_zone")
    ensures exists i :: 0 <= i < |cfg.pvpZones| && cfg.pvpZones[i].1 == FindZoneByNameSpec(cfg, zoneName).value
  {
  }
}
