/** The admin panel's taxi fare calculator: distance between two map points and the
    multiplier / minimum-fare / commission arithmetic of the calculate-fare endpoint. */
module TaxiFareRoutes {
  import opened Wrappers

  /** The columns of a guild's taxi configuration row that the calculator reads. */
  datatype TaxiConfigRow = TaxiConfigRow(
    baseFare: real, perKmRate: real, commissionPercent: real, minFare: real,
    nightMultiplier: real, peakHoursMultiplier: real)

  /** The active configuration tables of every guild, keyed the way the endpoint queries them. */
  datatype FareTables = FareTables(
    configs: map<string, TaxiConfigRow>,                  // guild -> config row
    vehicleMultipliers: map<(string, string), real>,      // (guild, vehicle_name) -> base_multiplier
    zoneMultipliers: map<(string, string), real>,         // (guild, zone_type) -> danger_multiplier
    driverLevelMultipliers: map<(string, int), real>)     // (guild, level) -> earnings_multiplier

  datatype FareRequest = FareRequest(
    originX: real, originY: real, destinationX: real, destinationY: real,
    vehicleType: string, zoneType: string, driverLevel: int,
    isNightTime: bool, isPeakHours: bool)

  /** The response, before the endpoint's two-decimal rounding. */
  datatype FareResponse = FareResponse(
    baseFare: real, distanceKm: real, distanceFare: real,
    vehicleMultiplier: real, zoneMultiplier: real, timeMultiplier: real, driverBonus: real,
    commission: real, totalFare: real, driverEarnings: real)

  function Sq(x: real): real { x * x }

  /** d is calculate_distance(x1, y1, x2, y2): the Euclidean distance in map units,
      divided by 1000 (kilometres). Stated through its square, since the square root
      itself is not modelled. */
  ghost predicate IsDistanceKm(x1: real, y1: real, x2: real, y2: real, d: real) {
    d >= 0.0 && Sq(d * 1000.0) == Sq(x2 - x1) + Sq(y2 - y1)
  }

  lemma DistanceSymmetric(x1: real, y1: real, x2: real, y2: real, d: real)
    ensures IsDistanceKm(x1, y1, x2, y2, d) <==> IsDistanceKm(x2, y2, x1, y1, d)
  {
    assert Sq(x2 - x1) == Sq(x1 - x2);
    assert Sq(y2 - y1) == Sq(y1 - y2);
  }

  /** A point is at distance zero from itself, and only at distance zero. */
  lemma DistanceToSelf(x: real, y: real, d: real)
    ensures IsDistanceKm(x, y, x, y, d) <==> d == 0.0
  {
    if d >= 0.0 && Sq(d * 1000.0) == 0.0 {
      SquareZero(d * 1000.0);
    }
  }

  lemma SquareZero(a: real)
    requires Sq(a) == 0.0
    ensures a == 0.0
  {
    if a > 0.0 {
      SquareGrows(0.0, a);
      assert false;
    } else if a < 0.0 {
      SquareGrows(0.0, -a);
      assert false;
    }
  }

  lemma SquareGrows(a: real, b: real)
    requires 0.0 <= a < b
    ensures Sq(a) < Sq(b)
  {
    var p, q, r := a * a, a * b, b * b;
    assert p <= q;
    assert q < r;
  }

  /** The distance is determined by the two points. */
  lemma DistanceUnique(x1: real, y1: real, x2: real, y2: real, d: real, e: real)
    requires IsDistanceKm(x1, y1, x2, y2, d) && IsDistanceKm(x1, y1, x2, y2, e)
    ensures d == e
  {
    var a, b := d * 1000.0, e * 1000.0;
    if a < b {
      SquareGrows(a, b);
      assert false;
    } else if b < a {
      SquareGrows(b, a);
      assert false;
    }
  }

  /** 1.0, times the night multiplier at night, times the peak multiplier in peak hours. */
  function TimeMultiplier(cfg: TaxiConfigRow, isNight: bool, isPeak: bool): (t: real)
    ensures !isNight && !isPeak ==> t == 1.0
    ensures isNight && !isPeak ==> t == cfg.nightMultiplier
    ensures !isNight && isPeak ==> t == cfg.peakHoursMultiplier
    ensures isNight && isPeak ==> t == cfg.nightMultiplier * cfg.peakHoursMultiplier
  {
    var t := 1.0;
    var t := if isNight then t * cfg.nightMultiplier else t;
    if isPeak then t * cfg.peakHoursMultiplier else t
  }

  function LookupMultiplier<K>(m: map<K, real>, k: K): (r: real)
    ensures k !in m ==> r == 1.0
    ensures k in m ==> r == m[k]
  {
    if k in m then m[k] else 1.0
  }

  function Max(a: real, b: real): real { if a >= b then a else b }

  /** (base_fare + distance_fare) * vehicle * zone * time, before the minimum fare. */
  function Multiplied(baseFare: real, distanceFare: real, vehicle: real, zone: real, time: real): real {
    (baseFare + distanceFare) * vehicle * zone * time
  }

  function Subtotal(cfg: TaxiConfigRow, distanceKm: real, vehicle: real, zone: real, time: real): real {
    Max(Multiplied(cfg.baseFare, distanceKm * cfg.perKmRate, vehicle, zone, time), cfg.minFare)
  }

  function CommissionOf(subtotal: real, percent: real): real { subtotal * (percent / 100.0) }
  function EarningsOf(subtotal: real, commission: real, bonus: real): real { (subtotal - commission) * bonus }

  /** The calculate-fare endpoint. `distanceKm` is calculate_distance of the request's two
      points. A guild without a configuration row fails with 500 (the 404 raised while
      reading the configuration is caught and re-raised as 500). */
  function CalculateFare(tables: FareTables, guild: string, req: FareRequest, distanceKm: real): (r: Result<FareResponse, HttpError>)
    requires IsDistanceKm(req.originX, req.originY, req.destinationX, req.destinationY, distanceKm)
    ensures guild !in tables.configs <==> r.Err?
    ensures r.Err? ==> r.error.status == 500
    ensures r.Ok? ==> var cfg := tables.configs[guild]; var f := r.value;
      && f.distanceKm == distanceKm
      && f.baseFare == cfg.baseFare
      && f.distanceFare == distanceKm * cfg.perKmRate
      && f.vehicleMultiplier == LookupMultiplier(tables.vehicleMultipliers, (guild, req.vehicleType))
      && f.zoneMultiplier == LookupMultiplier(tables.zoneMultipliers, (guild, req.zoneType))
      && f.driverBonus == LookupMultiplier(tables.driverLevelMultipliers, (guild, req.driverLevel))
      && f.timeMultiplier == TimeMultiplier(cfg, req.isNightTime, req.isPeakHours)
      && f.totalFare >= cfg.minFare
      && f.totalFare >= Multiplied(f.baseFare, f.distanceFare, f.vehicleMultiplier, f.zoneMultiplier, f.timeMultiplier)
      && (f.totalFare == cfg.minFare ||
          f.totalFare == Multiplied(f.baseFare, f.distanceFare, f.vehicleMultiplier, f.zoneMultiplier, f.timeMultiplier))
      && f.commission == CommissionOf(f.totalFare, cfg.commissionPercent)
      && f.driverEarnings == EarningsOf(f.totalFare, f.commission, f.driverBonus)
  {
    if guild !in tables.configs then Err(HttpError(500, "Error calculating fare"))
    else
      var cfg := tables.configs[guild];
      var vehicle := LookupMultiplier(tables.vehicleMultipliers, (guild, req.vehicleType));
      var zone := LookupMultiplier(tables.zoneMultipliers, (guild, req.zoneType));
      var bonus := LookupMultiplier(tables.driverLevelMultipliers, (guild, req.driverLevel));
      var time := TimeMultiplier(cfg, req.isNightTime, req.isPeakHours);
      var subtotal := Subtotal(cfg, distanceKm, vehicle, zone, time);
      var commission := CommissionOf(subtotal, cfg.commissionPercent);
      Ok(FareResponse(cfg.baseFare, distanceKm, distanceKm * cfg.perKmRate, vehicle, zone, time, bonus,
                      commission, subtotal, EarningsOf(subtotal, commission, bonus)))
  }

  /** With no driver bonus the passenger's fare splits exactly into commission and driver earnings. */
  lemma CommissionSplit(tables: FareTables, guild: string, req: FareRequest, d: real)
    requires IsDistanceKm(req.originX, req.originY, req.destinationX, req.destinationY, d)
    requires CalculateFare(tables, guild, req, d).Ok?
    requires CalculateFare(tables, guild, req, d).value.driverBonus == 1.0
    ensures var f := CalculateFare(tables, guild, req, d).value; f.commission + f.driverEarnings == f.totalFare
  {
  }

  /** The driver's level changes only the driver's earnings, never the passenger's fare or the commission. */
  lemma DriverLevelDoesNotChangeFare(tables: FareTables, guild: string, req: FareRequest, level: int, d: real)
    requires IsDistanceKm(req.originX, req.originY, req.destinationX, req.destinationY, d)
    requires guild in tables.configs
    ensures var a := CalculateFare(tables, guild, req, d).value;
            var b := CalculateFare(tables, guild, req.(driverLevel := level), d).value;
            a.totalFare == b.totalFare && a.commission == b.commission
  {
  }

  lemma MulMono(a: real, b: real, c: real)
    requires 0.0 <= a <= b && c >= 0.0
    ensures a * c <= b * c
  {
  }

  lemma SubtotalMonotone(cfg: TaxiConfigRow, d1: real, d2: real, v: real, z: real, t: real)
    requires cfg.baseFare >= 0.0 && cfg.perKmRate >= 0.0 && v >= 0.0 && z >= 0.0 && t >= 0.0
    requires 0.0 <= d1 <= d2
    ensures Subtotal(cfg, d1, v, z, t) <= Subtotal(cfg, d2, v, z, t)
  {
    var a1 := cfg.baseFare + d1 * cfg.perKmRate;
    var a2 := cfg.baseFare + d2 * cfg.perKmRate;
    MulMono(d1, d2, cfg.perKmRate);
    MulMono(a1, a2, v);
    MulMono(a1 * v, a2 * v, z);
    MulMono(a1 * v * z, a2 * v * z, t);
  }

  /** With non-negative rates and multipliers, a longer trip never costs the passenger less:
      two requests that differ only in their end points are ordered by their distances. */
  lemma FareMonotoneInDistance(tables: FareTables, guild: string, r1: FareRequest, r2: FareRequest, d1: real, d2: real)
    requires IsDistanceKm(r1.originX, r1.originY, r1.destinationX, r1.destinationY, d1)
    requires IsDistanceKm(r2.originX, r2.originY, r2.destinationX, r2.destinationY, d2)
    requires r1.vehicleType == r2.vehicleType && r1.zoneType == r2.zoneType
    requires r1.isNightTime == r2.isNightTime && r1.isPeakHours == r2.isPeakHours
    requires guild in tables.configs
    requires var c := tables.configs[guild];
      c.baseFare >= 0.0 && c.perKmRate >= 0.0 && c.nightMultiplier >= 0.0 && c.peakHoursMultiplier >= 0.0
    requires forall k :: k in tables.vehicleMultipliers ==> tables.vehicleMultipliers[k] >= 0.0
    requires forall k :: k in tables.zoneMultipliers ==> tables.zoneMultipliers[k] >= 0.0
    requires d1 <= d2
    ensures CalculateFare(tables, guild, r1, d1).value.totalFare <= CalculateFare(tables, guild, r2, d2).value.totalFare
  {
    var cfg := tables.configs[guild];
    var t := TimeMultiplier(cfg, r1.isNightTime, r1.isPeakHours);
    assert t >= 0.0;
    SubtotalMonotone(cfg, d1, d2, LookupMultiplier(tables.vehicleMultipliers, (guild, r1.vehicleType)),
                     LookupMultiplier(tables.zoneMultipliers, (guild, r1.zoneType)), t);
  }
}
