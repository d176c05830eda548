/** The taxi administration commands: the per-user interaction cooldown, map coordinates of a
    grid and pad, the fare estimate of a request, and the zone listing shown in a modal. */
module TaxiAdmin {
  import opened Wrappers
  import opened Text
  import TC = TaxiConfig

  // ---------------------------------------------------------------- cooldown

  const GlobalCooldown: real := 2.0

  /** USER_COOLDOWNS: the time of each user's last accepted interaction. */
  class Cooldowns {
    var lastUse: map<int, real>

    constructor ()
      ensures lastUse == map[]
    {
      lastUse := map[];
    }

    /** check_cooldown: refuses a user seen less than two seconds ago and leaves the table
        alone; otherwise records `now` for that user only. */
    method CheckCooldown(userId: int, now: real) returns (allowed: bool)
      modifies this
      ensures allowed <==> !(userId in old(lastUse) && now - old(lastUse)[userId] < GlobalCooldown)
      ensures allowed ==> lastUse == old(lastUse)[userId := now]
      ensures !allowed ==> lastUse == old(lastUse)
    {
      if userId in lastUse && now - lastUse[userId] < GlobalCooldown {
        return false;
      }
      lastUse := lastUse[userId := now];
      return true;
    }
  }

  // ---------------------------------------------------------------- coordinates

  /** format_zone_with_coordinates: the zone name, followed by its grid-pad when both
      coordinates are known. */
  function FormatZoneWithCoordinates(zoneName: string, x: Option<real>, y: Option<real>): (r: string)
    ensures x.None? || y.None? ==> r == zoneName
    ensures x.Some? && y.Some? ==> r == zoneName + " (" + TC.CoordsToGridPad(x.value, y.value) + ")"
    ensures StartsWith(r, zoneName)
  {
    if x.None? || y.None? then zoneName
    else
      var gridPad := TC.CoordsToGridPad(x.value, y.value);
      if gridPad != "" then zoneName + " (" + gridPad + ")" else zoneName
  }

  const PadOffsets: map<int, (int, int)> := map[
    1 := (-250, -250), 2 := (0, -250), 3 := (250, -250),
    4 := (-250, 0),    5 := (0, 0),    6 := (250, 0),
    7 := (-250, 250),  8 := (0, 250),  9 := (250, 250)]

  /** The offset of a pad from its grid square's centre, laid out like a numeric keypad. */
  function PadOffset(pad: int): (r: (int, int))
    ensures 1 <= pad <= 9 ==> r == (((pad - 1) % 3 - 1) * 250, ((pad - 1) / 3 - 1) * 250)
    ensures !(1 <= pad <= 9) ==> r == (0, 0)
    ensures r.0 in {-250, 0, 250} && r.1 in {-250, 0, 250}
  {
    if pad in PadOffsets then PadOffsets[pad] else (0, 0)
  }

  /** The nested grid_to_coords of process_taxi_request: a letter column of 1000 units per
      letter from 'A', a numeric row of 1000 units (0 when not numeric), the pad's offset,
      and a height of 100. An empty grid or pad 0 gives the origin. */
  function GridToCoords(grid: string, pad: int): (r: (int, int, real))
    ensures grid == "" || pad == 0 ==> r == (0, 0, 0.0)
    ensures grid != "" && pad != 0 ==>
      var number := if |grid| > 1 then grid[1..] else "0";
      && r.0 == (Upper(grid[0]) as int - 'A' as int) * 1000 + PadOffset(pad).0
      && r.1 == (if IsDigits(number) then DigitsValue(number) * 1000 else 0) + PadOffset(pad).1
      && r.2 == 100.0
  {
    if grid == "" || pad == 0 then (0, 0, 0.0)
    else
      var letter := grid[0];
      var number := if |grid| > 1 then grid[1..] else "0";
      var xBase := (Upper(letter) as int - 'A' as int) * 1000;
      var yBase := if IsDigits(number) then DigitsValue(number) * 1000 else 0;
      var offset := PadOffset(pad);
      (xBase + offset.0, yBase + offset.1, 100.0)
  }

  /** Distinct pads 1..9 of one grid square land on distinct points. */
  lemma GridToCoordsInjectiveOnPads(grid: string, p: int, q: int)
    requires grid != "" && 1 <= p <= 9 && 1 <= q <= 9 && p != q
    ensures GridToCoords(grid, p) != GridToCoords(grid, q)
  {
  }

  // ---------------------------------------------------------------- fare estimate

  /** The fare shown when a request is confirmed: the base rate and five kilometres, each
      scaled by the vehicle's cost multiplier. */
  function RequestFareEstimate(baseRate: real, perKmRate: real, costMultiplier: real): (fare: real)
    ensures fare == (baseRate + 5.0 * perKmRate) * costMultiplier
  {
    var baseFare := baseRate * costMultiplier;
    var distanceFare := (perKmRate * 5.0) * costMultiplier;
    baseFare + distanceFare
  }

  /** The estimate is calculate_fare for a five-kilometre trip in the same vehicle. */
  lemma EstimateIsFiveKmFare(cfg: TC.Config, vehicle: string)
    requires cfg.taxiEnabled && vehicle in cfg.vehicleTypes && cfg.vehicleTypes[vehicle].costMultiplier.Some?
    ensures RequestFareEstimate(cfg.baseRate, cfg.perKmRate, cfg.vehicleTypes[vehicle].costMultiplier.value)
         == TC.CalculateFare(cfg, 5.0, vehicle)
  {
  }

  // ---------------------------------------------------------------- zone listing

  const TypeOrder: seq<string> := ["city", "port", "town", "airport", "industrial", "mining", "resource", "forest", "island", "bunker"]

  const TypeInfo: map<string, (string, string)> := map[
    "city" := ("🏙️", "CIUDADES"), "port" := ("🚢", "PUERTOS"), "town" := ("🏘️", "PUEBLOS"),
    "airport" := ("✈️", "AEROPUERTOS"), "industrial" := ("🏭", "INDUSTRIALES"), "mining" := ("⛏️", "MINERAS"),
    "resource" := ("📦", "RECURSOS"), "forest" := ("🌲", "BOSQUES"), "island" := ("🏝️", "ISLAS"),
    "bunker" := ("⚔️", "BUNKERS ⚠️")]

  function Repeat(c: char, n: nat): (s: string)
    ensures |s| == n && forall i :: 0 <= i < n ==> s[i] == c
  {
    seq(n, _ => c)
  }

  const MaxZonesPerType: nat := 5

  /** A zone name as listed: names over 25 characters keep their first 22 and gain "...". */
  function DisplayName(name: string): (r: string)
    ensures |name| <= 25 ==> r == name
    ensures |name| > 25 ==> |r| == 25 && r == name[..22] + "..."
  {
    if |name| > 25 then name[..22] + "..." else name
  }

  function ZoneTypeOf(z: TC.Zone): string { z.zoneType.GetOr("other") }

  function Restriction(z: TC.Zone): string { z.restriction.GetOr("neutral") }

  function PadMark(pad: Option<int>): string { if pad.Some? then IntToString(pad.value) else "?" }

  function EntryLine(z: TC.Zone): string {
    var coordinates := z.coordinates.GetOr(z.grid.GetOr("??") + "-" + PadMark(z.pad));
    var status := if Restriction(z) == "safe_zone" then " 🛡️" else if Restriction(z) == "combat_zone" then " ⚠️" else "";
    "  " + coordinates + " • " + DisplayName(z.name) + status
  }

  /** The entry lines of one type's section: zones in order, no-taxi zones skipped without
      being counted, at most five lines. `shown` is how many lines came before. */
  function Entries(zones: seq<TC.Zone>, shown: nat): seq<string>
  {
    if zones == [] || shown >= MaxZonesPerType then []
    else if Restriction(zones[0]) == "no_taxi" then Entries(zones[1..], shown)
    else [EntryLine(zones[0])] + Entries(zones[1..], shown + 1)
  }

  function CountListable(zones: seq<TC.Zone>): nat {
    if zones == [] then 0
    else (if Restriction(zones[0]) == "no_taxi" then 0 else 1) + CountListable(zones[1..])
  }

  function Min(a: int, b: int): int { if a <= b then a else b }

  /** A section lists exactly the first five zones that allow taxis (or all of them if fewer). */
  lemma {:induction false} EntriesCount(zones: seq<TC.Zone>, shown: nat)
    requires shown <= MaxZonesPerType
    ensures |Entries(zones, shown)| == Min(MaxZonesPerType - shown, CountListable(zones))
  {
    if zones != [] && shown < MaxZonesPerType {
      if Restriction(zones[0]) == "no_taxi" {
        EntriesCount(zones[1..], shown);
      } else {
        EntriesCount(zones[1..], shown + 1);
      }
    }
  }

  /** The zone loop of _build_zones_content for one type. */
  method ListZones(zones: seq<TC.Zone>) returns (lines: seq<string>)
    ensures lines == Entries(zones, 0)
  {
    lines := [];
    var zoneCount := 0;
    var i := 0;
    while i < |zones|
      invariant 0 <= i <= |zones| && zoneCount <= MaxZonesPerType
      invariant zoneCount == |lines|
      invariant lines + Entries(zones[i..], zoneCount) == Entries(zones, 0)
    {
      if zoneCount >= MaxZonesPerType {
        break;
      }
      var z := zones[i];
      if Restriction(z) == "no_taxi" {
        i := i + 1;
        continue;
      }
      lines := lines + [EntryLine(z)];
      zoneCount := zoneCount + 1;
      i := i + 1;
    }
  }

  /** The zones of one type, in table order. */
  function OfType(zones: seq<(string, TC.Zone)>, t: string): (r: seq<TC.Zone>)
    ensures forall z :: z in r ==> ZoneTypeOf(z) == t
  {
    if zones == [] then []
    else (if ZoneTypeOf(zones[0].1) == t then [zones[0].1] else []) + OfType(zones[1..], t)
  }

  const Header: seq<string> := ["🗺️ MAPA DE ZONAS SCUM", Repeat('═', 30), "📐 Sistema: Grid + PAD (Ej: B2-5)",
                                "📐 Layout PAD: 7-8-9 / 4-5-6 / 1-2-3", ""]

  function Footer(baseRateText: string, perKmText: string): seq<string> {
    ["💰 TARIFAS:", Repeat('─', 20), "  Base: $" + baseRateText, "  Por KM: $" + perKmText, "",
     "📖 LEYENDA:", Repeat('─', 20), "🛡️ = Zona Segura", "⚠️ = Zona de Riesgo", "🚫 = Sin Servicio de Taxi", "",
     "🎯 Para solicitar: Usa '🚖 Solicitar Taxi'"]
  }

  /** The section of one zone type: its title, a rule, its entries and a blank line; nothing
      when the table has no zone of that type. */
  function Section(zones: seq<(string, TC.Zone)>, t: string): seq<string> {
    var ofType := OfType(zones, t);
    if ofType == [] then []
    else
      var info := if t in TypeInfo then TypeInfo[t] else ("📍", ToUpper(t));
      [info.0 + " " + info.1 + ":", Repeat('─', 20)] + Entries(ofType, 0) + [""]
  }

  function Sections(zones: seq<(string, TC.Zone)>, types: seq<string>): seq<string> {
    if types == [] then [] else Section(zones, types[0]) + Sections(zones, types[1..])
  }

  /** The listing's lines before truncation. The two rate lines show the configured rates as
      Python prints them; that formatting is passed in. */
  function ContentLines(zones: seq<(string, TC.Zone)>, baseRateText: string, perKmText: string): seq<string> {
    Header + Sections(zones, TypeOrder) + Footer(baseRateText, perKmText)
  }

  // ---------------------------------------------------------------- truncation

  const MaxContent: nat := 3900
  const LineBudget: nat := 3800
  const TruncationNotice: seq<string> := ["...", "⚠️ Lista truncada por límite de Discord", "💡 Usa '🚖 Solicitar Taxi' para ver todas"]

  /** Characters the loop counts for the given lines: each line and its newline. */
  function Cost(lines: seq<string>): nat {
    if lines == [] then 0 else |lines[0]| + 1 + Cost(lines[1..])
  }

  /** The truncation loop: whole lines while their running cost stays within the budget,
      then the three notice lines. */
  function KeepLines(lines: seq<string>, used: nat): seq<string> {
    if lines == [] then []
    else if used + |lines[0]| + 1 > LineBudget then TruncationNotice
    else [lines[0]] + KeepLines(lines[1..], used + |lines[0]| + 1)
  }

  function Truncated(full: string): string {
    if |full| > MaxContent then Join(KeepLines(Split(full, '\n'), 0), '\n') else full
  }

  method TruncateContent(full: string) returns (r: string)
    ensures r == Truncated(full)
  {
    if |full| <= MaxContent {
      return full;
    }
    var lines := Split(full, '\n');
    var kept: seq<string> := [];
    var currentLength: nat := 0;
    var i := 0;
    while i < |lines|
      invariant 0 <= i <= |lines|
      invariant kept + KeepLines(lines[i..], currentLength) == KeepLines(lines, 0)
    {
      var line := lines[i];
      assert lines[i..][1..] == lines[i + 1..];
      if currentLength + |line| + 1 > LineBudget {
        kept := kept + TruncationNotice;
        assert kept == KeepLines(lines, 0);
        r := Join(kept, '\n');
        assert r == Truncated(full);
        return;
      }
      kept := kept + [line];
      currentLength := currentLength + |line| + 1;
      i := i + 1;
    }
    assert lines[i..] == [];
    assert kept == KeepLines(lines, 0);
    r := Join(kept, '\n');
  }

  lemma {:induction false} CostOfJoin(lines: seq<string>)
    requires lines != []
    ensures Cost(lines) == |Join(lines, '\n')| + 1
  {
    if |lines| > 1 {
      CostOfJoin(lines[1..]);
    }
  }

  /** How many whole lines the truncation loop keeps before the notice. */
  function KeptCount(lines: seq<string>, used: nat): (k: nat)
    ensures k <= |lines|
  {
    if lines == [] || used + |lines[0]| + 1 > LineBudget then 0
    else 1 + KeptCount(lines[1..], used + |lines[0]| + 1)
  }

  /** The cost of a non-empty prefix: its first line and newline, then the rest. */
  lemma CostOfPrefix(lines: seq<string>, k: nat)
    requires 0 < k <= |lines|
    ensures Cost(lines[..k]) == |lines[0]| + 1 + Cost(lines[1..][..k - 1])
  {
    assert lines[..k][1..] == lines[1..][..k - 1];
  }

  /** When the loop starts with `used` characters and the lines cost more than the budget
      allows, it keeps a prefix of whole lines whose cost stays within the budget and adds
      the notice, and the next line would have gone over. */
  lemma {:induction false} KeepLinesShape(lines: seq<string>, used: nat)
    requires used <= LineBudget < used + Cost(lines)
    ensures KeptCount(lines, used) < |lines|
    ensures KeepLines(lines, used) == lines[..KeptCount(lines, used)] + TruncationNotice
    ensures used + Cost(lines[..KeptCount(lines, used)]) <= LineBudget
    ensures used + Cost(lines[..KeptCount(lines, used) + 1]) > LineBudget
  {
    assert lines != [];
    var head := |lines[0]| + 1;
    if used + head > LineBudget {
      assert lines[..0] == [];
      CostOfPrefix(lines, 1);
    } else {
      var rest := lines[1..];
      KeepLinesShape(rest, used + head);
      var k := KeptCount(rest, used + head);
      CostOfPrefix(lines, k + 1);
      CostOfPrefix(lines, k + 2);
      assert lines[..k + 1] == [lines[0]] + rest[..k];
      assert [lines[0]] + (rest[..k] + TruncationNotice) == ([lines[0]] + rest[..k]) + TruncationNotice;
    }
  }

  /** Content over 3900 characters is cut to the longest prefix of whole lines costing at
      most 3800 characters, followed by exactly the three notice lines. */
  lemma TruncatedContentShape(full: string)
    requires |full| > MaxContent
    ensures var lines := Split(full, '\n'); var k := KeptCount(lines, 0);
      && k < |lines|
      && Truncated(full) == Join(lines[..k] + TruncationNotice, '\n')
      && Cost(lines[..k]) <= LineBudget < Cost(lines[..k + 1])
  {
    var lines := Split(full, '\n');
    JoinSplit(full, '\n');
    CostOfJoin(lines);
    KeepLinesShape(lines, 0);
  }

  /** The body of the type loop of _build_zones_content. */
  method BuildSection(zones: seq<(string, TC.Zone)>, t: string) returns (lines: seq<string>)
    ensures lines == Section(zones, t)
  {
    lines := [];
    var ofType := OfType(zones, t);
    if ofType != [] {
      var info := if t in TypeInfo then TypeInfo[t] else ("📍", ToUpper(t));
      lines := [info.0 + " " + info.1 + ":", Repeat('─', 20)];
      var entries := ListZones(ofType);
      lines := lines + entries + [""];
    }
  }

  /** The type loop of _build_zones_content: the sections of the given types, in order. */
  method BuildSections(zones: seq<(string, TC.Zone)>, types: seq<string>) returns (lines: seq<string>)
    ensures lines == Sections(zones, types)
  {
    lines := [];
    var t := 0;
    while t < |types|
      invariant 0 <= t <= |types|
      invariant lines + Sections(zones, types[t..]) == Sections(zones, types)
    {
      var section := BuildSection(zones, types[t]);
      assert types[t..][1..] == types[t + 1..];
      lines := lines + section;
      t := t + 1;
    }
    assert types[t..] == [];
  }

  /** _build_zones_content: the header, the section of each zone type in the fixed order,
      the rates and legend, joined by newlines and truncated. */
  method BuildZonesContent(zones: seq<(string, TC.Zone)>, baseRateText: string, perKmText: string) returns (r: string)
    ensures r == Truncated(Join(ContentLines(zones, baseRateText, perKmText), '\n'))
  {
    var sections := BuildSections(zones, TypeOrder);
    var content := Header + sections + Footer(baseRateText, perKmText);
    r := TruncateContent(Join(content, '\n'));
  }
}
