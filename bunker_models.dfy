/** The field validators of the admin panel's bunker request bodies. Each returns the value the
    body will hold, possibly normalised, or the message of the ValueError it raises. */
module BunkerModels {
  import opened Wrappers
  import opened Text

  /** ServerCreate.name: refused when blank once stripped or longer than 50 characters as sent;
      otherwise kept stripped. */
  function ValidateServerName(v: string): (r: Result<string, string>)
    ensures r.Ok? <==> |Strip(v)| > 0 && |v| <= 50
    ensures r.Ok? ==> r.value == Strip(v) && 0 < |r.value| <= 50
    ensures r.Ok? ==> !IsWhitespace(r.value[0]) && !IsWhitespace(r.value[|r.value| - 1])
  {
    if |Strip(v)| == 0 then Err("Server name cannot be empty")
    else if |v| > 50 then Err("Server name too long")
    else Ok(Strip(v))
  }

  lemma StripIdempotent(s: string)
    ensures Strip(Strip(s)) == Strip(s)
  {
    StripNoWhitespace(Strip(s));
  }

  /** A stored server name passes the validator again unchanged. */
  lemma ServerNameIdempotent(v: string)
    requires ValidateServerName(v).Ok?
    ensures ValidateServerName(ValidateServerName(v).value) == ValidateServerName(v)
  {
    StripIdempotent(v);
  }

  /** ServerCreate.max_bunkers: from 1 to 1000. */
  function ValidateMaxBunkers(v: int): (r: Result<int, string>)
    ensures r.Ok? <==> 1 <= v <= 1000
    ensures r.Ok? ==> r.value == v
    ensures v <= 0 ==> r == Err("Max bunkers must be positive")
  {
    if v <= 0 then Err("Max bunkers must be positive")
    else if v > 1000 then Err("Max bunkers too high (limit 1000)")
    else Ok(v)
  }

  /** ServerUpdate.max_bunkers: absent, or from 1 to 1000. */
  function ValidateMaxBunkersUpdate(v: Option<int>): (r: Result<Option<int>, string>)
    ensures r.Ok? <==> v.None? || 1 <= v.value <= 1000
    ensures r.Ok? ==> r.value == v
  {
    if v.Some? && v.value <= 0 then Err("Max bunkers must be positive")
    else if v.Some? && v.value > 1000 then Err("Max bunkers too high (limit 1000)")
    else Ok(v)
  }

  /** The update check accepts a given value exactly when the create check does. */
  lemma MaxBunkersChecksAgree(v: int)
    ensures ValidateMaxBunkersUpdate(Some(v)).Ok? <==> ValidateMaxBunkers(v).Ok?
    ensures ValidateMaxBunkersUpdate(Some(v)).Err? ==> ValidateMaxBunkersUpdate(Some(v)).error == ValidateMaxBunkers(v).error
  {
  }

  /** BunkerSectorCreate.sector: refused when blank once stripped or longer than 20 characters as
      sent; otherwise stripped and uppercased. */
  function ValidateSector(v: string): (r: Result<string, string>)
    ensures r.Ok? <==> |Strip(v)| > 0 && |v| <= 20
    ensures r.Ok? ==> r.value == ToUpper(Strip(v)) && 0 < |r.value| <= 20
    ensures r.Ok? ==> forall i :: 0 <= i < |r.value| ==> !('a' <= r.value[i] <= 'z')
  {
    if |Strip(v)| == 0 then Err("Sector cannot be empty")
    else if |v| > 20 then Err("Sector too long")
    else Ok(ToUpper(Strip(v)))
  }

  lemma UpperKeepsWhitespace(c: char)
    ensures IsWhitespace(Upper(c)) <==> IsWhitespace(c)
  {
  }

  /** A stored sector code passes the validator again unchanged, so a code can be looked up by
      validating what the user typed. */
  lemma SectorIdempotent(v: string)
    requires ValidateSector(v).Ok?
    ensures ValidateSector(ValidateSector(v).value) == ValidateSector(v)
  {
    var s := Strip(v);
    var u := ToUpper(s);
    UpperKeepsWhitespace(s[0]);
    UpperKeepsWhitespace(s[|s| - 1]);
    StripNoWhitespace(u);
    assert ToUpper(u) == u;
  }

  /** Two spellings of a code that differ only in letter case and surrounding blanks validate to
      the same code. */
  lemma SectorIgnoresCaseAndBlanks(v: string, w: string)
    requires ValidateSector(v).Ok? && ValidateSector(w).Ok?
    requires ToUpper(Strip(v)) == ToUpper(Strip(w))
    ensures ValidateSector(v).value == ValidateSector(w).value
  {
  }

  /** BunkerSectorCreate.default_duration_hours: from 1 to 168 (a week). */
  function ValidateDuration(v: int): (r: Result<int, string>)
    ensures r.Ok? <==> 1 <= v <= 168
    ensures r.Ok? ==> r.value == v
  {
    if v <= 0 then Err("Duration must be positive")
    else if v > 168 then Err("Duration too long (max 7 days)")
    else Ok(v)
  }

  /** NotificationConfigCreate.minutes_before: from 0 to 1440 (a day). */
  function ValidateMinutesBefore(v: int): (r: Result<int, string>)
    ensures r.Ok? <==> 0 <= v <= 1440
    ensures r.Ok? ==> r.value == v
  {
    if v < 0 then Err("Minutes before cannot be negative")
    else if v > 1440 then Err("Minutes before too high (max 24 hours)")
    else Ok(v)
  }

  /** BunkerManualRegister.hours: from 0 to 168. */
  function ValidateHours(v: int): (r: Result<int, string>)
    ensures r.Ok? <==> 0 <= v <= 168
    ensures r.Ok? ==> r.value == v
  {
    if v < 0 || v > 168 then Err("Hours must be between 0 and 168") else Ok(v)
  }

  /** BunkerManualRegister.minutes: from 0 to 59. */
  function ValidateMinutes(v: int): (r: Result<int, string>)
    ensures r.Ok? <==> 0 <= v < 60
    ensures r.Ok? ==> r.value == v
  {
    if v < 0 || v >= 60 then Err("Minutes must be between 0 and 59") else Ok(v)
  }

  /** A manual registration that passes both checks lasts from zero up to a week and 59 minutes,
      and its minutes never spill into the next hour. */
  lemma ManualDurationBounds(hours: int, minutes: int)
    requires ValidateHours(hours).Ok? && ValidateMinutes(minutes).Ok?
    ensures 0 <= hours * 3600 + minutes * 60 <= 168 * 3600 + 59 * 60
    ensures (hours * 3600 + minutes * 60) / 3600 == hours
    ensures (hours * 3600 + minutes * 60) % 3600 / 60 == minutes
  {
  }

  /** BunkerBulkAction.bunker_ids: between 1 and 100 ids. */
  function ValidateBunkerIds(v: seq<int>): (r: Result<seq<int>, string>)
    ensures r.Ok? <==> 1 <= |v| <= 100
    ensures r.Ok? ==> r.value == v
  {
    if |v| == 0 then Err("At least one bunker ID required")
    else if |v| > 100 then Err("Too many bunkers (max 100)")
    else Ok(v)
  }

  /** BunkerExportRequest.format: json, csv or xlsx, exactly as spelled. */
  function ValidateExportFormat(v: string): (r: Result<string, string>)
    ensures r.Ok? <==> v == "json" || v == "csv" || v == "xlsx"
    ensures r.Ok? ==> r.value == v
  {
    if v !in ["json", "csv", "xlsx"] then Err("Invalid format") else Ok(v)
  }
}
