/** The server-reset schedule commands: the HH:MM and day-list checks of adding a schedule, the
    rendering of the days when adding and when listing, and the tally of a test alert. Discord
    messages are replies; the monitored servers, the schedule store's answer and the outcome of
    each direct message are parameters. */
module ResetAlertsAdmin {
  import opened Wrappers
  import opened Text

  /** [0-5] */
  predicate IsTensOfMinutes(c: char) { '0' <= c <= '5' }

  /** ([01]?[0-9]|2[0-3]) on a whole text. */
  predicate HourOk(h: string)
  {
    || (|h| == 1 && IsDigit(h[0]))
    || (|h| == 2 && (h[0] == '0' || h[0] == '1') && IsDigit(h[1]))
    || (|h| == 2 && h[0] == '2' && '0' <= h[1] <= '3')
  }

  /** [0-5][0-9] on a whole text. */
  predicate MinuteOk(m: string)
  {
    |m| == 2 && IsTensOfMinutes(m[0]) && IsDigit(m[1])
  }

  /** The pattern between ^ and $: an hour, ':' and two minute digits. */
  predicate ClockText(s: string)
  {
    |s| >= 4 && s[|s| - 3] == ':' && HourOk(s[..|s| - 3]) && MinuteOk(s[|s| - 2..])
  }

  /** re.match with ^...$: `$` also matches just before a final newline. */
  predicate ResetTimeOk(s: string)
  {
    ClockText(s) || (|s| > 0 && s[|s| - 1] == '\n' && ClockText(s[..|s| - 1]))
  }

  /** An accepted time names an hour below 24 and a minute below 60. */
  lemma ClockTextMeaning(s: string)
    requires ClockText(s)
    ensures DigitsValue(s[..|s| - 3]) < 24 && DigitsValue(s[|s| - 2..]) < 60
  {
    var h := s[..|s| - 3];
    TwoDigits(s[|s| - 2..]);
    if |h| == 1 {
      assert h[..0] == [];
    } else {
      TwoDigits(h);
    }
  }

  /** Every time of day written with two-digit hours and minutes is accepted. */
  lemma EveryClockTimeAccepted(hour: nat, minute: nat)
    requires hour < 24 && minute < 60
    ensures ClockText(ZeroPad(hour, 2) + ":" + ZeroPad(minute, 2))
  {
    var h := ZeroPad(hour, 2);
    var m := ZeroPad(minute, 2);
    PaddedHour(hour);
    PaddedMinute(minute);
    var s := h + ":" + m;
    assert s[..|s| - 3] == h && s[|s| - 2..] == m;
  }

  lemma PaddedHour(hour: nat)
    requires hour < 24
    ensures |ZeroPad(hour, 2)| == 2 && HourOk(ZeroPad(hour, 2))
  {
    ShortNumber(hour);
    TwoDigits(ZeroPad(hour, 2));
  }

  lemma PaddedMinute(minute: nat)
    requires minute < 60
    ensures |ZeroPad(minute, 2)| == 2 && MinuteOk(ZeroPad(minute, 2))
  {
    ShortNumber(minute);
    TwoDigits(ZeroPad(minute, 2));
  }

  lemma ShortNumber(n: nat)
    requires n < 100
    ensures |NatToString(n)| <= 2
  {
    if n >= 10 {
      assert |NatToString(n / 10)| == 1;
    }
  }

  /** The value of two digits. */
  lemma TwoDigits(d: string)
    requires |d| == 2 && IsDigits(d)
    ensures DigitsValue(d) == DigitValue(d[0]) * 10 + DigitValue(d[1])
  {
    var first := d[..1];
    assert first[..0] == [] && d[..|d| - 1] == first;
    assert DigitsValue(first) == DigitValue(d[0]);
  }

  /** A time followed by a newline passes the pattern too. */
  lemma TrailingNewlineAccepted(s: string)
    requires ClockText(s)
    ensures ResetTimeOk(s + "\n")
  {
    assert (s + "\n")[..|s|] == s;
  }

  /** All of the parsed items, when none failed. */
  function AllParsed(xs: seq<Option<int>>): (r: Option<seq<int>>)
    ensures r.Some? <==> forall i :: 0 <= i < |xs| ==> xs[i].Some?
    ensures r.Some? ==> |r.value| == |xs| && forall i :: 0 <= i < |xs| ==> r.value[i] == xs[i].value
  {
    if xs == [] then Some([])
    else
      var rest := AllParsed(xs[..|xs| - 1]);
      if rest.None? || xs[|xs| - 1].None? then None else Some(rest.value + [xs[|xs| - 1].value])
  }

  /** `[int(d.strip()) for d in days.split(',')]` item by item, None where int() raises. */
  function StrippedParsed(items: seq<string>): (xs: seq<Option<int>>)
    ensures |xs| == |items|
  {
    seq(|items|, i requires 0 <= i < |items| => ParseInt(Strip(items[i])))
  }

  /** The whole list comprehension: None when an item is not an integer. */
  function ParseInts(items: seq<string>): (r: Option<seq<int>>)
  {
    AllParsed(StrippedParsed(items))
  }

  /** Stripping before int() changes nothing, since int() strips too. */
  lemma StripTwice(s: string)
    ensures ParseInt(Strip(s)) == ParseInt(s)
  {
    StripNoWhitespace(Strip(s));
    assert Strip(Strip(s)) == Strip(s);
  }

  predicate IsDay(d: int) { 1 <= d <= 7 }

  /** The day list of add_reset_schedule: every item an integer from 1 to 7, or refused. */
  function ParseDays(days: string): (r: Option<seq<int>>)
    ensures r.Some? ==> |r.value| == |Split(days, ',')| && forall i :: 0 <= i < |r.value| ==> IsDay(r.value[i])
  {
    DaysOf(Split(days, ','))
  }

  /** The days of the comma-separated items, when all of them name one. */
  function DaysOf(items: seq<string>): (r: Option<seq<int>>)
    ensures r.Some? ==> |r.value| == |items| && forall i :: 0 <= i < |r.value| ==> IsDay(r.value[i])
  {
    DaysOfParsed(StrippedParsed(items))
  }

  /** The days of the parsed items, when every item parsed and is a day. */
  function DaysOfParsed(xs: seq<Option<int>>): (r: Option<seq<int>>)
    ensures r.Some? ==> |r.value| == |xs| && forall i :: 0 <= i < |r.value| ==> IsDay(r.value[i])
  {
    var ints := AllParsed(xs);
    if ints.Some? && forall i :: 0 <= i < |ints.value| ==> IsDay(ints.value[i]) then ints else None
  }

  /** int() of each item, None where it raises. */
  function Parsed(items: seq<string>): (xs: seq<Option<int>>)
    ensures |xs| == |items|
  {
    seq(|items|, i requires 0 <= i < |items| => ParseInt(items[i]))
  }

  /** A day list is accepted exactly when every comma-separated item is an integer from 1 to 7,
      and then it holds those days in the order typed. */
  lemma ParseDaysMeaning(items: seq<string>)
    ensures var xs := Parsed(items);
      DaysOf(items).Some? <==> forall i :: 0 <= i < |xs| ==> xs[i].Some? && IsDay(xs[i].value)
    ensures var xs := Parsed(items);
      DaysOf(items).Some? ==> forall i :: 0 <= i < |xs| ==> DaysOf(items).value[i] == xs[i].value
  {
    StrippedItemsParsed(items);
    AllDays(Parsed(items));
  }

  /** Parsing the stripped items is parsing the items. */
  lemma StrippedItemsParsed(items: seq<string>)
    ensures StrippedParsed(items) == Parsed(items)
  {
    var xs := Parsed(items);
    var stripped := StrippedParsed(items);
    forall i | 0 <= i < |items| ensures stripped[i] == xs[i] {
      StripTwice(items[i]);
    }
  }

  /** The parsed items give days exactly when all of them parsed and each is a day, and then
      the days are the parsed values in order. */
  lemma AllDays(xs: seq<Option<int>>)
    ensures DaysOfParsed(xs).Some? <==> forall i :: 0 <= i < |xs| ==> xs[i].Some? && IsDay(xs[i].value)
    ensures DaysOfParsed(xs).Some? ==> forall i :: 0 <= i < |xs| ==> DaysOfParsed(xs).value[i] == xs[i].value
  {
  }

  /** The empty day list is refused: its one item is empty. */
  lemma EmptyDaysRefused()
    ensures ParseDays("").None?
  {
    assert Split("", ',') == [""] by { SplitFree("", ','); }
  }

  function DayName(d: int): string
    requires IsDay(d)
  {
    if d == 1 then "Lun" else if d == 2 then "Mar" else if d == 3 then "Mié" else if d == 4 then "Jue"
    else if d == 5 then "Vie" else if d == 6 then "Sáb" else "Dom"
  }

  predicate Ascending(s: seq<int>)
  {
    forall i, j :: 0 <= i < j < |s| ==> s[i] <= s[j]
  }

  function Insert(x: int, s: seq<int>): (r: seq<int>)
    ensures multiset(r) == multiset(s) + multiset{x}
  {
    if s == [] || x <= s[0] then [x] + s
    else
      assert s == [s[0]] + s[1..];
      [s[0]] + Insert(x, s[1..])
  }

  lemma {:induction false} InsertAscending(x: int, s: seq<int>)
    requires Ascending(s)
    ensures Ascending(Insert(x, s))
  {
    if s != [] && x > s[0] {
      InsertAscending(x, s[1..]);
      var r := Insert(x, s[1..]);
      forall k | 0 <= k < |r| ensures s[0] <= r[k] {
        assert r[k] in multiset(r);
        assert r[k] == x || r[k] in multiset(s[1..]);
        if r[k] != x {
          var j :| 0 <= j < |s[1..]| && s[1..][j] == r[k];
        }
      }
    }
  }

  /** sorted(): ascending, with the same elements. */
  function Sorted(s: seq<int>): (r: seq<int>)
    ensures multiset(r) == multiset(s) && Ascending(r)
  {
    if s == [] then []
    else
      assert s == [s[0]] + s[1..];
      var t := Sorted(s[1..]);
      InsertAscending(s[0], t);
      Insert(s[0], t)
  }

  /** ", ".join(names). */
  function JoinComma(names: seq<string>): string
  {
    if names == [] then ""
    else if |names| == 1 then names[0]
    else names[0] + ", " + JoinComma(names[1..])
  }

  function Names(days: seq<int>): (ns: seq<string>)
    requires forall i :: 0 <= i < |days| ==> IsDay(days[i])
    ensures |ns| == |days| && forall i :: 0 <= i < |days| ==> ns[i] == DayName(days[i])
  {
    if days == [] then [] else [DayName(days[0])] + Names(days[1..])
  }

  /** The days shown: their short names in ascending order, joined by ", ". */
  function RenderDays(days: seq<int>): string
    requires forall i :: 0 <= i < |days| ==> IsDay(days[i])
  {
    var s := Sorted(days);
    assert forall i :: 0 <= i < |s| ==> s[i] in multiset(days);
    JoinComma(Names(s))
  }

  /** Two ascending lists with the same elements are the same list. */
  lemma {:induction false} AscendingUnique(a: seq<int>, b: seq<int>)
    requires Ascending(a) && Ascending(b) && multiset(a) == multiset(b)
    ensures a == b
    decreases |a|
  {
    SameLength(a, b);
    if a != [] {
      SameFirst(a, b);
      Tail(a);
      Tail(b);
      AscendingUnique(a[1..], b[1..]);
      assert a == [a[0]] + a[1..] && b == [b[0]] + b[1..];
    }
  }

  lemma SameLength(a: seq<int>, b: seq<int>)
    requires multiset(a) == multiset(b)
    ensures |a| == |b|
  {
    assert |multiset(a)| == |a| && |multiset(b)| == |b|;
  }

  lemma SameFirst(a: seq<int>, b: seq<int>)
    requires Ascending(a) && Ascending(b) && multiset(a) == multiset(b) && a != [] && b != []
    ensures a[0] == b[0]
  {
    assert a[0] in multiset(a) && b[0] in multiset(b);
    LeastFirst(a, b[0]);
    LeastFirst(b, a[0]);
  }

  lemma Tail(a: seq<int>)
    requires a != [] && Ascending(a)
    ensures Ascending(a[1..]) && multiset(a[1..]) == multiset(a) - multiset{a[0]}
  {
    assert a == [a[0]] + a[1..];
  }

  lemma LeastFirst(a: seq<int>, x: int)
    requires Ascending(a) && x in multiset(a)
    ensures a[0] <= x
  {
    var j :| 0 <= j < |a| && a[j] == x;
  }

  /** The rendering does not depend on the order or grouping in which the days were typed. */
  lemma RenderIgnoresOrder(a: seq<int>, b: seq<int>)
    requires forall i :: 0 <= i < |a| ==> IsDay(a[i])
    requires forall i :: 0 <= i < |b| ==> IsDay(b[i])
    requires multiset(a) == multiset(b)
    ensures RenderDays(a) == RenderDays(b)
  {
    AscendingUnique(Sorted(a), Sorted(b));
  }

  /** view_reset_schedules: a stored day list is rendered when every item is an integer naming
      a day; otherwise (a parse error, or an integer outside 1..7 missing from the name table)
      it is shown verbatim. */
  function ShowStoredDays(stored: string): (shown: string)
  {
    var ints := ParseInts(Split(stored, ','));
    if ints.Some? && forall i :: 0 <= i < |ints.value| ==> IsDay(ints.value[i]) then RenderDays(ints.value)
    else stored
  }

  /** The listing renders a day list exactly when adding would accept it, and renders it the
      same way; anything else is shown as stored. */
  lemma ListingAgreesWithAdding(days: string)
    ensures ParseDays(days).Some? ==> ShowStoredDays(days) == RenderDays(ParseDays(days).value)
    ensures ParseDays(days).None? ==> ShowStoredDays(days) == days
  {
  }

  datatype AddReply =
    | BadTime
    | BadDays
    | UnknownServer(serverName: string)
    | Added(serverName: string, resetTime: string, timezone: string, daysShown: string)
    | StoreFailed

  /** add_reset_schedule: the time is checked, then the days, then that the server is one the
      guild monitors; only then is the schedule stored, with the day list as typed, and the
      reply shows the days rendered. `stored` is the schedule store's answer. */
  function AddResetSchedule(serverName: string, resetTime: string, timezone: string, days: string,
                            monitored: seq<string>, stored: bool): (r: AddReply)
    ensures !ResetTimeOk(resetTime) ==> r == BadTime
    ensures ResetTimeOk(resetTime) && ParseDays(days).None? ==> r == BadDays
    ensures r.Added? || r.StoreFailed? <==> ResetTimeOk(resetTime) && ParseDays(days).Some? && serverName in monitored
    ensures r.Added? <==> ResetTimeOk(resetTime) && ParseDays(days).Some? && serverName in monitored && stored
    ensures r.Added? ==> r.daysShown == ShowStoredDays(days) && r.resetTime == resetTime && r.serverName == serverName
    ensures r.UnknownServer? ==> serverName !in monitored && r.serverName == serverName
  {
    if !ResetTimeOk(resetTime) then BadTime
    else
      var parsed := ParseDays(days);
      if parsed.None? then BadDays
      else if serverName !in monitored then UnknownServer(serverName)
      else if stored then
        ListingAgreesWithAdding(days);
        Added(serverName, resetTime, timezone, RenderDays(parsed.value))
      else StoreFailed
  }

  /** A subscription row, and what became of its test message. */
  datatype Subscription = Subscription(userId: string, guildId: string, minutesBefore: int)
  datatype Delivery = Sent | DmBlocked | HttpFailed | NotFound | OtherError

  datatype TestReply =
    | NotInGuild
    | ServerNotFound
    | NoSubscribers
    | Report(sent: nat, dmBlocked: nat, notFound: nat, failed: nat, total: nat, allDelivered: bool)

  /** The subscriptions of one guild, in order. */
  function OfGuild(subs: seq<Subscription>, guild: string): (r: seq<Subscription>)
    ensures |r| <= |subs|
    ensures forall x :: x in r <==> x in subs && x.guildId == guild
  {
    if subs == [] then []
    else (if subs[0].guildId == guild then [subs[0]] else []) + OfGuild(subs[1..], guild)
  }

  /** How many subscriptions met an outcome of the given kind. */
  function CountOf(subs: seq<Subscription>, outcome: Subscription -> Delivery, kind: Delivery): nat
  {
    if subs == [] then 0
    else CountOf(subs[..|subs| - 1], outcome, kind) + (if outcome(subs[|subs| - 1]) == kind then 1 else 0)
  }

  /** Every subscription meets exactly one of the five outcomes. */
  lemma {:induction false} CountsAddUp(subs: seq<Subscription>, outcome: Subscription -> Delivery)
    ensures CountOf(subs, outcome, Sent) + CountOf(subs, outcome, DmBlocked) + CountOf(subs, outcome, NotFound)
            + CountOf(subs, outcome, HttpFailed) + CountOf(subs, outcome, OtherError) == |subs|
  {
    if subs != [] {
      CountsAddUp(subs[..|subs| - 1], outcome);
    }
  }

  /** test_reset_alert: refused outside a guild and for a server the guild does not monitor;
      otherwise the guild's subscribers are messaged one by one and the outcomes counted, HTTP
      and other errors together. The report is all-clear exactly when every message went out. */
  method TestResetAlert(inGuild: bool, guild: string, serverName: string, monitored: seq<string>,
                        allSubs: seq<Subscription>, outcome: Subscription -> Delivery) returns (r: TestReply)
    ensures !inGuild ==> r == NotInGuild
    ensures inGuild && serverName !in monitored ==> r == ServerNotFound
    ensures inGuild && serverName in monitored && OfGuild(allSubs, guild) == [] ==> r == NoSubscribers
    ensures r.Report? <==> inGuild && serverName in monitored && OfGuild(allSubs, guild) != []
    ensures r.Report? ==> var subs := OfGuild(allSubs, guild);
      && r.sent == CountOf(subs, outcome, Sent) && r.dmBlocked == CountOf(subs, outcome, DmBlocked)
      && r.notFound == CountOf(subs, outcome, NotFound)
      && r.failed == CountOf(subs, outcome, HttpFailed) + CountOf(subs, outcome, OtherError)
      && r.total == |subs| && r.sent + r.dmBlocked + r.notFound + r.failed == r.total
      && (r.allDelivered <==> r.sent == r.total)
  {
    if !inGuild {
      return NotInGuild;
    }
    if serverName !in monitored {
      return ServerNotFound;
    }
    var subs := OfGuild(allSubs, guild);
    if subs == [] {
      return NoSubscribers;
    }
    var sent, failed, notFound, blocked := 0, 0, 0, 0;
    var i := 0;
    while i < |subs|
      invariant 0 <= i <= |subs|
      invariant sent == CountOf(subs[..i], outcome, Sent) && blocked == CountOf(subs[..i], outcome, DmBlocked)
      invariant notFound == CountOf(subs[..i], outcome, NotFound)
      invariant failed == CountOf(subs[..i], outcome, HttpFailed) + CountOf(subs[..i], outcome, OtherError)
    {
      assert subs[..i + 1][..i] == subs[..i];
      match outcome(subs[i]) {
        case Sent => sent := sent + 1;
        case DmBlocked => blocked := blocked + 1;
        case HttpFailed => failed := failed + 1;
        case OtherError => failed := failed + 1;
        case NotFound => notFound := notFound + 1;
      }
      i := i + 1;
    }
    assert subs[..i] == subs;
    CountsAddUp(subs, outcome);
    var totalFailed := failed + notFound + blocked;
    r := Report(sent, blocked, notFound, failed, |subs|, totalFailed == 0);
  }
}
