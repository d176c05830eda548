/** The fame-point tables: the per-guild list of claimable fame values, kept as a comma-separated
    text column, and the claims, which start pending and are confirmed or rejected once. Claim
    ids are the autoincrement row ids: the claim at position i has id i + 1. Claim times are
    seconds. */
module FameRewardsDatabase {
  import opened Wrappers
  import opened Text

  datatype Claim = Claim(userId: string, discordId: string, guild: string, amount: int, status: string,
                         claimedAt: real, decidedBy: Option<string>, notificationId: Option<string>)

  /** The values a guild without a stored list offers. */
  const DefaultFameValues: seq<int> := [100, 500, 1000, 2000, 5000, 10000, 15000]

  // ---------------------------------------------------------------- the values column

  /** int(x) for each item. */
  function Parsed(items: seq<string>): (r: seq<Option<int>>)
    ensures |r| == |items| && forall k :: 0 <= k < |items| ==> r[k] == ParseInt(items[k])
  {
    seq(|items|, k requires 0 <= k < |items| => ParseInt(items[k]))
  }

  /** The list comprehension over parsed items: one failure makes the whole read fail. */
  function AllSome(os: seq<Option<int>>): (r: Option<seq<int>>)
    ensures r.Some? ==> |r.value| == |os|
  {
    if os == [] then Some([])
    else
      var init := AllSome(os[..|os| - 1]);
      var last := os[|os| - 1];
      if init.None? || last.None? then None else Some(init.value + [last.value])
  }

  /** Each value read back is the parse of its item. */
  lemma {:induction false} AllSomeValues(os: seq<Option<int>>, k: int)
    requires AllSome(os).Some? && 0 <= k < |os|
    ensures os[k] == Some(AllSome(os).value[k])
  {
    var n := |os|;
    if k < n - 1 {
      AllSomeValues(os[..n - 1], k);
    }
  }

  /** The read fails only on an item that does not parse. */
  lemma {:induction false} AllSomeFails(os: seq<Option<int>>)
    requires AllSome(os).None?
    ensures exists k :: 0 <= k < |os| && os[k].None?
  {
    var n := |os|;
    var init := os[..n - 1];
    if AllSome(init).None? {
      AllSomeFails(init);
      var k :| 0 <= k < |init| && init[k].None?;
      assert os[k] == init[k];
    } else {
      assert os[n - 1].None?;
    }
  }

  /** The stored text read back: split on ',' and each piece parsed. */
  function ParseConfig(s: string): Option<seq<int>>
  {
    AllSome(Parsed(Split(s, ',')))
  }

  function Strings(xs: seq<int>): (r: seq<string>)
    ensures |r| == |xs| && forall k :: 0 <= k < |xs| ==> r[k] == IntToString(xs[k])
  {
    if xs == [] then [] else Strings(xs[..|xs| - 1]) + [IntToString(xs[|xs| - 1])]
  }

  /** ",".join(map(str, values)). */
  function JoinConfig(xs: seq<int>): string
  {
    Join(Strings(xs), ',')
  }

  lemma NoCommaInNumber(i: int)
    ensures ',' !in IntToString(i)
  {
    var s := IntToString(i);
    var d := if i < 0 then NatToString(-i) else NatToString(i);
    assert s == (if i < 0 then "-" else "") + d;
    forall k | 0 <= k < |s|
      ensures s[k] != ','
    {
      if i < 0 && k > 0 {
        assert s[k] == d[k - 1];
      } else if i >= 0 {
        assert s[k] == d[k];
      }
    }
  }

  lemma {:induction false} AllSomeOfValues(xs: seq<int>, os: seq<Option<int>>)
    requires |os| == |xs| && forall k :: 0 <= k < |xs| ==> os[k] == Some(xs[k])
    ensures AllSome(os) == Some(xs)
  {
    if xs != [] {
      var n := |xs|;
      AllSomeOfValues(xs[..n - 1], os[..n - 1]);
      assert xs[..n - 1] + [xs[n - 1]] == xs;
    }
  }

  /** Every number written by str() parses back to itself. */
  lemma ParseStrings(xs: seq<int>)
    ensures AllSome(Parsed(Strings(xs))) == Some(xs)
  {
    var os := Parsed(Strings(xs));
    forall k | 0 <= k < |xs| ensures os[k] == Some(xs[k]) {
      ParseIntOfString(xs[k]);
    }
    AllSomeOfValues(xs, os);
  }

  /** Reading back what set_fame_config stored gives the same values, for any non-empty list. */
  lemma ConfigRoundTrip(xs: seq<int>)
    requires |xs| >= 1
    ensures ParseConfig(JoinConfig(xs)) == Some(xs)
  {
    var strs := Strings(xs);
    forall k | 0 <= k < |strs|
      ensures ',' !in strs[k]
    {
      NoCommaInNumber(xs[k]);
    }
    SplitJoin(strs, ',');
    ParseStrings(xs);
  }

  /** An empty list is stored as "" and cannot be read back: int("") fails. */
  lemma EmptyConfigUnreadable()
    ensures ParseConfig(JoinConfig([])) == None
  {
    assert Split("", ',') == [""];
    assert ParseInt("") == None;
  }

  // ---------------------------------------------------------------- claim ranking

  /** The top list's order: more fame first, then the earlier claim. */
  predicate Before(a: Claim, b: Claim)
  {
    a.amount > b.amount || (a.amount == b.amount && a.claimedAt <= b.claimedAt)
  }

  predicate RankSorted(s: seq<Claim>)
  {
    forall i, j :: 0 <= i < j < |s| ==> Before(s[i], s[j])
  }

  /** A claim that comes before every claim of a list, and before x, comes before every claim of
      any rearrangement of that list with x added. */
  lemma BeforeAllOf(h: Claim, rest: seq<Claim>, x: Claim, t: seq<Claim>)
    requires Before(h, x) && forall k :: 0 <= k < |rest| ==> Before(h, rest[k])
    requires multiset(t) == multiset(rest) + multiset{x}
    ensures forall j :: 0 <= j < |t| ==> Before(h, t[j])
  {
    forall j | 0 <= j < |t| ensures Before(h, t[j]) {
      assert t[j] in multiset(t);
      if t[j] != x {
        assert t[j] in multiset(rest);
        var k :| 0 <= k < |rest| && rest[k] == t[j];
      }
    }
  }

  function Insert(x: Claim, s: seq<Claim>): (r: seq<Claim>)
    requires RankSorted(s)
    ensures RankSorted(r) && multiset(r) == multiset(s) + multiset{x}
  {
    if s == [] then [x]
    else if Before(x, s[0]) then [x] + s
    else
      var tail := Insert(x, s[1..]);
      assert s == [s[0]] + s[1..];
      BeforeAllOf(s[0], s[1..], x, tail);
      [s[0]] + tail
  }

  /** The claims in top-list order. */
  function Ranked(s: seq<Claim>): (r: seq<Claim>)
    ensures RankSorted(r) && multiset(r) == multiset(s)
  {
    if s == [] then []
    else
      assert s == s[..|s| - 1] + [s[|s| - 1]];
      Insert(s[|s| - 1], Ranked(s[..|s| - 1]))
  }

  /** The guild's confirmed claims. */
  function Confirmed(claims: seq<Claim>, guild: string): (r: seq<Claim>)
    ensures forall c :: c in r <==> c in claims && c.guild == guild && c.status == "confirmed"
  {
    if claims == [] then []
    else
      var rest := Confirmed(claims[..|claims| - 1], guild);
      var last := claims[|claims| - 1];
      assert claims == claims[..|claims| - 1] + [last];
      if last.guild == guild && last.status == "confirmed" then rest + [last] else rest
  }

  /** get_top_fame_claims: the guild's confirmed claims in top-list order, at most `limit` of
      them (a negative LIMIT does not limit). */
  function TopClaims(claims: seq<Claim>, guild: string, limit: int): (r: seq<Claim>)
    ensures forall c :: c in r ==> c in claims && c.guild == guild && c.status == "confirmed"
    ensures RankSorted(r)
    ensures |r| == if 0 <= limit < |Confirmed(claims, guild)| then limit else |Confirmed(claims, guild)|
  {
    var all := Ranked(Confirmed(claims, guild));
    assert |all| == |multiset(all)| == |Confirmed(claims, guild)|;
    var r := if 0 <= limit < |all| then all[..limit] else all;
    forall c | c in r ensures c in claims && c.guild == guild && c.status == "confirmed" {
      assert c in multiset(all);
    }
    r
  }

  /** No confirmed claim left off the top list outranks one on it. */
  lemma TopListIsBest(claims: seq<Claim>, guild: string, limit: int, i: int, j: int)
    requires var all := Ranked(Confirmed(claims, guild)); 0 <= i < |TopClaims(claims, guild, limit)| <= j < |all|
    ensures Before(TopClaims(claims, guild, limit)[i], Ranked(Confirmed(claims, guild))[j])
  {
  }

  // ---------------------------------------------------------------- claim lifecycle

  /** Whether a claim of this user in this guild has the status (and the amount, if given). */
  predicate Counts(c: Claim, userId: string, guild: string, status: string, amount: Option<int>)
  {
    c.userId == userId && c.guild == guild && c.status == status && (amount.None? || c.amount == amount.value)
  }

  /** The COUNT(*) of has_pending_claim and has_claimed_fame_amount. */
  function CountClaims(claims: seq<Claim>, userId: string, guild: string, status: string, amount: Option<int>): nat
  {
    if claims == [] then 0
    else CountClaims(claims[..|claims| - 1], userId, guild, status, amount)
         + (if Counts(claims[|claims| - 1], userId, guild, status, amount) then 1 else 0)
  }

  lemma {:induction false} CountClaimsPositive(claims: seq<Claim>, userId: string, guild: string, status: string,
                                               amount: Option<int>)
    ensures CountClaims(claims, userId, guild, status, amount) > 0 <==>
      exists i :: 0 <= i < |claims| && Counts(claims[i], userId, guild, status, amount)
  {
    if claims != [] {
      var init := claims[..|claims| - 1];
      CountClaimsPositive(init, userId, guild, status, amount);
      if exists i :: 0 <= i < |init| && Counts(init[i], userId, guild, status, amount) {
        var i :| 0 <= i < |init| && Counts(init[i], userId, guild, status, amount);
        assert claims[i] == init[i];
      }
    }
  }

  /** Whether confirm or reject will change the claim: it exists and is pending. */
  predicate Pending(claims: seq<Claim>, claimId: int)
  {
    1 <= claimId <= |claims| && claims[claimId - 1].status == "pending"
  }

  /** The table after a claim is decided. */
  function Decided(claims: seq<Claim>, claimId: int, status: string, decider: string): (r: seq<Claim>)
    requires 1 <= claimId <= |claims|
    ensures |r| == |claims| && r[claimId - 1].status == status && r[claimId - 1].decidedBy == Some(decider)
    ensures r[claimId - 1].amount == claims[claimId - 1].amount && r[claimId - 1].guild == claims[claimId - 1].guild
    ensures r[claimId - 1].userId == claims[claimId - 1].userId
    ensures forall i :: 0 <= i < |claims| && i != claimId - 1 ==> r[i] == claims[i]
  {
    claims[claimId - 1 := claims[claimId - 1].(status := status, decidedBy := Some(decider))]
  }

  /** A decided claim can be neither confirmed nor rejected again. */
  lemma DecisionIsFinal(claims: seq<Claim>, claimId: int, decider: string)
    requires Pending(claims, claimId)
    ensures !Pending(Decided(claims, claimId, "confirmed", decider), claimId)
    ensures !Pending(Decided(claims, claimId, "rejected", decider), claimId)
  {
  }

  class FameStore {
    var configs: map<string, string>
    var claims: seq<Claim>

    constructor ()
      ensures configs == map[] && claims == []
    {
      configs, claims := map[], [];
    }

    /** get_fame_config: the stored list, or the default list; None when a stored item is not
        an integer. */
    function GetFameConfig(guild: string): (r: Option<seq<int>>)
      reads this
      ensures guild !in configs ==> r == Some(DefaultFameValues)
      ensures guild in configs ==> r == ParseConfig(configs[guild])
    {
      if guild in configs then ParseConfig(configs[guild]) else Some(DefaultFameValues)
    }

    /** set_fame_config: INSERT OR REPLACE of the joined list. */
    method SetFameConfig(guild: string, values: seq<int>)
      modifies this
      ensures configs == old(configs)[guild := JoinConfig(values)]
      ensures claims == old(claims)
      ensures |values| >= 1 ==> GetFameConfig(guild) == Some(values)
    {
      configs := configs[guild := JoinConfig(values)];
      if |values| >= 1 {
        ConfigRoundTrip(values);
      }
    }

    /** create_fame_claim: a new pending claim; its id is returned. */
    method CreateFameClaim(userId: string, discordId: string, guild: string, amount: int, now: real,
                           notificationId: Option<string>) returns (claimId: int)
      modifies this
      ensures claims == old(claims) + [Claim(userId, discordId, guild, amount, "pending", now, None, notificationId)]
      ensures claimId == |claims| && Pending(claims, claimId)
      ensures configs == old(configs)
    {
      claims := claims + [Claim(userId, discordId, guild, amount, "pending", now, None, notificationId)];
      claimId := |claims|;
    }

    /** confirm_fame_claim: only a pending claim is confirmed; True iff it was. */
    method ConfirmFameClaim(claimId: int, decider: string) returns (updated: bool)
      modifies this
      ensures updated <==> Pending(old(claims), claimId)
      ensures updated ==> claims == Decided(old(claims), claimId, "confirmed", decider)
      ensures !updated ==> claims == old(claims)
      ensures configs == old(configs)
    {
      updated := Pending(claims, claimId);
      if updated {
        claims := Decided(claims, claimId, "confirmed", decider);
      }
    }

    /** reject_fame_claim: only a pending claim is rejected; True iff it was. */
    method RejectFameClaim(claimId: int, decider: string) returns (updated: bool)
      modifies this
      ensures updated <==> Pending(old(claims), claimId)
      ensures updated ==> claims == Decided(old(claims), claimId, "rejected", decider)
      ensures !updated ==> claims == old(claims)
      ensures configs == old(configs)
    {
      updated := Pending(claims, claimId);
      if updated {
        claims := Decided(claims, claimId, "rejected", decider);
      }
    }

    /** has_pending_claim: the user has a pending claim in the guild. */
    function HasPendingClaim(userId: string, guild: string): (r: bool)
      reads this
      ensures r <==> exists i :: 0 <= i < |claims| && claims[i].userId == userId && claims[i].guild == guild
                                 && claims[i].status == "pending"
    {
      CountClaimsPositive(claims, userId, guild, "pending", None);
      CountClaims(claims, userId, guild, "pending", None) > 0
    }

    /** has_claimed_fame_amount: the user has a confirmed claim of that amount in the guild;
        pending and rejected claims do not count. */
    function HasClaimedFameAmount(userId: string, guild: string, amount: int): (r: bool)
      reads this
      ensures r <==> exists i :: 0 <= i < |claims| && claims[i].userId == userId && claims[i].guild == guild
                                 && claims[i].status == "confirmed" && claims[i].amount == amount
    {
      CountClaimsPositive(claims, userId, guild, "confirmed", Some(amount));
      CountClaims(claims, userId, guild, "confirmed", Some(amount)) > 0
    }

    function GetTopFameClaims(guild: string, limit: int): (r: seq<Claim>)
      reads this
      ensures forall c :: c in r ==> c in claims && c.guild == guild && c.status == "confirmed"
      ensures RankSorted(r)
    {
      TopClaims(claims, guild, limit)
    }
  }

  /** Confirming a claim makes its amount count as claimed for its user. */
  lemma ConfirmRecordsAmount(claims: seq<Claim>, claimId: int, decider: string)
    requires Pending(claims, claimId)
    ensures var c := claims[claimId - 1]; var after := Decided(claims, claimId, "confirmed", decider);
      Counts(after[claimId - 1], c.userId, c.guild, "confirmed", Some(c.amount))
  {
  }
}
