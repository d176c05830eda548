/** What the four command rate limiters share: the limits of one command, the timestamp queues
    pruned from the front, and the three checks (cooldown, user window, guild window) applied in
    that order. Timestamps are seconds as reals; the clock is a parameter. */
module SlidingWindow {
  import opened Wrappers

  type Positive = n: int | n >= 1 witness 1

  /** One entry of a command_limits table: user_rate, guild_rate and cooldown. */
  datatype Limits = Limits(userLimit: Positive, userWindow: real, guildLimit: Positive, guildWindow: real, cooldown: real)

  /** A command_limits table: it always holds the "default" entry that unknown commands use. */
  type Table = t: map<string, Limits> | "default" in t witness map["default" := Limits(1, 0.0, 1, 0.0, 0.0)]

  /** command_limits.get(command, command_limits['default']). */
  function LimitsIn(table: Table, command: string): (l: Limits)
    ensures command in table ==> l == table[command]
    ensures command !in table ==> l == table["default"]
  {
    if command in table then table[command] else table["default"]
  }

  /** Who invoked a command: the guild (absent in a direct message) and the user. */
  datatype Interaction = Interaction(guildId: Option<string>, userId: string)

  /** The guild key of an interaction: "dm" outside a guild. */
  function GuildKey(i: Interaction): (g: string)
    ensures i.guildId.Some? ==> g == i.guildId.value
    ensures i.guildId.None? ==> g == "dm"
  {
    match i.guildId
    case Some(id) => id
    case None => "dm"
  }

  /** Python's int() on a float: truncation toward zero. */
  function Trunc(x: real): (n: int)
    ensures x >= 0.0 ==> 0 <= n && n as real <= x < n as real + 1.0
    ensures x < 0.0 ==> n <= 0 && n as real - 1.0 < x <= n as real
  {
    if x >= 0.0 then x.Floor else -((-x).Floor)
  }

  /** A queue after popping from the front every timestamp older than the cutoff. */
  function Pruned(q: seq<real>, cutoff: real): seq<real>
  {
    if q != [] && q[0] < cutoff then Pruned(q[1..], cutoff) else q
  }

  /** Pruning drops a prefix of old timestamps and stops at the first one that is recent
      enough. */
  lemma {:induction false} PrunedDropsOnlyOldPrefix(q: seq<real>, cutoff: real)
    ensures var r := Pruned(q, cutoff);
      && |r| <= |q| && r == q[|q| - |r|..]
      && (forall i :: 0 <= i < |q| - |r| ==> q[i] < cutoff)
      && (r != [] ==> r[0] >= cutoff)
  {
    if q != [] && q[0] < cutoff {
      PrunedDropsOnlyOldPrefix(q[1..], cutoff);
      var r := Pruned(q, cutoff);
      assert forall i :: 1 <= i < |q| - |r| ==> q[i] == q[1..][i - 1];
    }
  }

  /** The popleft loop of _cleanup_old_timestamps on one deque. */
  method PruneFront(q: seq<real>, cutoff: real) returns (r: seq<real>)
    ensures r == Pruned(q, cutoff)
  {
    r := q;
    while r != [] && r[0] < cutoff
      invariant Pruned(r, cutoff) == Pruned(q, cutoff)
      decreases |r|
    {
      r := r[1..];
    }
  }

  predicate Sorted(q: seq<real>) {
    forall i, j :: 0 <= i <= j < |q| ==> q[i] <= q[j]
  }

  /** Pruning a queue in time order leaves only timestamps inside the window, and keeps every
      timestamp that is. */
  lemma PrunedKeepsExactlyTheWindow(q: seq<real>, cutoff: real)
    requires Sorted(q)
    ensures forall t :: t in Pruned(q, cutoff) <==> t in q && t >= cutoff
  {
    PrunedDropsOnlyOldPrefix(q, cutoff);
    var r := Pruned(q, cutoff);
    var k := |q| - |r|;
    forall t | t in q && t >= cutoff
      ensures t in r
    {
      var i :| 0 <= i < |q| && q[i] == t;
      assert i >= k;
      assert r[i - k] == t;
    }
    forall t | t in r
      ensures t >= cutoff
    {
      var i :| 0 <= i < |r| && r[i] == t;
      assert r[0] == q[k] && r[i] == q[k + i];
    }
  }

  /** Pruning twice with the same cutoff removes nothing more. */
  lemma PrunedIdempotent(q: seq<real>, cutoff: real)
    ensures Pruned(Pruned(q, cutoff), cutoff) == Pruned(q, cutoff)
  {
  }

  /** The verdict of is_rate_limited: allowed, or limited with a reason and int(retry_after). */
  datatype Decision = Allow | Deny(reason: string, retryAfter: int)

  predicate CooldownTrips(userQ: seq<real>, l: Limits, now: real) {
    userQ != [] && now - userQ[|userQ| - 1] < l.cooldown
  }

  predicate UserWindowTrips(userQ: seq<real>, l: Limits, now: real) {
    |userQ| >= l.userLimit && now < userQ[0] + l.userWindow
  }

  predicate GuildWindowTrips(guildQ: seq<real>, l: Limits, now: real) {
    |guildQ| >= l.guildLimit && now < guildQ[0] + l.guildWindow
  }

  /** The three checks on already pruned queues, cooldown first, then the user window, then the
      guild window. */
  function Decide(userQ: seq<real>, guildQ: seq<real>, l: Limits, now: real): (d: Decision)
    ensures d.Deny? ==> d.retryAfter >= 0
    ensures d.Deny? ==> d.reason in {"cooldown", "user_limit", "guild_limit"}
  {
    if CooldownTrips(userQ, l, now) then
      Deny("cooldown", Trunc(l.cooldown - (now - userQ[|userQ| - 1])))
    else if UserWindowTrips(userQ, l, now) then
      Deny("user_limit", Trunc(userQ[0] + l.userWindow - now))
    else if GuildWindowTrips(guildQ, l, now) then
      Deny("guild_limit", Trunc(guildQ[0] + l.guildWindow - now))
    else Allow
  }

  /** A use is allowed exactly when none of the three checks trips, and each check, when it
      trips, wins over every check after it. */
  lemma DecideOrder(userQ: seq<real>, guildQ: seq<real>, l: Limits, now: real)
    ensures Decide(userQ, guildQ, l, now) == Allow <==>
      !CooldownTrips(userQ, l, now) && !UserWindowTrips(userQ, l, now) && !GuildWindowTrips(guildQ, l, now)
    ensures CooldownTrips(userQ, l, now) ==> Decide(userQ, guildQ, l, now).reason == "cooldown"
    ensures !CooldownTrips(userQ, l, now) && UserWindowTrips(userQ, l, now) ==>
      Decide(userQ, guildQ, l, now).reason == "user_limit"
    ensures !CooldownTrips(userQ, l, now) && !UserWindowTrips(userQ, l, now) && GuildWindowTrips(guildQ, l, now) ==>
      Decide(userQ, guildQ, l, now).reason == "guild_limit"
  {
  }

  /** The advertised wait is honest: retrying retryAfter + 1 seconds later, with the same queues,
      the check that refused no longer trips. */
  lemma RetryAfterIsEnough(userQ: seq<real>, guildQ: seq<real>, l: Limits, now: real)
    requires Decide(userQ, guildQ, l, now).Deny?
    ensures var d := Decide(userQ, guildQ, l, now);
      var later := now + d.retryAfter as real + 1.0;
      && (d.reason == "cooldown" ==> !CooldownTrips(userQ, l, later))
      && (d.reason == "user_limit" ==> !UserWindowTrips(userQ, l, later))
      && (d.reason == "guild_limit" ==> !GuildWindowTrips(guildQ, l, later))
  {
    var d := Decide(userQ, guildQ, l, now);
    if d.reason == "cooldown" {
      var last := userQ[|userQ| - 1];
      assert d.retryAfter == Trunc(l.cooldown - (now - last));
      assert l.cooldown - (now - last) < d.retryAfter as real + 1.0;
    } else if d.reason == "user_limit" {
      assert d.retryAfter == Trunc(userQ[0] + l.userWindow - now);
    } else {
      assert d.retryAfter == Trunc(guildQ[0] + l.guildWindow - now);
    }
  }

  /** The last timestamp of a queue survives pruning when it is not older than the cutoff. */
  lemma {:induction false} PrunedKeepsRecentLast(q: seq<real>, t: real, cutoff: real)
    requires t >= cutoff
    ensures var r := Pruned(q + [t], cutoff); r != [] && r[|r| - 1] == t
  {
    if q != [] && q[0] < cutoff {
      assert (q + [t])[1..] == q[1..] + [t];
      PrunedKeepsRecentLast(q[1..], t, cutoff);
    }
  }

  /** Once a use is recorded at t, a check of the same user and command before t + cooldown is
      refused for the cooldown, whatever came before and whatever the guild queue holds, as long
      as the cooldown fits inside the user window. */
  lemma CooldownSpacesUses(q: seq<real>, guildQ: seq<real>, l: Limits, t: real, now: real)
    requires l.cooldown <= l.userWindow && t <= now < t + l.cooldown
    ensures Decide(Pruned(q + [t], now - l.userWindow), guildQ, l, now).Deny?
    ensures Decide(Pruned(q + [t], now - l.userWindow), guildQ, l, now).reason == "cooldown"
  {
    PrunedKeepsRecentLast(q, t, now - l.userWindow);
  }

  /** The usage figures of get_usage_stats. */
  datatype UsageStats = UsageStats(userUsage: nat, userLimit: int, guildUsage: nat, guildLimit: int, cooldown: real)

  /** The user key and guild key of the queues one command use touches. */
  type UserKey = (string, string, string)
  type GuildCommandKey = (string, string)

  /** A defaultdict read: an absent queue is empty. */
  function QueueOf<K>(queues: map<K, seq<real>>, k: K): (q: seq<real>)
    ensures k !in queues ==> q == []
    ensures k in queues ==> q == queues[k]
  {
    if k in queues then queues[k] else []
  }

  /** The queues after pruning the one queue under key k. */
  function PruneKey<K>(queues: map<K, seq<real>>, k: K, cutoff: real): map<K, seq<real>>
  {
    queues[k := Pruned(QueueOf(queues, k), cutoff)]
  }

  /** The queues after appending one timestamp to the queue under key k. */
  function AppendKey<K>(queues: map<K, seq<real>>, k: K, t: real): map<K, seq<real>>
  {
    queues[k := QueueOf(queues, k) + [t]]
  }

  /** Pruning never lengthens a queue, and every timestamp it keeps was already there. */
  lemma {:induction false} PrunedIsSubsequence(q: seq<real>, cutoff: real)
    ensures |Pruned(q, cutoff)| <= |q|
    ensures forall t :: t in Pruned(q, cutoff) ==> t in q
  {
    if q != [] && q[0] < cutoff {
      PrunedIsSubsequence(q[1..], cutoff);
    }
  }

  /** Pruning one key of a queue map never appends to any queue. */
  lemma PruningNeverAppends<K>(queues: map<K, seq<real>>, k: K, cutoff: real, other: K)
    ensures |QueueOf(PruneKey(queues, k, cutoff), other)| <= |QueueOf(queues, other)|
  {
    PrunedIsSubsequence(QueueOf(queues, k), cutoff);
  }

  /** The user queues after clear_user_limits: one command's queue emptied, or, with no command
      (or an empty name, which Python treats as false), every queue of that user in that guild. */
  function ClearedUser(queues: map<UserKey, seq<real>>, g: string, u: string, command: Option<string>): (r: map<UserKey, seq<real>>)
    ensures forall k :: QueueOf(r, k) == (if k.0 == g && k.1 == u && (command.None? || command.value == "" || k.2 == command.value) then [] else QueueOf(queues, k))
  {
    if command.Some? && command.value != "" then
      queues[(g, u, command.value) := []]
    else
      map k | k in queues && !(k.0 == g && k.1 == u) :: queues[k]
  }
}
