/** The rate limiter of rate_limiter_fixed.py: the same queues, checks and administrative helpers
    as the original limiter with a shorter table, but a rate_limit decorator that hands back the
    undecorated command. */
module RateLimiterFixed {
  import opened Wrappers
  import opened SlidingWindow

  /** The command_limits table; "default" serves every command it does not name. */
  const CommandLimits: map<string, Limits> := map[
    "banco_balance" := Limits(3, 60.0, 20, 60.0, 10.0),
    "banco_transferir" := Limits(2, 300.0, 10, 60.0, 30.0),
    "banco_historial" := Limits(5, 300.0, 25, 60.0, 15.0),
    "ba_check_bunker" := Limits(10, 60.0, 50, 60.0, 3.0),
    "ba_status_all" := Limits(5, 60.0, 20, 60.0, 10.0),
    "ba_my_usage" := Limits(3, 60.0, 15, 60.0, 15.0),
    "ba_help" := Limits(2, 300.0, 10, 60.0, 30.0),
    "ba_bot_status" := Limits(3, 60.0, 15, 60.0, 10.0),
    "ba_suscripcion" := Limits(2, 300.0, 10, 60.0, 30.0),
    "ba_add_server" := Limits(2, 300.0, 5, 300.0, 60.0),
    "ba_remove_server" := Limits(1, 600.0, 3, 300.0, 120.0),
    "ba_list_servers" := Limits(5, 60.0, 25, 60.0, 5.0),
    "ba_admin_status" := Limits(5, 60.0, 20, 60.0, 10.0),
    "ba_admin_upgrade" := Limits(1, 600.0, 3, 600.0, 300.0),
    "ba_admin_cancel" := Limits(1, 600.0, 2, 600.0, 300.0),
    "ba_admin_resync" := Limits(1, 300.0, 3, 300.0, 120.0),
    "ba_admin_shutdown" := Limits(1, 3600.0, 1, 3600.0, 1800.0),
    "default" := Limits(10, 60.0, 50, 60.0, 5.0)
  ]

  /** A command the table does not name gets 10 uses per 60 s per user, 50 per 60 s per guild
      and a 5 s cooldown. */
  lemma UnknownCommandUsesDefault(command: string)
    requires command !in CommandLimits
    ensures "default" in CommandLimits
    ensures LimitsIn(CommandLimits, command) == Limits(10, 60.0, 50, 60.0, 5.0)
  {
  }

  class RateLimiter {
    /** user_commands[guild][user][command], with the three keys as one. */
    var userQueues: map<UserKey, seq<real>>
    /** guild_commands[guild][command]. */
    var guildQueues: map<GuildCommandKey, seq<real>>
    /** command_limits. */
    const commandLimits: Table

    constructor ()
      ensures userQueues == map[] && guildQueues == map[] && commandLimits == CommandLimits
    {
      commandLimits := CommandLimits;
      userQueues := map[];
      guildQueues := map[];
    }

    /** _cleanup_old_timestamps: the user's queue and the guild's queue of the command lose, from
        the front, every use older than the command's window; no other queue changes. */
    method CleanupOldTimestamps(g: string, u: string, command: string, now: real)
      modifies this
      ensures userQueues == PruneKey(old(userQueues), (g, u, command), now - LimitsIn(commandLimits, command).userWindow)
      ensures guildQueues == PruneKey(old(guildQueues), (g, command), now - LimitsIn(commandLimits, command).guildWindow)
    {
      var config := LimitsIn(commandLimits, command);
      var userQueue := PruneFront(QueueOf(userQueues, (g, u, command)), now - config.userWindow);
      userQueues := userQueues[(g, u, command) := userQueue];
      var guildQueue := PruneFront(QueueOf(guildQueues, (g, command)), now - config.guildWindow);
      guildQueues := guildQueues[(g, command) := guildQueue];
    }

    /** is_rate_limited: prunes the two queues, then applies cooldown, user window and guild
        window in that order. Beyond the pruning it changes nothing, so it never appends (see
        SlidingWindow.PruningNeverAppends). */
    method IsRateLimited(g: string, u: string, command: string, now: real) returns (d: Decision)
      modifies this
      ensures userQueues == PruneKey(old(userQueues), (g, u, command), now - LimitsIn(commandLimits, command).userWindow)
      ensures guildQueues == PruneKey(old(guildQueues), (g, command), now - LimitsIn(commandLimits, command).guildWindow)
      ensures d == Decide(userQueues[(g, u, command)], guildQueues[(g, command)], LimitsIn(commandLimits, command), now)
    {
      var config := LimitsIn(commandLimits, command);
      CleanupOldTimestamps(g, u, command, now);
      var userQueue := userQueues[(g, u, command)];
      if userQueue != [] {
        var timeSinceLast := now - userQueue[|userQueue| - 1];
        if timeSinceLast < config.cooldown {
          return Deny("cooldown", Trunc(config.cooldown - timeSinceLast));
        }
      }
      if |userQueue| >= config.userLimit {
        var windowEnd := userQueue[0] + config.userWindow;
        if now < windowEnd {
          return Deny("user_limit", Trunc(windowEnd - now));
        }
      }
      var guildQueue := guildQueues[(g, command)];
      if |guildQueue| >= config.guildLimit {
        var windowEnd := guildQueue[0] + config.guildWindow;
        if now < windowEnd {
          return Deny("guild_limit", Trunc(windowEnd - now));
        }
      }
      return Allow;
    }

    /** record_usage: appends the time to exactly one user queue and one guild queue. */
    method RecordUsage(g: string, u: string, command: string, now: real)
      modifies this
      ensures userQueues == AppendKey(old(userQueues), (g, u, command), now)
      ensures guildQueues == AppendKey(old(guildQueues), (g, command), now)
    {
      userQueues := userQueues[(g, u, command) := QueueOf(userQueues, (g, u, command)) + [now]];
      guildQueues := guildQueues[(g, command) := QueueOf(guildQueues, (g, command)) + [now]];
    }

    /** get_usage_stats: the current queue lengths beside the command's limits. */
    function GetUsageStats(g: string, u: string, command: string): (s: UsageStats)
      reads this
      ensures s.userUsage == |QueueOf(userQueues, (g, u, command))| && s.guildUsage == |QueueOf(guildQueues, (g, command))|
      ensures s.userLimit == LimitsIn(commandLimits, command).userLimit && s.guildLimit == LimitsIn(commandLimits, command).guildLimit
      ensures s.cooldown == LimitsIn(commandLimits, command).cooldown
    {
      var config := LimitsIn(commandLimits, command);
      UsageStats(|QueueOf(userQueues, (g, u, command))|, config.userLimit,
                 |QueueOf(guildQueues, (g, command))|, config.guildLimit, config.cooldown)
    }
  }

  /** get_rate_limit_stats: the usage figures of every command in the table but "default". */
  method GetRateLimitStats(limiter: RateLimiter, g: string, u: string) returns (stats: map<string, UsageStats>)
    ensures stats.Keys == limiter.commandLimits.Keys - {"default"}
    ensures forall c :: c in stats ==> stats[c] == limiter.GetUsageStats(g, u, c)
  {
    stats := map[];
    var pending := limiter.commandLimits.Keys;
    while pending != {}
      invariant pending <= limiter.commandLimits.Keys
      invariant stats.Keys == limiter.commandLimits.Keys - pending - {"default"}
      invariant forall c :: c in stats ==> stats[c] == limiter.GetUsageStats(g, u, c)
      decreases pending
    {
      var commandName :| commandName in pending;
      if commandName != "default" {
        stats := stats[commandName := limiter.GetUsageStats(g, u, commandName)];
      }
      pending := pending - {commandName};
    }
  }

  /** clear_user_limits: with a (non-empty) command name only that queue of the user is emptied,
      otherwise every queue of the user in the guild; guild queues are never touched. Where the
      source finds no entry for the user, the queue it would clear is already empty. */
  method ClearUserLimits(limiter: RateLimiter, g: string, u: string, command: Option<string>)
    modifies limiter
    ensures limiter.userQueues == ClearedUser(old(limiter.userQueues), g, u, command)
    ensures limiter.guildQueues == old(limiter.guildQueues)
  {
    if command.Some? && command.value != "" {
      limiter.userQueues := limiter.userQueues[(g, u, command.value) := []];
    } else {
      limiter.userQueues := map k | k in limiter.userQueues && !(k.0 == g && k.1 == u) :: limiter.userQueues[k];
    }
  }

  /** The wrapper that rate_limit builds and attaches to the command as _rate_limited_wrapper.
      Without an interaction among the positional arguments, or when the check raises, the
      command runs and nothing is recorded. A refused use records nothing; an allowed one is
      recorded (at recordedAt, the clock read by record_usage) before the command runs. */
  method AttachedWrapper(limiter: RateLimiter, command: string, caller: Option<Interaction>,
                         checkRaises: bool, now: real, recordedAt: real)
    returns (ran: bool, refusal: Option<Decision>)
    modifies limiter
    ensures caller.None? || checkRaises ==>
      ran && refusal.None? && limiter.userQueues == old(limiter.userQueues) && limiter.guildQueues == old(limiter.guildQueues)
    ensures caller.Some? && !checkRaises ==>
      var g, u, l := GuildKey(caller.value), caller.value.userId, LimitsIn(limiter.commandLimits, command);
      var users := PruneKey(old(limiter.userQueues), (g, u, command), now - l.userWindow);
      var guilds := PruneKey(old(limiter.guildQueues), (g, command), now - l.guildWindow);
      var d := Decide(users[(g, u, command)], guilds[(g, command)], l, now);
      && (ran <==> d == Allow)
      && (d.Deny? ==> refusal == Some(d) && limiter.userQueues == users && limiter.guildQueues == guilds)
      && (d == Allow ==>
            (&& refusal.None?
             && limiter.userQueues == AppendKey(users, (g, u, command), recordedAt)
             && limiter.guildQueues == AppendKey(guilds, (g, command), recordedAt)))
  {
    if caller.None? || checkRaises {
      return true, None;
    }
    var g, u := GuildKey(caller.value), caller.value.userId;
    var d := limiter.IsRateLimited(g, u, command, now);
    if d.Deny? {
      return false, Some(d);
    }
    limiter.RecordUsage(g, u, command, recordedAt);
    return true, None;
  }

  /** Calling a command decorated with rate_limit: the decorator returned the command function
      itself, so the command always runs and the limiter is neither consulted nor changed. */
  method CallDecorated(limiter: RateLimiter, command: string, caller: Option<Interaction>) returns (ran: bool)
    ensures ran
    ensures limiter.userQueues == old(limiter.userQueues) && limiter.guildQueues == old(limiter.guildQueues)
  {
    ran := true;
  }
}
