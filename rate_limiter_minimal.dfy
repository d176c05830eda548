/** The rate limiter of rate_limiter_minimal.py: check_and_record prunes, checks and records in one step, the
    rate_limit decorator leaves commands undecorated and the statistics and clearing helpers are
    stubs. */
module RateLimiterMinimal {
  import opened Wrappers
  import opened SlidingWindow

  /** The command_limits table; "default" serves every command it does not name. */
  const CommandLimits: map<string, Limits> := map[
    "ba_check_bunker" := Limits(10, 60.0, 50, 60.0, 3.0),
    "ba_status_all" := Limits(5, 60.0, 20, 60.0, 10.0),
    "ba_my_usage" := Limits(3, 60.0, 15, 60.0, 15.0),
    "ba_help" := Limits(2, 300.0, 10, 60.0, 30.0),
    "ba_bot_status" := Limits(3, 60.0, 15, 60.0, 10.0),
    "ba_suscripcion" := Limits(2, 300.0, 10, 60.0, 30.0),
    "ba_add_server" := Limits(2, 300.0, 5, 300.0, 60.0),
    "ba_remove_server" := Limits(1, 600.0, 3, 300.0, 120.0),
    "ba_list_servers" := Limits(5, 60.0, 25, 60.0, 5.0),
    "ba_admin_status" := Limits(5, 60.0, 20, 60.0, 10.0),
    "ba_admin_upgrade" := Limits(1, 600.0, 3, 600.0, 300.0),
    "ba_admin_cancel" := Limits(1, 600.0, 2, 600.0, 300.0),
    "ba_admin_resync" := Limits(1, 300.0, 3, 300.0, 120.0),
    "ba_admin_shutdown" := Limits(1, 3600.0, 1, 3600.0, 1800.0),
    "default" := Limits(10, 60.0, 50, 60.0, 5.0)
  ]

  /** A command the table does not name gets 10 uses per 60 s per user, 50 per 60 s per guild
      and a 5 s cooldown. */
  lemma UnknownCommandUsesDefault(command: string)
    requires command !in CommandLimits
    ensures "default" in CommandLimits
    ensures LimitsIn(CommandLimits, command) == Limits(10, 60.0, 50, 60.0, 5.0)
  {
  }

  class RateLimiter {
    /** user_commands[guild][user][command], with the three keys as one. */
    var userQueues: map<UserKey, seq<real>>
    /** guild_commands[guild][command]. */
    var guildQueues: map<GuildCommandKey, seq<real>>
    /** command_limits. */
    const commandLimits: Table

    constructor ()
      ensures userQueues == map[] && guildQueues == map[] && commandLimits == CommandLimits
    {
      commandLimits := CommandLimits;
      userQueues := map[];
      guildQueues := map[];
    }

    /** _cleanup_old_timestamps: the user's queue and the guild's queue of the command lose, from
        the front, every use older than the configured window; no other queue changes. */
    method CleanupOldTimestamps(g: string, u: string, command: string, now: real, config: Limits)
      modifies this
      ensures userQueues == PruneKey(old(userQueues), (g, u, command), now - config.userWindow)
      ensures guildQueues == PruneKey(old(guildQueues), (g, command), now - config.guildWindow)
    {
      var userQueue := PruneFront(QueueOf(userQueues, (g, u, command)), now - config.userWindow);
      userQueues := userQueues[(g, u, command) := userQueue];
      var guildQueue := PruneFront(QueueOf(guildQueues, (g, command)), now - config.guildWindow);
      guildQueues := guildQueues[(g, command) := guildQueue];
    }

    /** check_and_record: prunes the two queues, applies cooldown, user window and guild window
        in that order, and only when none trips appends the same time to both queues and lets
        the command proceed. A refusal (whose message carries the reason and the wait) appends
        nothing. An exception while checking fails open: the command proceeds. */
    method CheckAndRecord(caller: Interaction, command: string, now: real, raises: bool)
      returns (proceed: bool, notice: Option<Decision>)
      modifies this
      ensures raises ==> proceed && notice.None? && userQueues == old(userQueues) && guildQueues == old(guildQueues)
      ensures !raises ==>
        var g, u, l := GuildKey(caller), caller.userId, LimitsIn(commandLimits, command);
        var users := PruneKey(old(userQueues), (g, u, command), now - l.userWindow);
        var guilds := PruneKey(old(guildQueues), (g, command), now - l.guildWindow);
        var d := Decide(users[(g, u, command)], guilds[(g, command)], l, now);
        && (proceed <==> d == Allow)
        && (!proceed ==> notice == Some(d) && userQueues == users && guildQueues == guilds)
        && (proceed ==>
              (&& notice.None?
               && userQueues == AppendKey(users, (g, u, command), now)
               && guildQueues == AppendKey(guilds, (g, command), now)))
    {
      if raises {
        return true, None;
      }
      var g, u := GuildKey(caller), caller.userId;
      var config := LimitsIn(commandLimits, command);
      CleanupOldTimestamps(g, u, command, now, config);
      var userQueue := userQueues[(g, u, command)];
      if userQueue != [] {
        var timeSinceLast := now - userQueue[|userQueue| - 1];
        if timeSinceLast < config.cooldown {
          return false, Some(Deny("cooldown", Trunc(config.cooldown - timeSinceLast)));
        }
      }
      if |userQueue| >= config.userLimit {
        var oldest := userQueue[0];
        if now < oldest + config.userWindow {
          return false, Some(Deny("user_limit", Trunc(oldest + config.userWindow - now)));
        }
      }
      var guildQueue := guildQueues[(g, command)];
      if |guildQueue| >= config.guildLimit {
        var oldest := guildQueue[0];
        if now < oldest + config.guildWindow {
          return false, Some(Deny("guild_limit", Trunc(oldest + config.guildWindow - now)));
        }
      }
      userQueues := userQueues[(g, u, command) := userQueue + [now]];
      guildQueues := guildQueues[(g, command) := guildQueue + [now]];
      return true, None;
    }
  }

  /** Calling a command decorated with rate_limit: the decorator only sets two attributes and
      returns the function itself, so the command always runs and the limiter is neither
      consulted nor changed. */
  method CallDecorated(limiter: RateLimiter, command: string, caller: Option<Interaction>) returns (ran: bool)
    ensures ran
    ensures limiter.userQueues == old(limiter.userQueues) && limiter.guildQueues == old(limiter.guildQueues)
  {
    ran := true;
  }

  /** get_rate_limit_stats is a stub here: it always answers an empty dictionary. */
  function GetRateLimitStats(g: string, u: string): (stats: map<string, UsageStats>)
    ensures |stats| == 0
  {
    map[]
  }

  /** clear_user_limits is a stub here: no queue is cleared. */
  method ClearUserLimits(limiter: RateLimiter, g: string, u: string, command: Option<string>)
    ensures limiter.userQueues == old(limiter.userQueues) && limiter.guildQueues == old(limiter.guildQueues)
  {
  }
}
