/** The rate limiter of rate_limiter.py: check_and_record prunes, checks and records in one step, the
    rate_limit decorator leaves commands undecorated and the statistics and clearing helpers are
    stubs. */
module RateLimiterCurrent {
  import opened Wrappers
  import opened SlidingWindow

  /** The command_limits table; "default" serves every command it does not name. */
  const CommandLimits: map<string, Limits> := map[
    "banco_balance" := Limits(10, 60.0, 50, 60.0, 5.0),
    "banco_transferir" := Limits(5, 300.0, 20, 60.0, 15.0),
    "banco_historial" := Limits(8, 60.0, 30, 60.0, 8.0),
    "ba_check_bunker" := Limits(15, 60.0, 80, 60.0, 2.0),
    "ba_status_all" := Limits(8, 60.0, 30, 60.0, 5.0),
    "ba_my_usage" := Limits(6, 60.0, 20, 60.0, 8.0),
    "ba_help" := Limits(5, 300.0, 15, 60.0, 15.0),
    "ba_bot_status" := Limits(8, 60.0, 25, 60.0, 5.0),
    "ba_suscripcion" := Limits(3, 300.0, 12, 60.0, 20.0),
    "ba_add_server" := Limits(5, 300.0, 8, 300.0, 30.0),
    "ba_remove_server" := Limits(3, 600.0, 5, 300.0, 15.0),
    "ba_list_servers" := Limits(10, 60.0, 40, 60.0, 3.0),
    "ba_admin_status" := Limits(10, 60.0, 30, 60.0, 5.0),
    "ba_admin_upgrade" := Limits(3, 600.0, 5, 600.0, 60.0),
    "ba_admin_cancel" := Limits(3, 600.0, 5, 600.0, 60.0),
    "ba_admin_resync" := Limits(5, 300.0, 8, 300.0, 30.0),
    "ba_admin_shutdown" := Limits(2, 3600.0, 2, 3600.0, 300.0),
    "seguro_solicitar" := Limits(5, 300.0, 30, 60.0, 30.0),
    "seguro_consultar" := Limits(10, 60.0, 40, 60.0, 5.0),
    "mechanic_notifications" := Limits(5, 300.0, 15, 300.0, 30.0),
    "mechanic_admin_register" := Limits(10, 60.0, 20, 60.0, 5.0),
    "mechanic_admin_remove" := Limits(5, 300.0, 10, 300.0, 30.0),
    "mechanic_admin_list" := Limits(8, 60.0, 25, 60.0, 5.0),
    "mechanic_admin_config_pvp" := Limits(8, 300.0, 12, 300.0, 20.0),
    "mechanic_admin_set_price" := Limits(10, 300.0, 20, 300.0, 15.0),
    "mechanic_admin_list_prices" := Limits(8, 60.0, 25, 60.0, 5.0),
    "mechanic_admin_set_limit" := Limits(8, 300.0, 15, 300.0, 20.0),
    "mechanic_admin_list_limits" := Limits(8, 60.0, 25, 60.0, 5.0),
    "squadron_admin_config_limits" := Limits(6, 600.0, 10, 600.0, 60.0),
    "squadron_admin_view_config" := Limits(8, 60.0, 25, 60.0, 5.0),
    "squadron_admin_remove_member" := Limits(8, 300.0, 15, 300.0, 20.0),
    "squadron_admin_view_member" := Limits(10, 60.0, 30, 60.0, 5.0),
    "squadron_admin_cleanup" := Limits(3, 600.0, 5, 600.0, 120.0),
    "taxi_solicitar" := Limits(5, 300.0, 25, 60.0, 30.0),
    "taxi_status" := Limits(10, 60.0, 40, 60.0, 3.0),
    "taxi_cancelar" := Limits(5, 300.0, 20, 60.0, 5.0),
    "taxi_zonas" := Limits(8, 300.0, 25, 60.0, 15.0),
    "taxi_tarifas" := Limits(8, 300.0, 25, 60.0, 15.0),
    "ba_reset_alerts" := Limits(5, 300.0, 15, 300.0, 30.0),
    "taxi_admin_stats" := Limits(8, 60.0, 25, 60.0, 5.0),
    "taxi_admin_tarifa" := Limits(8, 300.0, 15, 300.0, 20.0),
    "taxi_admin_refresh" := Limits(5, 300.0, 10, 300.0, 30.0),
    "taxi_admin_expiration" := Limits(5, 600.0, 8, 600.0, 60.0),
    "taxi_admin_leaderboard" := Limits(8, 60.0, 25, 60.0, 5.0),
    "ba_plans" := Limits(8, 300.0, 25, 60.0, 15.0),
    "ba_admin_subs" := Limits(8, 300.0, 15, 300.0, 20.0),
    "ba_stats" := Limits(10, 60.0, 35, 60.0, 5.0),
    "ba_notifications" := Limits(8, 300.0, 20, 300.0, 20.0),
    "ba_check_notifications" := Limits(8, 60.0, 30, 60.0, 8.0),
    "ba_export" := Limits(5, 600.0, 15, 600.0, 60.0),
    "debug_shop_stock" := Limits(8, 60.0, 20, 60.0, 8.0),
    "rate_limit_test" := Limits(5, 60.0, 15, 60.0, 3.0),
    "default" := Limits(15, 60.0, 60, 60.0, 3.0)
  ]

  /** A command the table does not name gets 15 uses per 60 s per user, 60 per 60 s per guild
      and a 3 s cooldown. */
  lemma UnknownCommandUsesDefault(command: string)
    requires command !in CommandLimits
    ensures "default" in CommandLimits
    ensures LimitsIn(CommandLimits, command) == Limits(15, 60.0, 60, 60.0, 3.0)
  {
  }

  class RateLimiter {
    /** user_commands[guild][user][command], with the three keys as one. */
    var userQueues: map<UserKey, seq<real>>
    /** guild_commands[guild][command]. */
    var guildQueues: map<GuildCommandKey, seq<real>>
    /** command_limits. */
    const commandLimits: Table

    constructor ()
      ensures userQueues == map[] && guildQueues == map[] && commandLimits == CommandLimits
    {
      commandLimits := CommandLimits;
      userQueues := map[];
      guildQueues := map[];
    }

    /** _cleanup_old_timestamps: the user's queue and the guild's queue of the command lose, from
        the front, every use older than the configured window; no other queue changes. */
    method CleanupOldTimestamps(g: string, u: string, command: string, now: real, config: Limits)
      modifies this
      ensures userQueues == PruneKey(old(userQueues), (g, u, command), now - config.userWindow)
      ensures guildQueues == PruneKey(old(guildQueues), (g, command), now - config.guildWindow)
    {
      var userQueue := PruneFront(QueueOf(userQueues, (g, u, command)), now - config.userWindow);
      userQueues := userQueues[(g, u, command) := userQueue];
      var guildQueue := PruneFront(QueueOf(guildQueues, (g, command)), now - config.guildWindow);
      guildQueues := guildQueues[(g, command) := guildQueue];
    }

    /** check_and_record: prunes the two queues, applies cooldown, user window and guild window
        in that order, and only when none trips appends the same time to both queues and lets
        the command proceed. A refusal (whose message carries the reason and the wait) appends
        nothing. An exception while checking fails open: the command proceeds. */
    method CheckAndRecord(caller: Interaction, command: string, now: real, raises: bool)
      returns (proceed: bool, notice: Option<Decision>)
      modifies this
      ensures raises ==> proceed && notice.None? && userQueues == old(userQueues) && guildQueues == old(guildQueues)
      ensures !raises ==>
        var g, u, l := GuildKey(caller), caller.userId, LimitsIn(commandLimits, command);
        var users := PruneKey(old(userQueues), (g, u, command), now - l.userWindow);
        var guilds := PruneKey(old(guildQueues), (g, command), now - l.guildWindow);
        var d := Decide(users[(g, u, command)], guilds[(g, command)], l, now);
        && (proceed <==> d == Allow)
        && (!proceed ==> notice == Some(d) && userQueues == users && guildQueues == guilds)
        && (proceed ==>
              (&& notice.None?
               && userQueues == AppendKey(users, (g, u, command), now)
               && guildQueues == AppendKey(guilds, (g, command), now)))
    {
      if raises {
        return true, None;
      }
      var g, u := GuildKey(caller), caller.userId;
      var config := LimitsIn(commandLimits, command);
      CleanupOldTimestamps(g, u, command, now, config);
      var userQueue := userQueues[(g, u, command)];
      if userQueue != [] {
        var timeSinceLast := now - userQueue[|userQueue| - 1];
        if timeSinceLast < config.cooldown {
          return false, Some(Deny("cooldown", Trunc(config.cooldown - timeSinceLast)));
        }
      }
      if |userQueue| >= config.userLimit {
        var oldest := userQueue[0];
        if now < oldest + config.userWindow {
          return false, Some(Deny("user_limit", Trunc(oldest + config.userWindow - now)));
        }
      }
      var guildQueue := guildQueues[(g, command)];
      if |guildQueue| >= config.guildLimit {
        var oldest := guildQueue[0];
        if now < oldest + config.guildWindow {
          return false, Some(Deny("guild_limit", Trunc(oldest + config.guildWindow - now)));
        }
      }
      userQueues := userQueues[(g, u, command) := userQueue + [now]];
      guildQueues := guildQueues[(g, command) := guildQueue + [now]];
      return true, None;
    }
  }

  /** Calling a command decorated with rate_limit: the decorator only sets two attributes and
      returns the function itself, so the command always runs and the limiter is neither
      consulted nor changed. */
  method CallDecorated(limiter: RateLimiter, command: string, caller: Option<Interaction>) returns (ran: bool)
    ensures ran
    ensures limiter.userQueues == old(limiter.userQueues) && limiter.guildQueues == old(limiter.guildQueues)
  {
    ran := true;
  }

  /** get_rate_limit_stats is a stub here: it always answers an empty dictionary. */
  function GetRateLimitStats(g: string, u: string): (stats: map<string, UsageStats>)
    ensures |stats| == 0
  {
    map[]
  }

  /** clear_user_limits is a stub here: no queue is cleared. */
  method ClearUserLimits(limiter: RateLimiter, g: string, u: string, command: Option<string>)
    ensures limiter.userQueues == old(limiter.userQueues) && limiter.guildQueues == old(limiter.guildQueues)
  {
  }
}
