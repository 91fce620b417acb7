/**
 * The server's `userBots` map as the start-bot, stop-bot and bot-status
 * handlers drive it: at most one bot per user id, replaced on every start,
 * removed on stop. The HTTP layer is gone; each handler is a method whose
 * reply is a datatype.
 */
module Registry {
  import opened Bot
  import opened Ledger

  /** The bot-status reply: a registered bot's `getStats`, or the fixed reply
      for a user without one. */
  datatype StatusReply = Running(info: BotStats) | NotRegistered
  {
    function IsActive(): bool
    {
      match this
      case Running(info) => info.isActive
      case NotRegistered => false
    }

    function TotalTrades(): nat
    {
      match this
      case Running(info) => info.stats.totalTrades
      case NotRegistered => 0
    }

    function TotalPL(): real
    {
      match this
      case Running(info) => info.stats.totalPL
      case NotRegistered => 0.0
    }
  }

  /** The start-bot reply: success, or the 400 for missing API keys. */
  datatype StartReply = Started | MissingKeys

  /** Whether start-bot rejects the configuration: either key missing. */
  predicate KeysMissing(config: Config)
  {
    config.apiKey == "" || config.secretKey == ""
  }

  class BotRegistry {
    /** `userBots`. */
    var bots: map<string, UserTradingBot>
    /** `userConfigs`, as far as start-bot writes it. */
    var configs: map<string, Config>
    /** Every bot that was stopped and dropped from the map. */
    ghost var retired: set<UserTradingBot>

    /** Registered bots are active, valid and filed under their own user id;
        dropped bots are inactive. */
    ghost predicate Valid()
      reads this, bots.Values, retired
    {
      && (forall u :: u in bots ==> bots[u].userId == u && bots[u].isActive && bots[u].Valid())
      && (forall u :: u in bots ==> bots[u] !in retired)
      && (forall b :: b in retired ==> !b.isActive)
    }

    /** No user ever has two active bots, counting the dropped ones. */
    ghost predicate OneActivePerUser()
      reads this, bots.Values, retired
    {
      forall b1, b2 ::
        (b1 in bots.Values + retired && b2 in bots.Values + retired
         && b1.isActive && b2.isActive && b1.userId == b2.userId) ==> b1 == b2
    }

    lemma ValidHasOneActivePerUser()
      requires Valid()
      ensures OneActivePerUser()
    {
      forall b1, b2 | b1 in bots.Values + retired && b2 in bots.Values + retired
        && b1.isActive && b2.isActive && b1.userId == b2.userId
        ensures b1 == b2
      {
        var u1 :| u1 in bots && bots[u1] == b1;
        var u2 :| u2 in bots && bots[u2] == b2;
      }
    }

    constructor ()
      ensures bots == map[] && configs == map[] && retired == {}
      ensures Valid()
    {
      bots := map[];
      configs := map[];
      retired := {};
    }

    /** The start-bot handler. Without both keys nothing changes; otherwise
        the user's previous bot, if any, is stopped and replaced by a new,
        empty bot with this configuration, which is then started. */
    method StartBot(userId: string, config: Config) returns (reply: StartReply)
      requires Valid()
      modifies this, if userId in bots then {bots[userId]} else {}
      ensures Valid()
      ensures reply == MissingKeys <==> KeysMissing(config)
      ensures KeysMissing(config) ==> bots == old(bots) && configs == old(configs) && retired == old(retired)
      ensures !KeysMissing(config) ==>
        && userId in bots && fresh(bots[userId])
        && bots == old(bots)[userId := bots[userId]]
        && configs == old(configs)[userId := config]
        && bots[userId].isActive && bots[userId].config == config
        && bots[userId].State() == Engine(map[], EmptyBook)
        && (userId in old(bots) ==> !old(bots)[userId].isActive)
      ensures KeysMissing(config) && userId in old(bots) ==> old(bots)[userId].isActive
      ensures userId in old(bots) ==> old(bots)[userId].State() == old(bots[userId].State())
    {
      if KeysMissing(config) {
        return MissingKeys;
      }
      var bot := Replace(userId, config);
      configs := configs[userId := config];
      reply := Started;
    }

    /** Stops the user's bot, if any, and files a new, started one. */
    method Replace(userId: string, config: Config) returns (bot: UserTradingBot)
      requires Valid()
      modifies this`bots, this`retired, if userId in bots then {bots[userId]} else {}
      ensures Valid() && fresh(bot)
      ensures bots == old(bots)[userId := bot]
      ensures bot.isActive && bot.config == config && bot.State() == Engine(map[], EmptyBook)
      ensures userId in old(bots) ==> !old(bots)[userId].isActive
      ensures userId in old(bots) ==> old(bots)[userId].State() == old(bots[userId].State())
    {
      StopBot(userId);
      bot := Admit(userId, config);
    }

    /** Creates, starts and files a bot for a user without one. */
    method Admit(userId: string, config: Config) returns (bot: UserTradingBot)
      requires Valid() && userId !in bots
      modifies this`bots
      ensures Valid() && fresh(bot)
      ensures bots == old(bots)[userId := bot]
      ensures bot.isActive && bot.config == config && bot.State() == Engine(map[], EmptyBook)
    {
      bot := new UserTradingBot(userId, config);
      // the source files the bot before starting it; nothing observes the
      // registry in between, so the two steps are taken in the other order
      bot.Start();
      Register(userId, bot);
    }

    /** Files a started bot under a user without one. */
    method Register(userId: string, bot: UserTradingBot)
      requires Valid() && userId !in bots && bot !in retired
      requires bot.userId == userId && bot.Valid() && bot.isActive
      modifies this`bots
      ensures Valid()
      ensures bots == old(bots)[userId := bot]
    {
      bots := bots[userId := bot];
    }

    /** The stop-bot handler: stops and drops the user's bot; a user without
        one is left alone. */
    method StopBot(userId: string)
      requires Valid()
      modifies this`bots, this`retired, if userId in bots then {bots[userId]} else {}
      ensures Valid()
      ensures bots == old(bots) - {userId}
      ensures userId in old(bots) ==> !old(bots)[userId].isActive
      ensures userId !in old(bots) ==> retired == old(retired)
      ensures userId in old(bots) ==> retired == old(retired) + {old(bots)[userId]}
      ensures userId in old(bots) ==> old(bots)[userId].State() == old(bots[userId].State())
    {
      if userId in bots {
        var bot := bots[userId];
        bot.Stop();
        retired := retired + {bot};
        bots := bots - {userId};
      }
    }

    /** The bot-status handler: the bot's statistics when the user has one,
        otherwise the inactive, zero reply; the reply is active exactly when
        the user has a bot. */
    method Status(userId: string) returns (reply: StatusReply)
      requires Valid()
      ensures userId !in bots ==> reply == NotRegistered
      ensures userId in bots ==>
        var b := bots[userId];
        reply == Running(BotStats(b.stats, b.isActive, |b.positions|, b.config.symbols))
      ensures reply.IsActive() <==> userId in bots
      ensures !reply.IsActive() ==> reply.TotalTrades() == 0 && reply.TotalPL() == 0.0
    {
      if userId in bots {
        var stats := bots[userId].GetStats();
        reply := Running(stats);
      } else {
        reply := NotRegistered;
      }
    }
  }
}
