/**
 * The bot factory: instantiates a Bot with a freshly generated id, attaches it to its
 * owner and its user, and refuses to hand out an entity that has validation errors.
 * It only builds the entity: it reaches no repository and saves nothing.
 */
module Factory {
  import opened Wrappers
  import opened Framework
  import opened BotEntity

  /**
   * The UUID generator. Its randomness is the `source` parameter: the n-th call returns
   * source(n); `draws` counts the calls made so far.
   */
  class UuidGenerator {
    const source: nat -> string
    var draws: nat

    constructor (source: nat -> string)
      ensures this.source == source && draws == 0
    {
      this.source := source;
      draws := 0;
    }

    method Random() returns (uuid: string)
      modifies this
      ensures draws == old(draws) + 1
      ensures uuid == source(old(draws))
    {
      uuid := source(draws);
      draws := draws + 1;
    }
  }

  /** Raised when the instantiated bot has errors; it carries the rejected entity. */
  datatype FactoryError = BotValidationException(entity: Bot)

  class BotFactory {
    const uuidGenerator: UuidGenerator
    /** The verifier the Bot entity applies to its `bot_id` column. */
    const botIdVerifier: Validator

    constructor (uuidGenerator: UuidGenerator, botIdVerifier: Validator)
      ensures this.uuidGenerator == uuidGenerator && this.botIdVerifier == botIdVerifier
    {
      this.uuidGenerator := uuidGenerator;
      this.botIdVerifier := botIdVerifier;
    }

    /** A new bot whose id comes from one call to the generator, attached to the owner and the user. */
    method InstantiateBot(owner: ApiKey, user: User) returns (bot: Bot)
      modifies uuidGenerator
      ensures fresh(bot)
      ensures uuidGenerator.draws == old(uuidGenerator.draws) + 1
      ensures var id := uuidGenerator.source(old(uuidGenerator.draws));
        && (botIdVerifier(id).Accepted? ==> bot.botId == id && bot.errors == map[])
        && (botIdVerifier(id).Rejected? ==> bot.botId == "" && bot.errors == map["bot_id" := botIdVerifier(id).message])
      ensures bot.owner == Some(owner) && bot.user == Some(user) && bot.userId == user.userId
    {
      bot := new Bot();
      var id := uuidGenerator.Random();
      bot.SetBotId(id, botIdVerifier);
      bot.AttachToOwner(owner);
      bot.AttachToUser(user);
    }

    /** Instantiates the bot and returns it, or raises BotValidationException if it has errors. */
    method Create(owner: ApiKey, user: User) returns (r: Result<Bot, FactoryError>)
      modifies uuidGenerator
      ensures uuidGenerator.draws == old(uuidGenerator.draws) + 1
      ensures var id := uuidGenerator.source(old(uuidGenerator.draws));
        r.Ok? <==> botIdVerifier(id).Accepted?
      ensures r.Ok? ==> && fresh(r.value)
                        && r.value.botId == uuidGenerator.source(old(uuidGenerator.draws))
                        && r.value.owner == Some(owner) && r.value.user == Some(user)
                        && r.value.userId == user.userId
                        && !r.value.HasErrors()
      ensures r.Err? ==> fresh(r.error.entity) && r.error.entity.HasErrors()
      ensures var id := uuidGenerator.source(old(uuidGenerator.draws));
        r.Err? ==> && r.error.entity.botId == ""
                   && r.error.entity.errors == map["bot_id" := botIdVerifier(id).message]
                   && r.error.entity.owner == Some(owner) && r.error.entity.user == Some(user)
                   && r.error.entity.userId == user.userId
    {
      var bot := InstantiateBot(owner, user);
      if bot.HasErrors() {
        return Err(BotValidationException(bot));
      }
      r := Ok(bot);
    }
  }
}
