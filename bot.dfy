/**
 * The Bot entity as the factory, the repository and BotSubscription see it. Its own
 * source is not part of this model: only the `bot_id` and `user_id` columns, the
 * `Owner` and `User` relations and the error accumulator are kept.
 */
module BotEntity {
  import opened Wrappers
  import opened Framework

  class Bot {
    var botId: string
    var userId: int
    var owner: Option<ApiKey>
    var user: Option<User>
    var errors: Errors

    /** The blank entity the entity manager hands out. */
    constructor ()
      ensures botId == "" && userId == 0 && owner == None && user == None && errors == map[]
    {
      botId, userId, owner, user, errors := "", 0, None, None, map[];
    }

    /** XF's `hasErrors()`: some setter has recorded an error. */
    predicate HasErrors()
      reads this
      ensures HasErrors() <==> exists column :: column in errors
    {
      |errors| > 0
    }

    /**
     * Assigning `bot_id` through the entity setter: the column's verifier runs first; a
     * rejected value is not stored and its message becomes the error under "bot_id".
     */
    method SetBotId(id: string, verifier: Validator)
      modifies this`botId, this`errors
      ensures verifier(id).Accepted? ==> botId == id && errors == old(errors)
      ensures verifier(id).Rejected? ==>
        botId == old(botId) && errors == old(errors)["bot_id" := verifier(id).message]
    {
      match verifier(id)
      case Accepted => botId := id;
      case Rejected(message) => errors := errors["bot_id" := message];
    }

    /** Binds the `Owner` relation to the given API key. */
    method AttachToOwner(key: ApiKey)
      modifies this`owner
      ensures owner == Some(key)
    {
      owner := Some(key);
    }

    /** Binds the `User` relation and the `user_id` column to the given user. */
    method AttachToUser(u: User)
      modifies this`user, this`userId
      ensures user == Some(u) && userId == u.userId
    {
      user := Some(u);
      userId := u.userId;
    }
  }
}
