/**
 * The few host-framework (XenForo) values the core touches. Their implementations are
 * foreign code; only what the core observes of them is kept.
 */
module Framework {

  /** A host user (XF\Entity\User): the core reads only its `user_id`. */
  datatype User = User(userId: int)

  /** A host API key (XF\Entity\ApiKey), the owner a bot is attached to. */
  datatype ApiKey = ApiKey(apiKeyId: int)

  /** What a validator's `isValid` answers: accepted, or rejected with its printable error value. */
  datatype Verdict = Accepted | Rejected(message: string)

  /** A format validator (Uuid, Md5Token, Url, ...), an uninterpreted oracle. */
  type Validator = string -> Verdict

  /**
   * An entity's error accumulator: messages keyed by column name. A new error under a
   * column replaces the earlier one.
   */
  type Errors = map<string, string>

  /** The two kinds of failure the core tells apart: a database exception and anything else. */
  datatype ThrowableKind = DatabaseException | OtherException

  /** A PHP Throwable raised by a lower layer. */
  datatype Throwable = Throwable(kind: ThrowableKind, message: string)
}
