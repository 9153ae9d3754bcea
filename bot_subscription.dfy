/**
 * The BotSubscription entity: one webhook endpoint of a bot, with its shared secret and
 * a two-state active flag. Identity is the subscription id; value equality is the webhook.
 */
module BotSubscriptionEntity {
  import opened Wrappers
  import opened Framework
  import opened BotEntity

  /** Column types used by the structure. */
  datatype ColumnType = Str | Bool | UInt

  /** A column's length rule: `length` (fixed width), `maxLength`, or none. */
  datatype Length = Exactly(n: nat) | AtMost(n: nat) | Unlimited

  datatype Column = Column(name: string, kind: ColumnType, length: Length, required: bool, api: bool)

  /** The table's columns as the entity structure declares them. */
  const Columns: seq<Column> := [
    Column("bot_subscription_id", Str, Exactly(36), true, true),
    Column("bot_id", Str, Exactly(36), true, false),
    Column("is_active", Bool, Unlimited, true, true),
    Column("platform_api_key", Str, Exactly(32), true, true),
    Column("webhook", Str, AtMost(1048), true, true),
    Column("subscribed_at", UInt, Unlimited, true, true)
  ]

  const PrimaryKey: string := "bot_subscription_id"

  predicate Fits(length: Length, value: string)
  {
    match length
    case Exactly(n) => |value| == n
    case AtMost(n) => |value| <= n
    case Unlimited => true
  }

  class BotSubscription {
    var botSubscriptionId: string
    var botId: string
    var isActive: bool
    var platformApiKey: string
    var webhook: string
    var subscribedAt: nat
    /** The `Bot` relation (to-one, on `bot_id`). */
    var bot: Bot?
    var errors: Errors

    constructor (botSubscriptionId: string, botId: string, isActive: bool,
                 platformApiKey: string, webhook: string, subscribedAt: nat)
      ensures this.botSubscriptionId == botSubscriptionId && this.botId == botId
      ensures this.isActive == isActive && this.platformApiKey == platformApiKey
      ensures this.webhook == webhook && this.subscribedAt == subscribedAt
      ensures bot == null && errors == map[]
    {
      this.botSubscriptionId := botSubscriptionId;
      this.botId := botId;
      this.isActive := isActive;
      this.platformApiKey := platformApiKey;
      this.webhook := webhook;
      this.subscribedAt := subscribedAt;
      bot := null;
      errors := map[];
    }

    /** The value of a string column, by column name. */
    function StringColumn(name: string): Option<string>
      reads this
    {
      if name == "bot_subscription_id" then Some(botSubscriptionId)
      else if name == "bot_id" then Some(botId)
      else if name == "platform_api_key" then Some(platformApiKey)
      else if name == "webhook" then Some(webhook)
      else None
    }

    /** Every string column of the structure holds a value within its length rule. */
    predicate FitsStructure()
      reads this
    {
      forall c :: c in Columns && c.kind == Str ==>
        StringColumn(c.name).Some? && Fits(c.length, StringColumn(c.name).value)
    }

    /** Identity equality: the same subscription id. */
    predicate Same(other: BotSubscription)
      reads this, other
    {
      botSubscriptionId == other.botSubscriptionId
    }

    /** Value equality: the same webhook. */
    predicate Equals(other: BotSubscription)
      reads this, other
    {
      webhook == other.webhook
    }

    /** Sets the flag; calling it on an active subscription changes nothing. */
    method Activate()
      modifies this`isActive
      ensures isActive
      ensures old(isActive) ==> unchanged(this)
    {
      isActive := true;
    }

    /** Clears the flag; calling it on an inactive subscription changes nothing. */
    method Deactivate()
      modifies this`isActive
      ensures !isActive
      ensures old(!isActive) ==> unchanged(this)
    {
      isActive := false;
    }

    /**
     * Binds the subscription to its owning bot: the `bot_id` column and the relation. A
     * record that fit the structure still fits it when the bot's id has the column's width.
     */
    method SetSubscriber(b: Bot)
      modifies this`botId, this`bot
      ensures botId == b.botId && bot == b
      ensures old(FitsStructure()) && |b.botId| == 36 ==> FitsStructure()
    {
      FitsStructureIff(this);
      botId := b.botId;
      bot := b;
      FitsStructureIff(this);
    }

    /**
     * The shared shape of the three column verifiers: ask the validator, and on a
     * rejection record its message under the column (replacing an earlier error for that
     * column, leaving the others) and answer false.
     */
    method Verify(field: string, value: string, validator: Validator) returns (ok: bool)
      modifies this`errors
      ensures ok <==> validator(value).Accepted?
      ensures ok ==> errors == old(errors)
      ensures !ok ==> errors == old(errors)[field := validator(value).message]
    {
      match validator(value)
      case Accepted =>
        ok := true;
      case Rejected(message) =>
        errors := errors[field := message];
        ok := false;
    }

    /** Checks a candidate subscription id with the UUID validator. */
    method VerifyBotSubscriptionId(value: string, uuid: Validator) returns (ok: bool)
      modifies this`errors
      ensures ok <==> uuid(value).Accepted?
      ensures ok ==> errors == old(errors)
      ensures !ok ==> errors == old(errors)["bot_subscription_id" := uuid(value).message]
    {
      ok := Verify("bot_subscription_id", value, uuid);
    }

    /** Checks a candidate shared secret with the MD5-token validator. */
    method VerifyPlatformApiKey(value: string, md5Token: Validator) returns (ok: bool)
      modifies this`errors
      ensures ok <==> md5Token(value).Accepted?
      ensures ok ==> errors == old(errors)
      ensures !ok ==> errors == old(errors)["platform_api_key" := md5Token(value).message]
    {
      ok := Verify("platform_api_key", value, md5Token);
    }

    /** Checks a candidate webhook with the URL validator. */
    method VerifyWebhook(value: string, url: Validator) returns (ok: bool)
      modifies this`errors
      ensures ok <==> url(value).Accepted?
      ensures ok ==> errors == old(errors)
      ensures !ok ==> errors == old(errors)["webhook" := url(value).message]
    {
      ok := Verify("webhook", value, url);
    }
  }

  /** A record fits the structure exactly when its ids have 36 characters, its key 32 and its webhook at most 1048. */
  lemma FitsStructureIff(s: BotSubscription)
    ensures s.FitsStructure() <==>
      && |s.botSubscriptionId| == 36
      && |s.botId| == 36
      && |s.platformApiKey| == 32
      && |s.webhook| <= 1048
  {
    if s.FitsStructure() {
      assert Columns[0] in Columns;
      assert Columns[1] in Columns;
      assert Columns[3] in Columns;
      assert Columns[4] in Columns;
    }
  }

  /** `same` on one field only: it holds for any two records sharing an id, whatever their webhooks. */
  lemma SameIsIdentityOnly(a: BotSubscription, b: BotSubscription)
    ensures a.Same(b) <==> a.botSubscriptionId == b.botSubscriptionId
    ensures a.Same(a)
    ensures a.Same(b) <==> b.Same(a)
  {
  }

  /** `equals` on one field only: it holds for any two records sharing a webhook, whatever their ids. */
  lemma EqualsIsWebhookOnly(a: BotSubscription, b: BotSubscription)
    ensures a.Equals(b) <==> a.webhook == b.webhook
    ensures a.Equals(a)
    ensures a.Equals(b) <==> b.Equals(a)
  {
  }

  /** Two distinct records pointing at one webhook are `equals` without being `same`. */
  lemma EqualsWithoutSame(a: BotSubscription, b: BotSubscription)
    requires a.webhook == b.webhook && a.botSubscriptionId != b.botSubscriptionId
    ensures a.Equals(b) && !a.Same(b)
  {
  }

  /** Two records with one id but different webhooks are `same` without being `equals`. */
  lemma SameWithoutEquals(a: BotSubscription, b: BotSubscription)
    requires a.botSubscriptionId == b.botSubscriptionId && a.webhook != b.webhook
    ensures a.Same(b) && !a.Equals(b)
  {
  }

  /** After `activate(); deactivate()` the flag is false and no other column has moved. */
  method ActivateThenDeactivate(s: BotSubscription)
    modifies s`isActive
    ensures !s.isActive
    ensures s.botSubscriptionId == old(s.botSubscriptionId) && s.webhook == old(s.webhook)
  {
    s.Activate();
    s.Deactivate();
  }

  /** A second `deactivate()` leaves the state the first one produced. */
  method DeactivateTwice(s: BotSubscription)
    modifies s`isActive
    ensures !s.isActive
  {
    s.Deactivate();
    label once:
    s.Deactivate();
    assert unchanged@once(s);
  }

  /** A second rejection of the webhook leaves one "webhook" error, carrying the latest message. */
  method RejectWebhookTwice(s: BotSubscription, url: Validator, first: string, second: string)
    requires url(first).Rejected? && url(second).Rejected?
    modifies s`errors
    ensures s.errors == old(s.errors)["webhook" := url(second).message]
  {
    var ok := s.VerifyWebhook(first, url);
    ok := s.VerifyWebhook(second, url);
  }
}
