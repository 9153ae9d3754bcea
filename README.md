# Bot subscriptions: entity, repository, factory and the create use case

This project models the domain core of a XenForo add-on. The add-on lets external "bot"
integrations subscribe to host events through webhooks. The files come from two naming
generations of the add-on (`olml89\XenforoBots` and `olml89\Subscriptions`). Each
component is modelled on its own, over an in-memory store:

- **BotSubscription** (`bot_subscription.dfy`): a class with the entity's columns, its
  `Bot` relation and its error accumulator. The accumulator is keyed by column, and a
  new error under a column replaces the earlier one. `activate`, `deactivate` and `setSubscriber`
  are methods with field-level frames. `same` and `equals` are predicates. The three
  column verifiers record at most one error each and never throw. The column structure
  is a constant list, with a lemma giving the lengths a record must have to fit it.
- **Bot** (`bot.dfy`): the slice of the Bot entity that the factory and the repository
  touch.
- **BotRepository** (`bot_repository.dfy`): the stored bots are a sequence in row order.
  The finder's `where`/`fetch`/`fetchOne` are the functions `Fetch` and `FetchOne`,
  over a list of conditions that must all hold. The repository holds one finder and
  reuses it: each `where` adds a condition to that finder, and the condition stays
  there for later queries. The queries are modelled twice. Methods over the
  accumulated conditions follow the code. Functions over a fresh finder give the
  intended results (see "## Findings"). `save` and `delete` are methods. They
  take the storage layer's failure, if any, as a parameter and map every failure to
  `BotStorageException` or `BotRemovalException`. Lemmas prove that saving and deleting
  keep the primary key unique. They also prove that a later `get` sees the change and
  that no other id is affected.
- **CreateSubscription** (`create_subscription.dfy`): the function `Expected` gives the
  collaborator calls a `create` makes, in order, and how it ends. The method `Create`
  records its calls and is proved equal to `Expected`. Lemmas about `Expected` state the
  gate order: validation, then user lookup, then webhook verification, then save. Each
  failure stops every later step, and only a database failure is translated.
- **BotFactory** (`bot_factory.dfy`): `InstantiateBot` and `Create` as methods over a UUID
  generator whose randomness is a parameter. Their only frame is the generator, so the
  factory cannot save anything.

Oracles are function-typed parameters or constant fields:
- the format validators (UUID, MD5 token, URL, and the rules of the `UserId`, `Url` and
  `Md5Hash` value objects);
- the user finder and the webhook verifier;
- the verdict of the Bot entity's `bot_id` verifier;
- the storage layer's failures;
- the host's debug flag.

Three points where the code is narrower than the intended design, and the model follows the code:
- `same` compares only the subscription id. Two in-memory records with one id but
  different webhooks are therefore `same` without being `equals`
  (`SameWithoutEquals`). The intended design treats that case as impossible.
- `create` catches only the database exception while saving. Any other failure of
  `save` escapes `create` unchanged (`Uncaught`).
- The three value objects are built in argument order (user id, URL, token). So when
  several inputs are invalid, the first one raises.

## Model

| member | source | states |
|---|---|---|
| `BotSubscriptionEntity.BotSubscription.Same` | Entity/BotSubscription.php:126-129 | identity equality: true exactly when the two records share a subscription id |
| `BotSubscriptionEntity.BotSubscription.Equals` | Entity/BotSubscription.php:131-134 | value equality: true exactly when the two records share a webhook |
| `BotSubscriptionEntity.SameIsIdentityOnly` | Entity/BotSubscription.php:126-129 | `same` depends on the id alone, and is reflexive and symmetric |
| `BotSubscriptionEntity.EqualsIsWebhookOnly` | Entity/BotSubscription.php:131-134 | `equals` depends on the webhook alone, and is reflexive and symmetric |
| `BotSubscriptionEntity.EqualsWithoutSame` | Entity/BotSubscription.php:126-134 | two records with different ids and one webhook are `equals` but not `same` |
| `BotSubscriptionEntity.SameWithoutEquals` | Entity/BotSubscription.php:126-134 | two records with one id and different webhooks are `same` but not `equals` |
| `BotSubscriptionEntity.BotSubscription.Activate` | Entity/BotSubscription.php:136-139 | leaves `is_active` true, may change only `is_active`, and is a no-op on an active record |
| `BotSubscriptionEntity.BotSubscription.Deactivate` | Entity/BotSubscription.php:141-144 | leaves `is_active` false, may change only `is_active`, and is a no-op on an inactive record (idempotent) |
| `BotSubscriptionEntity.ActivateThenDeactivate` | Entity/BotSubscription.php:136-144 | after `activate(); deactivate()` the flag is false and the id and webhook are unchanged |
| `BotSubscriptionEntity.DeactivateTwice` | Entity/BotSubscription.php:141-144 | a second `deactivate()` changes nothing |
| `BotSubscriptionEntity.BotSubscription.SetSubscriber` | Entity/BotSubscription.php:146-150 | sets `bot_id` to the bot's id and binds the `Bot` relation to that same bot; only those two fields may change; a record that fit the column structure still fits when the bot's id has 36 characters |
| `BotSubscriptionEntity.BotSubscription.Verify` | Entity/BotSubscription.php:84-124 | the shared verifier shape: true and no new error when the validator accepts; false when it rejects, and then the error for the given column becomes the validator's message, replacing any earlier error for that column, with every other column's error unchanged |
| `BotSubscriptionEntity.BotSubscription.VerifyBotSubscriptionId` | Entity/BotSubscription.php:84-96 | the Verify contract for the UUID validator under "bot_subscription_id" |
| `BotSubscriptionEntity.BotSubscription.VerifyPlatformApiKey` | Entity/BotSubscription.php:98-110 | the Verify contract for the MD5-token validator under "platform_api_key" |
| `BotSubscriptionEntity.BotSubscription.VerifyWebhook` | Entity/BotSubscription.php:112-124 | the Verify contract for the URL validator under "webhook" |
| `BotSubscriptionEntity.RejectWebhookTwice` | Entity/BotSubscription.php:112-124 | two rejected webhook values leave one "webhook" error, carrying the second rejection's message |
| `BotSubscriptionEntity.BotSubscription.constructor` | Entity/BotSubscription.php:13-26 | a record holds exactly the given column values, no bound bot and no errors |
| `BotSubscriptionEntity.FitsStructureIff` | Entity/BotSubscription.php:35-70 | a record fits the declared columns exactly when both ids have 36 characters, the key has 32 and the webhook at most 1048 |
| `BotEntity.Bot.constructor` | Factory/BotFactory.php:36-38 | the entity manager's new bot is blank: empty `bot_id`, `user_id` 0, no relations and no errors |
| `BotEntity.Bot.HasErrors` | Factory/BotFactory.php:26 | `hasErrors()` is true exactly when some column has an error recorded |
| `BotEntity.Bot.SetBotId` | Factory/BotFactory.php:40 | an accepted id is stored with no new error; a rejected one is not stored, and the "bot_id" error becomes the verifier's message, replacing any earlier one, with other columns' errors unchanged |
| `BotEntity.Bot.AttachToOwner` | Factory/BotFactory.php:41 | binds the owner relation to the given API key |
| `BotEntity.Bot.AttachToUser` | Factory/BotFactory.php:42 | binds the user relation and `user_id` to the given user |
| `Repository.Fetch` | Repository/BotRepository.php:23-49 | the finder's fetch returns exactly the stored bots meeting every condition on the finder, no more than are stored, and all of them when the finder has no condition |
| `Repository.FetchOne` | Repository/BotRepository.php:52-72 | the finder's fetchOne returns nothing exactly when no stored bot meets every condition on the finder, and otherwise the first stored bot that does |
| `Repository.BotRepository.constructor` | Listeners/AppSetup.php:154-160 | a repository holds the given bots and a new finder with no condition |
| `Repository.BotRepository.GetAll` | Repository/BotRepository.php:23-29 | on a fresh finder, returns every stored bot and nothing else, as many as are stored |
| `Repository.UserIds` | Repository/BotRepository.php:40-43 | the users' ids, one per user in the same order; an id is in the list exactly when one of the users has it |
| `Repository.BotRepository.GetByUsers` | Repository/BotRepository.php:34-50 | no users give the empty list; otherwise, on a fresh finder, exactly the stored bots whose `user_id` is one of the users' ids |
| `Repository.ByUsersWithinAll` | Repository/BotRepository.php:23-50 | every bot returned for some users is one `getAll` returns |
| `Repository.BotRepository.GetByUser` | Repository/BotRepository.php:52-61 | on a fresh finder, nothing exactly when no stored bot has the user's id; otherwise a stored bot with that `user_id` |
| `Repository.BotRepository.Get` | Repository/BotRepository.php:63-72 | on a fresh finder, nothing exactly when no stored bot has the id; otherwise a stored bot with that id, the only one while the key is unique |
| `Repository.BotRepository.GetAllOnSharedFinder` | Repository/BotRepository.php:23-29 | `getAll` as written: the stored bots meeting every condition left on the shared finder; the same as the fresh-finder `GetAll` only while the finder has no condition |
| `Repository.BotRepository.GetByUsersOnSharedFinder` | Repository/BotRepository.php:34-50 | `getByUsers` as written: no users give the empty list and leave the finder alone; otherwise the users' ids are added to the finder as a condition and the result is a fetch over all the finder's conditions; the same as `GetByUsers` on a finder that had no condition |
| `Repository.BotRepository.GetByUserOnSharedFinder` | Repository/BotRepository.php:52-61 | `getByUser` as written: the user's id is added to the finder as a condition and the result is a fetchOne over all the finder's conditions; the same as `GetByUser` on a finder that had no condition |
| `Repository.BotRepository.GetOnSharedFinder` | Repository/BotRepository.php:63-72 | `get` as written: the id is added to the finder as a condition and the result is a fetchOne over all the finder's conditions; the same as `Get` on a finder that had no condition |
| `Repository.MatchesOne` | Repository/BotRepository.php:47-68 | a finder with one condition matches exactly the bots that condition matches |
| `Repository.StaleConditionHides` | Repository/BotRepository.php:47-58 | a condition left on the finder hides every stored bot that does not meet it from any later fetch |
| `Repository.GetAllAfterGetByUser` | Repository/BotRepository.php:23-61 | on one repository, `getByUser(u)` then `getAll()` misses a stored bot of another user, which `getAll` on a fresh finder returns |
| `Repository.KeyIsUnique` | Repository/BotRepository.php:63-72 | with a unique key, two stored bots with one id are the same bot |
| `Repository.Upsert` | Repository/BotRepository.php:77-88 | after a save, every stored bot is the saved bot or a previously stored one, and the saved bot is stored |
| `Repository.Remove` | Repository/BotRepository.php:93-104 | after a delete, exactly the previously stored bots with another id remain |
| `Repository.UpsertFetchOne` | Repository/BotRepository.php:63-88 | after a save, looking up the saved id finds the saved bot, and looking up any other id finds what it found before |
| `Repository.UpsertKeepsDistinct` | Repository/BotRepository.php:77-88 | a save keeps the primary key unique |
| `Repository.RemoveFetchOne` | Repository/BotRepository.php:63-104 | after a delete, looking up the deleted id finds nothing, and looking up any other id finds what it found before |
| `Repository.RemoveKeepsDistinct` | Repository/BotRepository.php:93-104 | a delete keeps the primary key unique |
| `Repository.BotRepository.Save` | Repository/BotRepository.php:77-88 | without a storage failure: success, the bot is stored and found by `get`, and other ids are unaffected; with any failure: BotStorageException about that bot and an unchanged store |
| `Repository.BotRepository.Delete` | Repository/BotRepository.php:93-104 | without a storage failure: success, `get` finds nothing for the id, and other ids are unaffected; with any failure: BotRemovalException about that bot and an unchanged store |
| `CreateSubscriptionUseCase.Expected` | UseCases/Subscription/CreateSubscription.php:32-49 | the reference run of `create`: at most three calls, always in the order lookup, verification, save; a run that stops before the save ends in an error |
| `CreateSubscriptionUseCase.SaveOutcome` | UseCases/Subscription/CreateSubscription.php:43-48 | the catch around `save`: success exactly when the save did not fail; a SaveSubscriptionException exactly for a database failure, carrying it only in debug mode; any other failure escapes as it is |
| `CreateSubscriptionUseCase.CreateSubscription.Create` | UseCases/Subscription/CreateSubscription.php:32-49 | the calls made and the outcome are those of `Expected`; the store grows by exactly the subscriptions handed to save, and only when the save did not fail |
| `CreateSubscriptionUseCase.SavesOfRuns` | UseCases/Subscription/CreateSubscription.php:40-44 | of the possible call sequences, only the one ending in save hands anything to the repository, and then one subscription |
| `CreateSubscriptionUseCase.SubscriptionRepository.Save` | UseCases/Subscription/CreateSubscription.php:44 | without a failure the subscription is appended to the store; a failure is passed back and the store is unchanged |
| `CreateSubscriptionUseCase.ValidationComesFirst` | UseCases/Subscription/CreateSubscription.php:34-38 | an invalid user id, webhook or token raises its own Invalid exception, in that precedence, with no collaborator called |
| `CreateSubscriptionUseCase.UnknownUserStops` | UseCases/Subscription/CreateSubscription.php:40 | an unknown user raises XFUserNotFoundException after the lookup alone: no verification, no save |
| `CreateSubscriptionUseCase.VerifyOnlyAfterUserFound` | UseCases/Subscription/CreateSubscription.php:34-41 | a verification call happens only when all inputs are valid and the user was found; it is the second call, right after the lookup, and is made on the validated webhook and token |
| `CreateSubscriptionUseCase.FailedVerificationSavesNothing` | UseCases/Subscription/CreateSubscription.php:41 | a failed verification raises WebhookNotImplementedException and nothing is saved |
| `CreateSubscriptionUseCase.SaveOnlyAfterAllGates` | UseCases/Subscription/CreateSubscription.php:34-44 | something is saved exactly when every gate passed; then it is the one subscription built from the inputs, and saving is the last call |
| `CreateSubscriptionUseCase.SaveFailureTranslation` | UseCases/Subscription/CreateSubscription.php:43-48 | after the gates, success exactly when the save did not fail; a database failure becomes SaveSubscriptionException carrying the failure only in debug mode; any other failure escapes unchanged |
| `CreateSubscriptionUseCase.SuccessStoresOne` | UseCases/Subscription/CreateSubscription.php:43-44 | a successful create saved exactly one subscription, with the given user id, webhook and token |
| `Factory.UuidGenerator.Random` | Factory/BotFactory.php:40 | one call returns the generator's next value and counts one draw |
| `Factory.BotFactory.InstantiateBot` | Factory/BotFactory.php:33-45 | a fresh bot, exactly one generator draw; when the verifier accepts the drawn id, it is stored and the bot has no errors; otherwise the id stays empty and the only error is the verifier's message under "bot_id"; attached to the owner and the user; nothing but the generator changes |
| `Factory.BotFactory.Create` | Factory/BotFactory.php:22-31 | success exactly when the instantiated bot has no errors: then a fresh bot with the drawn id, owner and user; otherwise BotValidationException carrying the fresh instantiated bot: empty `bot_id`, the verifier's message as its only error under "bot_id", attached to the owner and the user; exactly one draw, and no repository is touched |

## Findings

| source | as written | input that shows it | evidently intended | confidence | as-written member | corrected member |
|---|---|---|---|---|---|---|
| Repository/BotRepository.php:17-72, Listeners/AppSetup.php:154-160 | the repository is built with one bot finder and calls `where` on it in `getByUsers`, `getByUser` and `get`; XF's finder keeps each condition, so conditions from earlier calls stay on it for later queries | a store with bot A of user 1 and bot B of user 2; on one repository call `getByUser(user 1)`, then `getAll()` | `getAll()` returns both A and B; each query filters only by its own condition | not executed; rests on XF's `Finder::where` adding to the finder it is called on, which is framework code outside this model | `Repository.GetAllAfterGetByUser` | `Repository.BotRepository.GetAll` |

The fresh-finder functions `GetAll`, `GetByUsers`, `GetByUser` and `Get` are the
corrected queries. `Save` and `Delete` state their effect through them. The
`*OnSharedFinder` methods carry the behaviour as written.

## Left out

- The webhook verifier, webhook notifier, notification enqueuer, job execution and authorizer: their source is not part of this model. The verifier and the user finder appear only as boolean oracles.
- The UUID, URL and MD5 validators, and the format rules of the `UserId`, `Url` and `Md5Hash` value objects: these are foreign library code, modelled as oracles. A rejection's printable message is whatever the validator returns.
- The Bot entity's own source is not part of this model. `bot_id` is assumed to go through a column verifier, given as an oracle, and the same setter path: a rejected value is not stored and records one error. `attachToOwner` and `attachToUser` are assumed to bind the relations and `user_id`, and to record no errors.
- XF's entity setter, which calls `verify*` before assigning a column, is framework code. The three BotSubscription verifiers are modelled on their own.
- Column `length` is read as an exact width (36 for the ids, 32 for the key) and `maxLength` as an upper bound (1048). Storage-side enforcement of these limits is not modelled.
- `subscribed_at` defaults to the wall clock (`XF::$time`). Here it is a constructor argument.
- The `ErrorHandler` context attached to BotStorageException and BotRemovalException is a foreign service. The errors carry only the entity.
- Repository.BotRepository.GetAll, Repository.BotRepository.GetByUsers, Repository.BotRepository.GetByUser and Repository.BotRepository.Get: stated for a fresh finder, which is the intended behaviour. The shared-finder behaviour of the code is in the `*OnSharedFinder` methods (see "## Findings").
- Any row limit, ordering or other state that `fetchOne` itself may leave on the shared finder is framework behaviour and is not modelled. Only the accumulated `where` conditions are.
- Repository.BotRepository.GetByUser: when several stored bots belong to the user, the finder returns some row in database order. The model takes the first in store order.
- Repository.BotRepository.Save: XF's insert-or-update is modelled as one upsert keyed by `bot_id`. The store holds the saved entity object itself, as the entity cache does. Changes to a stored entity's fields after saving are not tracked as a separate row.
- The subscription repository is not part of this model. The use case uses a stand-in that appends a saved subscription to a sequence. Any identifier the new-generation Subscription entity may generate is not modelled.
- `SaveSubscriptionException` takes a database exception and an error handler in its constructor, but the use case calls it with one optional argument. The model follows the caller: the wrapped failure is kept only in debug mode. Its message text, error code and HTTP status are left out.
- Failures the user finder or the webhook verifier could raise other than their own exceptions are not modelled: both are total boolean oracles.
- The classes of XFUserNotFoundException and WebhookNotImplementedException are not part of this model. The model chooses their payloads: the user id for the first, the webhook and token for the second. The constructor arguments of InvalidUserIdException and InvalidUrlException are chosen the same way, by analogy with InvalidMd5HashException's `$hash`.
- Exception messages, error codes and HTTP status constants (400, 409), and `IntValueObject`, are plain constants or holders with no behaviour.
- The API controller, the container wiring in `AppSetup` and `Listener`, and `setupApiResultData` are HTTP and dependency wiring. The controller's call to `create` does not match the use case's signature.
