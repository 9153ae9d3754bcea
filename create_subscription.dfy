/**
 * The CreateSubscription use case: build the value objects, check the user exists, verify
 * the webhook, then save. Each gate raises its own exception and stops every later step;
 * a database failure while saving becomes SaveSubscriptionException.
 */
module CreateSubscriptionUseCase {
  import opened Wrappers
  import opened Framework

  /** The value objects the use case builds. */
  datatype UserId = UserId(value: int)
  datatype Url = Url(value: string)
  datatype Md5Hash = Md5Hash(value: string)

  datatype Subscription = Subscription(userId: UserId, webhook: Url, token: Md5Hash)

  /** The format rules of the three value objects, as oracles. */
  datatype Formats = Formats(userId: int -> bool, url: string -> bool, md5: string -> bool)

  /** What `create` raises. `Uncaught` is a save failure that is not a database exception: it is not caught. */
  datatype CreateError =
    | InvalidUserIdException(userId: int)
    | InvalidUrlException(url: string)
    | InvalidMd5HashException(hash: string)
    | XFUserNotFoundException(user: UserId)
    | WebhookNotImplementedException(webhook: Url, token: Md5Hash)
    | SaveSubscriptionException(previous: Option<Throwable>)
    | Uncaught(cause: Throwable)

  /** A call into a collaborator, in the order the use case makes them. */
  datatype Call =
    | FindUser(userId: UserId)
    | VerifyWebhook(webhook: Url, token: Md5Hash)
    | SaveSubscription(subscription: Subscription)

  /** The calls one `create` makes and how it ends. */
  datatype Run = Run(calls: seq<Call>, result: Result<(), CreateError>)

  /** How a save ends: a database failure is wrapped, with the original only in debug mode; anything else escapes. */
  function SaveOutcome(failure: Option<Throwable>, debugMode: bool): (r: Result<(), CreateError>)
    ensures r.Ok? <==> failure.None?
    ensures r.Err? ==> (r.error.SaveSubscriptionException? <==> failure.value.kind == DatabaseException)
    ensures r.Err? && r.error.SaveSubscriptionException? ==> r.error.previous == (if debugMode then failure else None)
    ensures r.Err? && !r.error.SaveSubscriptionException? ==> r.error == Uncaught(failure.value)
  {
    match failure
    case None => Ok(())
    case Some(e) =>
      if e.kind == DatabaseException then Err(SaveSubscriptionException(if debugMode then Some(e) else None))
      else Err(Uncaught(e))
  }

  /** The run of `create(userId, webhook, token)` given the collaborators' answers. */
  function Expected(formats: Formats, userExists: UserId -> bool, implemented: (Url, Md5Hash) -> bool,
                    userId: int, webhook: string, token: string,
                    saveFailure: Option<Throwable>, debugMode: bool): (r: Run)
    ensures |r.calls| <= 3
    ensures |r.calls| >= 1 ==> r.calls[0].FindUser?
    ensures |r.calls| >= 2 ==> r.calls[1].VerifyWebhook?
    ensures |r.calls| == 3 ==> r.calls[2].SaveSubscription?
    ensures |r.calls| < 3 ==> r.result.Err?
  {
    if !formats.userId(userId) then Run([], Err(InvalidUserIdException(userId)))
    else if !formats.url(webhook) then Run([], Err(InvalidUrlException(webhook)))
    else if !formats.md5(token) then Run([], Err(InvalidMd5HashException(token)))
    else
      var s := Subscription(UserId(userId), Url(webhook), Md5Hash(token));
      if !userExists(s.userId) then
        Run([FindUser(s.userId)], Err(XFUserNotFoundException(s.userId)))
      else if !implemented(s.webhook, s.token) then
        Run([FindUser(s.userId), VerifyWebhook(s.webhook, s.token)],
            Err(WebhookNotImplementedException(s.webhook, s.token)))
      else
        Run([FindUser(s.userId), VerifyWebhook(s.webhook, s.token), SaveSubscription(s)],
            SaveOutcome(saveFailure, debugMode))
  }

  /** The subscriptions handed to the repository by a sequence of calls. */
  function Saves(calls: seq<Call>): seq<Subscription>
  {
    if calls == [] then []
    else (if calls[0].SaveSubscription? then [calls[0].subscription] else []) + Saves(calls[1..])
  }

  /** What each of the possible call sequences hands to the repository. */
  lemma SavesOfRuns(u: UserId, w: Url, t: Md5Hash, s: Subscription)
    ensures Saves([]) == []
    ensures Saves([FindUser(u)]) == []
    ensures Saves([FindUser(u), VerifyWebhook(w, t)]) == []
    ensures Saves([FindUser(u), VerifyWebhook(w, t), SaveSubscription(s)]) == [s]
  {
    assert [FindUser(u)][1..] == [];
    assert [VerifyWebhook(w, t)][1..] == [];
    assert [SaveSubscription(s)][1..] == [];
    var save := [SaveSubscription(s)];
    var verifyThenSave := [VerifyWebhook(w, t)] + save;
    assert verifyThenSave[1..] == save;
    assert Saves(save) == [s];
    assert Saves(verifyThenSave) == [s];
    assert ([FindUser(u), VerifyWebhook(w, t)])[1..] == [VerifyWebhook(w, t)];
    assert ([FindUser(u)] + verifyThenSave)[1..] == verifyThenSave;
    assert [FindUser(u), VerifyWebhook(w, t), SaveSubscription(s)] == [FindUser(u)] + verifyThenSave;
  }

  /** The subscription repository as the use case sees it: the stored subscriptions. */
  class SubscriptionRepository {
    var subscriptions: seq<Subscription>

    constructor (subscriptions: seq<Subscription>)
      ensures this.subscriptions == subscriptions
    {
      this.subscriptions := subscriptions;
    }

    /** Stores the subscription unless the storage layer raises `failure`, which is passed on. */
    method Save(s: Subscription, failure: Option<Throwable>) returns (raised: Option<Throwable>)
      modifies this
      ensures raised == failure
      ensures subscriptions == if failure.None? then old(subscriptions) + [s] else old(subscriptions)
    {
      if failure.None? {
        subscriptions := subscriptions + [s];
      }
      raised := failure;
    }
  }

  class CreateSubscription {
    const formats: Formats
    /** The user finder's answer: does a host user with this id exist. */
    const userFinder: UserId -> bool
    /** The webhook verifier's answer: does the endpoint implement the handshake for this token. */
    const webhookVerifier: (Url, Md5Hash) -> bool
    const subscriptionRepository: SubscriptionRepository

    constructor (formats: Formats, userFinder: UserId -> bool, webhookVerifier: (Url, Md5Hash) -> bool,
                 subscriptionRepository: SubscriptionRepository)
      ensures this.formats == formats && this.userFinder == userFinder
      ensures this.webhookVerifier == webhookVerifier && this.subscriptionRepository == subscriptionRepository
    {
      this.formats := formats;
      this.userFinder := userFinder;
      this.webhookVerifier := webhookVerifier;
      this.subscriptionRepository := subscriptionRepository;
    }

    /**
     * Creates a subscription. `saveFailure` is what the storage layer raises on save, if
     * anything; `debugMode` is the host's debug flag. `calls` records the collaborator
     * calls made, in order.
     */
    method Create(userId: int, webhook: string, token: string, saveFailure: Option<Throwable>, debugMode: bool)
      returns (result: Result<(), CreateError>, calls: seq<Call>)
      modifies subscriptionRepository
      ensures Run(calls, result) == Expected(formats, userFinder, webhookVerifier, userId, webhook, token, saveFailure, debugMode)
      ensures subscriptionRepository.subscriptions ==
        old(subscriptionRepository.subscriptions) + (if saveFailure.None? then Saves(calls) else [])
    {
      calls := [];
      if !formats.userId(userId) {
        return Err(InvalidUserIdException(userId)), calls;
      }
      if !formats.url(webhook) {
        return Err(InvalidUrlException(webhook)), calls;
      }
      if !formats.md5(token) {
        return Err(InvalidMd5HashException(token)), calls;
      }
      var subscription := Subscription(UserId(userId), Url(webhook), Md5Hash(token));
      SavesOfRuns(subscription.userId, subscription.webhook, subscription.token, subscription);

      calls := calls + [FindUser(subscription.userId)];
      if !userFinder(subscription.userId) {
        return Err(XFUserNotFoundException(subscription.userId)), calls;
      }
      calls := calls + [VerifyWebhook(subscription.webhook, subscription.token)];
      if !webhookVerifier(subscription.webhook, subscription.token) {
        return Err(WebhookNotImplementedException(subscription.webhook, subscription.token)), calls;
      }

      calls := calls + [SaveSubscription(subscription)];
      var raised := subscriptionRepository.Save(subscription, saveFailure);
      result := SaveOutcome(raised, debugMode);
    }
  }

  /** An invalid user id, webhook or token is reported, in that order of precedence, before any collaborator is called. */
  lemma ValidationComesFirst(formats: Formats, userExists: UserId -> bool, implemented: (Url, Md5Hash) -> bool,
                             userId: int, webhook: string, token: string,
                             saveFailure: Option<Throwable>, debugMode: bool)
    ensures var run := Expected(formats, userExists, implemented, userId, webhook, token, saveFailure, debugMode);
      && (!formats.userId(userId) ==> run == Run([], Err(InvalidUserIdException(userId))))
      && (formats.userId(userId) && !formats.url(webhook) ==> run == Run([], Err(InvalidUrlException(webhook))))
      && (formats.userId(userId) && formats.url(webhook) && !formats.md5(token) ==>
            run == Run([], Err(InvalidMd5HashException(token))))
  {
  }

  /** An unknown user stops the use case after the lookup: nothing is verified and nothing is saved. */
  lemma UnknownUserStops(formats: Formats, userExists: UserId -> bool, implemented: (Url, Md5Hash) -> bool,
                         userId: int, webhook: string, token: string,
                         saveFailure: Option<Throwable>, debugMode: bool)
    requires formats.userId(userId) && formats.url(webhook) && formats.md5(token)
    requires !userExists(UserId(userId))
    ensures var run := Expected(formats, userExists, implemented, userId, webhook, token, saveFailure, debugMode);
      run.calls == [FindUser(UserId(userId))] && run.result == Err(XFUserNotFoundException(UserId(userId)))
      && Saves(run.calls) == []
  {
    SavesOfRuns(UserId(userId), Url(webhook), Md5Hash(token), Subscription(UserId(userId), Url(webhook), Md5Hash(token)));
  }

  /** Verification happens only as the second call, after the user was found, and only on the validated webhook and token. */
  lemma VerifyOnlyAfterUserFound(formats: Formats, userExists: UserId -> bool, implemented: (Url, Md5Hash) -> bool,
                                 userId: int, webhook: string, token: string,
                                 saveFailure: Option<Throwable>, debugMode: bool, k: nat)
    requires var run := Expected(formats, userExists, implemented, userId, webhook, token, saveFailure, debugMode);
      k < |run.calls| && run.calls[k].VerifyWebhook?
    ensures formats.userId(userId) && formats.url(webhook) && formats.md5(token)
    ensures userExists(UserId(userId))
    ensures var run := Expected(formats, userExists, implemented, userId, webhook, token, saveFailure, debugMode);
      k == 1 && run.calls[0] == FindUser(UserId(userId)) && run.calls[1] == VerifyWebhook(Url(webhook), Md5Hash(token))
  {
  }

  /** A failed verification raises WebhookNotImplementedException and saves nothing. */
  lemma FailedVerificationSavesNothing(formats: Formats, userExists: UserId -> bool, implemented: (Url, Md5Hash) -> bool,
                                       userId: int, webhook: string, token: string,
                                       saveFailure: Option<Throwable>, debugMode: bool)
    requires formats.userId(userId) && formats.url(webhook) && formats.md5(token)
    requires userExists(UserId(userId)) && !implemented(Url(webhook), Md5Hash(token))
    ensures var run := Expected(formats, userExists, implemented, userId, webhook, token, saveFailure, debugMode);
      run.result == Err(WebhookNotImplementedException(Url(webhook), Md5Hash(token))) && Saves(run.calls) == []
  {
    SavesOfRuns(UserId(userId), Url(webhook), Md5Hash(token), Subscription(UserId(userId), Url(webhook), Md5Hash(token)));
  }

  /** Something is handed to the repository exactly when every gate passed, and then it is the one subscription built from the inputs, last. */
  lemma SaveOnlyAfterAllGates(formats: Formats, userExists: UserId -> bool, implemented: (Url, Md5Hash) -> bool,
                              userId: int, webhook: string, token: string,
                              saveFailure: Option<Throwable>, debugMode: bool)
    ensures var run := Expected(formats, userExists, implemented, userId, webhook, token, saveFailure, debugMode);
      var passed := formats.userId(userId) && formats.url(webhook) && formats.md5(token)
                    && userExists(UserId(userId)) && implemented(Url(webhook), Md5Hash(token));
      && (Saves(run.calls) != [] <==> passed)
      && (passed ==> Saves(run.calls) == [Subscription(UserId(userId), Url(webhook), Md5Hash(token))]
                     && run.calls[|run.calls| - 1].SaveSubscription?)
  {
    SavesOfRuns(UserId(userId), Url(webhook), Md5Hash(token), Subscription(UserId(userId), Url(webhook), Md5Hash(token)));
  }

  /** Once every gate passed, the outcome is the save's: success, a wrapped database failure (detail only in debug mode), or the other failure unchanged. */
  lemma SaveFailureTranslation(formats: Formats, userExists: UserId -> bool, implemented: (Url, Md5Hash) -> bool,
                               userId: int, webhook: string, token: string,
                               saveFailure: Option<Throwable>, debugMode: bool)
    requires formats.userId(userId) && formats.url(webhook) && formats.md5(token)
    requires userExists(UserId(userId)) && implemented(Url(webhook), Md5Hash(token))
    ensures var run := Expected(formats, userExists, implemented, userId, webhook, token, saveFailure, debugMode);
      && (run.result.Ok? <==> saveFailure.None?)
      && (saveFailure.Some? && saveFailure.value.kind == DatabaseException ==>
            run.result == Err(SaveSubscriptionException(if debugMode then saveFailure else None)))
      && (saveFailure.Some? && saveFailure.value.kind != DatabaseException ==>
            run.result == Err(Uncaught(saveFailure.value)))
  {
  }

  /** A successful create stored exactly one subscription, carrying the given user id, webhook and token. */
  lemma SuccessStoresOne(formats: Formats, userExists: UserId -> bool, implemented: (Url, Md5Hash) -> bool,
                         userId: int, webhook: string, token: string,
                         saveFailure: Option<Throwable>, debugMode: bool)
    requires Expected(formats, userExists, implemented, userId, webhook, token, saveFailure, debugMode).result.Ok?
    ensures saveFailure.None?
    ensures Saves(Expected(formats, userExists, implemented, userId, webhook, token, saveFailure, debugMode).calls)
            == [Subscription(UserId(userId), Url(webhook), Md5Hash(token))]
  {
    SavesOfRuns(UserId(userId), Url(webhook), Md5Hash(token), Subscription(UserId(userId), Url(webhook), Md5Hash(token)));
  }
}
