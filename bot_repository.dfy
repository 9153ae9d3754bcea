/**
 * The bot repository: queries through the bot finder over the stored bots, and save and
 * delete that turn any failure of the storage layer into one domain error each.
 * The store is the sequence of stored bots in the finder's row order.
 */
module Repository {
  import opened Wrappers
  import opened Framework
  import opened BotEntity

  /** The finder conditions the repository uses. */
  datatype Condition =
    | UserIdIn(userIds: seq<int>)
    | UserIdIs(userId: int)
    | IdIs(botId: string)

  predicate Matches(b: Bot, cond: Condition)
    reads b
  {
    match cond
    case UserIdIn(ids) => b.userId in ids
    case UserIdIs(id) => b.userId == id
    case IdIs(id) => b.botId == id
  }

  /** A finder's conditions are conjoined: a row must meet every one. */
  predicate MatchesAll(b: Bot, conds: seq<Condition>)
    reads b
  {
    forall k :: 0 <= k < |conds| ==> Matches(b, conds[k])
  }

  /** A finder carrying one condition matches exactly what that condition matches. */
  lemma MatchesOne(c: Condition)
    ensures forall b: Bot :: MatchesAll(b, [c]) == Matches(b, c)
  {
    forall b: Bot ensures MatchesAll(b, [c]) == Matches(b, c) {
      assert [c][0] == c;
    }
  }

  /** `fetch()`: every stored bot meeting all the finder's conditions, in store order. */
  function Fetch(bots: seq<Bot>, conds: seq<Condition>): (r: seq<Bot>)
    reads bots
    ensures forall b :: b in r ==> b in bots && MatchesAll(b, conds)
    ensures forall b :: b in bots && MatchesAll(b, conds) ==> b in r
    ensures |r| <= |bots|
    ensures conds == [] ==> r == bots
  {
    if bots == [] then []
    else (if MatchesAll(bots[0], conds) then [bots[0]] else []) + Fetch(bots[1..], conds)
  }

  /** `fetchOne()`: the first stored bot meeting all the finder's conditions, or nothing. */
  function FetchOne(bots: seq<Bot>, conds: seq<Condition>): (r: Option<Bot>)
    reads bots
    ensures r.None? <==> forall i :: 0 <= i < |bots| ==> !MatchesAll(bots[i], conds)
    ensures r.Some? ==> exists i :: 0 <= i < |bots| && bots[i] == r.value && MatchesAll(r.value, conds)
                                    && forall j :: 0 <= j < i ==> !MatchesAll(bots[j], conds)
  {
    if bots == [] then None
    else if MatchesAll(bots[0], conds) then Some(bots[0])
    else
      var r := FetchOne(bots[1..], conds);
      assert r.Some? ==> exists i :: 0 <= i < |bots| - 1 && bots[1..][i] == r.value && MatchesAll(r.value, conds)
                                     && forall j :: 0 <= j < i ==> !MatchesAll(bots[1..][j], conds);
      r
  }

  /** The users' ids, in order (the `array_map` of `getByUsers`). */
  function UserIds(users: seq<User>): (r: seq<int>)
    ensures |r| == |users| && forall i :: 0 <= i < |users| ==> r[i] == users[i].userId
    ensures forall id :: id in r <==> exists u :: u in users && u.userId == id
  {
    seq(|users|, i requires 0 <= i < |users| => users[i].userId)
  }

  /** No two stored bots share an id (the table's primary key). */
  predicate DistinctIds(bots: seq<Bot>)
    reads bots
  {
    forall i, j :: 0 <= i < j < |bots| ==> bots[i].botId != bots[j].botId
  }

  /** With a unique key, two stored bots with one id are the same bot. */
  lemma KeyIsUnique(bots: seq<Bot>, a: Bot, b: Bot)
    requires DistinctIds(bots) && a in bots && b in bots && a.botId == b.botId
    ensures a == b
  {
    var i :| 0 <= i < |bots| && bots[i] == a;
    var k :| 0 <= k < |bots| && bots[k] == b;
    assert !(i < k) && !(k < i);
  }

  /** The store after a successful `save()`: the first row with the bot's id is replaced, or the bot is appended. */
  function Upsert(bots: seq<Bot>, bot: Bot): (r: seq<Bot>)
    reads bots, bot
    ensures forall b :: b in r ==> b == bot || b in bots
    ensures bot in r
  {
    if bots == [] then [bot]
    else if bots[0].botId == bot.botId then [bot] + bots[1..]
    else [bots[0]] + Upsert(bots[1..], bot)
  }

  /** The store after a successful `delete()`: the rows with that id are gone, the others keep their order. */
  function Remove(bots: seq<Bot>, botId: string): (r: seq<Bot>)
    reads bots
    ensures forall b :: b in r ==> b in bots && b.botId != botId
    ensures forall b :: b in bots && b.botId != botId ==> b in r
    ensures |r| <= |bots|
  {
    if bots == [] then []
    else (if bots[0].botId == botId then [] else [bots[0]]) + Remove(bots[1..], botId)
  }

  /** Looking a bot up by id after a successful save finds the saved bot; other ids are unaffected. */
  lemma {:induction false} UpsertFetchOne(bots: seq<Bot>, bot: Bot, id: string)
    ensures FetchOne(Upsert(bots, bot), [IdIs(id)]) == if id == bot.botId then Some(bot) else FetchOne(bots, [IdIs(id)])
  {
    MatchesOne(IdIs(id));
    if bots == [] {
      assert Upsert(bots, bot)[1..] == [];
    } else if bots[0].botId == bot.botId {
      assert Upsert(bots, bot)[1..] == bots[1..];
    } else {
      assert Upsert(bots, bot)[1..] == Upsert(bots[1..], bot);
      UpsertFetchOne(bots[1..], bot, id);
    }
  }

  /** Saving keeps the primary key unique. */
  lemma {:induction false} UpsertKeepsDistinct(bots: seq<Bot>, bot: Bot)
    requires DistinctIds(bots)
    ensures DistinctIds(Upsert(bots, bot))
  {
    if bots == [] {
    } else if bots[0].botId == bot.botId {
      var r := Upsert(bots, bot);
      forall i, j | 0 <= i < j < |r| ensures r[i].botId != r[j].botId {
        assert r[j] == bots[j];
        if i > 0 { assert r[i] == bots[i]; }
      }
    } else {
      var rest := Upsert(bots[1..], bot);
      UpsertKeepsDistinct(bots[1..], bot);
      var r := Upsert(bots, bot);
      assert r == [bots[0]] + rest;
      forall i, j | 0 <= i < j < |r| ensures r[i].botId != r[j].botId {
        if i == 0 {
          assert r[j] in rest;
          if r[j] != bot {
            var k :| 0 <= k < |bots[1..]| && bots[1..][k] == r[j];
            assert bots[k + 1] == r[j];
          }
        } else {
          assert r[i] == rest[i - 1] && r[j] == rest[j - 1];
        }
      }
    }
  }

  /** Looking a bot up by id after a successful delete of that id finds nothing; other ids are unaffected. */
  lemma {:induction false} RemoveFetchOne(bots: seq<Bot>, botId: string, id: string)
    ensures FetchOne(Remove(bots, botId), [IdIs(id)]) == if id == botId then None else FetchOne(bots, [IdIs(id)])
  {
    MatchesOne(IdIs(id));
    if bots == [] {
    } else if bots[0].botId == botId {
      assert Remove(bots, botId) == Remove(bots[1..], botId);
      RemoveFetchOne(bots[1..], botId, id);
    } else {
      assert Remove(bots, botId)[1..] == Remove(bots[1..], botId);
      RemoveFetchOne(bots[1..], botId, id);
    }
  }

  /** Deleting keeps the primary key unique. */
  lemma {:induction false} RemoveKeepsDistinct(bots: seq<Bot>, botId: string)
    requires DistinctIds(bots)
    ensures DistinctIds(Remove(bots, botId))
  {
    if bots != [] {
      var rest := Remove(bots[1..], botId);
      RemoveKeepsDistinct(bots[1..], botId);
      if bots[0].botId != botId {
        var r := Remove(bots, botId);
        assert r == [bots[0]] + rest;
        forall i, j | 0 <= i < j < |r| ensures r[i].botId != r[j].botId {
          if i == 0 {
            assert r[j] in bots[1..];
            var k :| 0 <= k < |bots[1..]| && bots[1..][k] == r[j];
            assert bots[k + 1] == r[j];
          } else {
            assert r[i] == rest[i - 1] && r[j] == rest[j - 1];
          }
        }
      } else {
        assert Remove(bots, botId) == rest;
      }
    }
  }

  /** The domain errors of the repository; each carries the entity it was about. */
  datatype RepositoryError =
    | BotStorageException(entity: Bot)
    | BotRemovalException(entity: Bot)

  class BotRepository {
    /** The stored bots, in the order the finder returns rows. */
    var bots: seq<Bot>
    /** The conditions accumulated on the one injected bot finder. */
    var finderConditions: seq<Condition>

    ghost predicate Valid()
      reads this, bots
    {
      DistinctIds(bots)
    }

    /** The repository is built with a new finder, which carries no condition yet. */
    constructor (bots: seq<Bot>)
      requires DistinctIds(bots)
      ensures Valid() && this.bots == bots && finderConditions == []
    {
      this.bots := bots;
      finderConditions := [];
    }

    /** Every stored bot, as a fetch on a fresh finder returns them. */
    function GetAll(): (r: seq<Bot>)
      reads this, bots
      ensures forall b :: b in r ==> b in bots
      ensures forall b :: b in bots ==> b in r
      ensures |r| == |bots|
    {
      Fetch(bots, [])
    }

    /** The stored bots owned by any of the given users (fresh finder); no users means no bots, without a query. */
    function GetByUsers(users: seq<User>): (r: seq<Bot>)
      reads this, bots
      ensures users == [] ==> r == []
      ensures forall b :: b in r ==> b in bots && exists u :: u in users && u.userId == b.userId
      ensures forall b :: b in bots && (exists u :: u in users && u.userId == b.userId) ==> b in r
    {
      if users == [] then []
      else
        var userIds := UserIds(users);
        assert forall b: Bot :: b in bots ==> (b.userId in userIds <==> exists u :: u in users && u.userId == b.userId) by {
          forall b: Bot | b in bots && (exists u :: u in users && u.userId == b.userId) ensures b.userId in userIds {
            var u :| u in users && u.userId == b.userId;
            var k :| 0 <= k < |users| && users[k] == u;
            assert userIds[k] == b.userId;
          }
        }
        MatchesOne(UserIdIn(userIds));
        Fetch(bots, [UserIdIn(userIds)])
    }

    /** A stored bot of the given user (fresh finder; the first in row order), or nothing when the user has none. */
    function GetByUser(user: User): (r: Option<Bot>)
      reads this, bots
      ensures r.None? <==> forall b :: b in bots ==> b.userId != user.userId
      ensures r.Some? ==> r.value in bots && r.value.userId == user.userId
    {
      MatchesOne(UserIdIs(user.userId));
      FetchOne(bots, [UserIdIs(user.userId)])
    }

    /** The stored bot with the given id (fresh finder), or nothing when there is none; with a unique key it is the only one. */
    function Get(botId: string): (r: Option<Bot>)
      reads this, bots
      ensures r.None? <==> forall b :: b in bots ==> b.botId != botId
      ensures r.Some? ==> r.value in bots && r.value.botId == botId
      ensures r.Some? && DistinctIds(bots) ==> forall b :: b in bots && b.botId == botId ==> b == r.value
    {
      MatchesOne(IdIs(botId));
      var r := FetchOne(bots, [IdIs(botId)]);
      assert r.Some? && DistinctIds(bots) ==> forall b :: b in bots && b.botId == botId ==> b == r.value by {
        if r.Some? && DistinctIds(bots) {
          forall b | b in bots && b.botId == botId ensures b == r.value {
            KeyIsUnique(bots, b, r.value);
          }
        }
      }
      r
    }

    /** `getAll()` as written: it fetches on the shared finder, so every condition left there still applies. */
    method GetAllOnSharedFinder() returns (r: seq<Bot>)
      ensures r == Fetch(bots, finderConditions)
      ensures finderConditions == [] ==> r == GetAll()
    {
      r := Fetch(bots, finderConditions);
    }

    /** `getByUsers()` as written: unless no users are given, it adds its condition to the shared finder and fetches. */
    method GetByUsersOnSharedFinder(users: seq<User>) returns (r: seq<Bot>)
      modifies this`finderConditions
      ensures users == [] ==> r == [] && finderConditions == old(finderConditions)
      ensures users != [] ==> finderConditions == old(finderConditions) + [UserIdIn(UserIds(users))]
                              && r == Fetch(bots, finderConditions)
      ensures old(finderConditions) == [] ==> r == GetByUsers(users)
    {
      if users == [] {
        return [];
      }
      if finderConditions == [] {
        assert finderConditions + [UserIdIn(UserIds(users))] == [UserIdIn(UserIds(users))];
      }
      finderConditions := finderConditions + [UserIdIn(UserIds(users))];
      r := Fetch(bots, finderConditions);
    }

    /** `getByUser()` as written: it adds its condition to the shared finder and fetches one row. */
    method GetByUserOnSharedFinder(user: User) returns (r: Option<Bot>)
      modifies this`finderConditions
      ensures finderConditions == old(finderConditions) + [UserIdIs(user.userId)]
      ensures r == FetchOne(bots, finderConditions)
      ensures old(finderConditions) == [] ==> r == GetByUser(user)
    {
      if finderConditions == [] {
        assert finderConditions + [UserIdIs(user.userId)] == [UserIdIs(user.userId)];
      }
      finderConditions := finderConditions + [UserIdIs(user.userId)];
      r := FetchOne(bots, finderConditions);
    }

    /** `get()` as written: it adds its id condition to the shared finder and fetches one row. */
    method GetOnSharedFinder(botId: string) returns (r: Option<Bot>)
      modifies this`finderConditions
      ensures finderConditions == old(finderConditions) + [IdIs(botId)]
      ensures r == FetchOne(bots, finderConditions)
      ensures old(finderConditions) == [] ==> r == Get(botId)
    {
      if finderConditions == [] {
        assert finderConditions + [IdIs(botId)] == [IdIs(botId)];
      }
      finderConditions := finderConditions + [IdIs(botId)];
      r := FetchOne(bots, finderConditions);
    }

    /**
     * Saves the bot. `failure` is what the storage layer raises, if anything; any such
     * failure becomes a BotStorageException about this bot and leaves the store as it was.
     */
    method Save(bot: Bot, failure: Option<Throwable>) returns (r: Result<(), RepositoryError>)
      requires Valid()
      modifies this`bots
      ensures Valid()
      ensures failure.None? ==> r == Ok(()) && bots == Upsert(old(bots), bot)
      ensures failure.None? ==> Get(bot.botId) == Some(bot)
      ensures failure.None? ==> forall id :: id != bot.botId ==> Get(id) == old(Get(id))
      ensures failure.Some? ==> r == Err(BotStorageException(bot)) && bots == old(bots)
    {
      if failure.Some? {
        return Err(BotStorageException(bot));
      }
      UpsertKeepsDistinct(bots, bot);
      forall id {
        UpsertFetchOne(bots, bot, id);
      }
      bots := Upsert(bots, bot);
      r := Ok(());
    }

    /**
     * Deletes the bot. `failure` is what the storage layer raises, if anything; any such
     * failure becomes a BotRemovalException about this bot and leaves the store as it was.
     */
    method Delete(bot: Bot, failure: Option<Throwable>) returns (r: Result<(), RepositoryError>)
      requires Valid()
      modifies this`bots
      ensures Valid()
      ensures failure.None? ==> r == Ok(()) && bots == Remove(old(bots), bot.botId)
      ensures failure.None? ==> Get(bot.botId) == None
      ensures failure.None? ==> forall id :: id != bot.botId ==> Get(id) == old(Get(id))
      ensures failure.Some? ==> r == Err(BotRemovalException(bot)) && bots == old(bots)
    {
      if failure.Some? {
        return Err(BotRemovalException(bot));
      }
      RemoveKeepsDistinct(bots, bot.botId);
      forall id {
        RemoveFetchOne(bots, bot.botId, id);
      }
      bots := Remove(bots, bot.botId);
      r := Ok(());
    }
  }

  /** Every bot `getByUsers` returns is one `getAll` returns. */
  lemma ByUsersWithinAll(repo: BotRepository, users: seq<User>)
    ensures forall b :: b in repo.GetByUsers(users) ==> b in repo.GetAll()
  {
  }

  /** A condition left on the finder hides every stored bot that does not meet it from later fetches. */
  lemma StaleConditionHides(bots: seq<Bot>, conds: seq<Condition>, c: Condition, b: Bot)
    requires b in bots && !Matches(b, c)
    ensures b !in Fetch(bots, conds + [c])
    ensures b !in Fetch(bots, [c] + conds)
  {
    assert (conds + [c])[|conds|] == c;
    assert ([c] + conds)[0] == c;
  }

  /**
   * On one repository, `getByUser(u)` followed by `getAll()` misses the bot of any other
   * user, which `getAll()` on a fresh finder returns.
   */
  method GetAllAfterGetByUser(repo: BotRepository, u: User, other: Bot) returns (all: seq<Bot>)
    requires repo.finderConditions == [] && other in repo.bots && other.userId != u.userId
    modifies repo`finderConditions
    ensures other in repo.GetAll() && other !in all
  {
    var _ := repo.GetByUserOnSharedFinder(u);
    all := repo.GetAllOnSharedFinder();
    StaleConditionHides(repo.bots, [], UserIdIs(u.userId), other);
  }
}
