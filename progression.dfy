/**
  User progression (the user routes): lookup by id or Telegram id, the
  lookup-or-insert of a new user, coin credits and experience with level-ups.

  The users table is a map from id to record; ids are handed out in order
  from `nextId`, as the database's auto-increment key does. The User model's
  column defaults come in as a constructor parameter, since that model is not
  part of this one. Experience is a whole number.
*/
module Progression {
  import opened Wrappers

  datatype User = User(
    id: int,
    telegramId: int,
    username: Option<string>,
    firstName: Option<string>,
    lastName: Option<string>,
    level: int,
    experience: int,
    gamesPlayed: int,
    wins: int,
    coins: int,
    health: int,
    maxHealth: int)

  /** The request body of `create_or_get_user`. */
  datatype UserCreate = UserCreate(
    telegramId: int,
    username: Option<string>,
    firstName: Option<string>,
    lastName: Option<string>)

  /** The column defaults a new user row receives. */
  datatype UserDefaults = UserDefaults(
    level: int, experience: int, gamesPlayed: int, wins: int, coins: int, health: int, maxHealth: int)

  /** One row of the inventory table. */
  datatype InventoryItem = InventoryItem(id: int, userId: int, itemType: string, itemName: string, quantity: int)

  /** The HTTP error the handlers raise. */
  datatype HttpError = NotFound

  /** The experience needed to climb from `lo` to `hi`: the sum of `100 * l` for `l` in `lo..hi-1`. */
  function XpForLevels(lo: int, hi: int): int
    decreases hi - lo
  {
    if hi <= lo then 0 else XpForLevels(lo, hi - 1) + 100 * (hi - 1)
  }

  lemma {:induction false} XpForLevelsFront(lo: int, hi: int)
    requires lo < hi
    ensures XpForLevels(lo, hi) == 100 * lo + XpForLevels(lo + 1, hi)
    decreases hi - lo
  {
    if lo + 1 < hi {
      XpForLevelsFront(lo, hi - 1);
    }
  }

  /** The level and remaining experience the level-up rule arrives at. */
  function LevelUpSpec(level: int, xp: int): (r: (int, int))
    requires level >= 1
    decreases xp
  {
    if xp < level * 100 then (level, xp) else LevelUpSpec(level + 1, xp - level * 100)
  }

  /**
    What the level-up rule guarantees: the level never drops, the remainder is
    below the next threshold, and no experience is lost: the experience spent is
    exactly the thresholds of the levels climbed. Below the first threshold nothing changes.
  */
  lemma {:induction false} LevelUpProperties(level: int, xp: int)
    requires level >= 1
    ensures var (l, x) := LevelUpSpec(level, xp);
      && l >= level
      && x < l * 100
      && xp == x + XpForLevels(level, l)
      && (l > level ==> x >= 0)
      && (xp < level * 100 <==> l == level)
      && (l == level ==> x == xp)
    decreases xp
  {
    if xp >= level * 100 {
      LevelUpProperties(level + 1, xp - level * 100);
      var (l, x) := LevelUpSpec(level + 1, xp - level * 100);
      XpForLevelsFront(level, l);
    }
  }

  /** More experience never yields a lower level. */
  lemma {:induction false} LevelUpMonotone(level: int, xp1: int, xp2: int)
    requires level >= 1 && xp1 <= xp2
    ensures LevelUpSpec(level, xp1).0 <= LevelUpSpec(level, xp2).0
    decreases xp2
  {
    if xp1 >= level * 100 {
      LevelUpMonotone(level + 1, xp1 - level * 100, xp2 - level * 100);
    } else if xp2 >= level * 100 {
      LevelUpProperties(level + 1, xp2 - level * 100);
    }
  }

  /**
    The level-up loop of `add_experience`: while the experience reaches
    `level * 100`, subtract that threshold and go up one level.
  */
  method LevelUp(level: int, experience: int) returns (newLevel: int, newExperience: int)
    requires level >= 1
    ensures (newLevel, newExperience) == LevelUpSpec(level, experience)
    ensures newLevel >= level && newExperience < newLevel * 100
    ensures experience == newExperience + XpForLevels(level, newLevel)
  {
    newLevel, newExperience := level, experience;
    var expNeeded := newLevel * 100;
    while newExperience >= expNeeded
      invariant newLevel >= level && expNeeded == newLevel * 100
      invariant experience == newExperience + XpForLevels(level, newLevel)
      invariant LevelUpSpec(newLevel, newExperience) == LevelUpSpec(level, experience)
      decreases newExperience
    {
      newExperience := newExperience - expNeeded;
      newLevel := newLevel + 1;
      expNeeded := newLevel * 100;
    }
  }

  // ----- the users table -----

  /** No two rows share a Telegram id. */
  ghost predicate UniqueTelegramIds(users: map<int, User>)
  {
    forall a, b :: a in users && b in users && users[a].telegramId == users[b].telegramId ==> a == b
  }

  /** The row whose Telegram id is `t`, as `filter(...).first()` finds it. */
  function FindByTelegram(users: map<int, User>, t: int): (r: Option<int>)
    requires UniqueTelegramIds(users)
    ensures r.None? <==> forall id :: id in users ==> users[id].telegramId != t
    ensures r.Some? ==> r.value in users && users[r.value].telegramId == t
  {
    if exists id :: id in users && users[id].telegramId == t then
      var id :| id in users && users[id].telegramId == t;
      Some(id)
    else None
  }

  /** The row a new user gets: the request's fields over the column defaults. */
  function NewUser(id: int, data: UserCreate, d: UserDefaults): (u: User)
    ensures u.id == id && u.telegramId == data.telegramId
    ensures u.username == data.username && u.firstName == data.firstName && u.lastName == data.lastName
    ensures u.level == d.level && u.experience == d.experience && u.gamesPlayed == d.gamesPlayed
    ensures u.wins == d.wins && u.coins == d.coins && u.health == d.health && u.maxHealth == d.maxHealth
  {
    User(id, data.telegramId, data.username, data.firstName, data.lastName,
         d.level, d.experience, d.gamesPlayed, d.wins, d.coins, d.health, d.maxHealth)
  }

  /** The lookup-or-insert: the table afterwards, the next free id, and the user returned. */
  function CreateOrGet(users: map<int, User>, nextId: int, data: UserCreate, d: UserDefaults)
    : (r: (map<int, User>, int, User))
    requires UniqueTelegramIds(users)
  {
    match FindByTelegram(users, data.telegramId)
    case Some(id) => (users, nextId, users[id])
    case None => (users[nextId := NewUser(nextId, data, d)], nextId + 1, NewUser(nextId, data, d))
  }

  /**
    Inserting a user whose Telegram id is new keeps Telegram ids unique, and
    a later lookup by that Telegram id finds the new row.
  */
  lemma InsertKeepsUnique(users: map<int, User>, id: int, u: User)
    requires UniqueTelegramIds(users) && id !in users
    requires FindByTelegram(users, u.telegramId).None?
    ensures UniqueTelegramIds(users[id := u])
    ensures FindByTelegram(users[id := u], u.telegramId) == Some(id)
  {
    var m := users[id := u];
    assert m[id].telegramId == u.telegramId;
  }

  /**
    `create_or_get_user` is idempotent: a second call with the same Telegram id
    returns the same user and inserts nothing, and the first call inserts at most one row.
  */
  lemma CreateOrGetIdempotent(users: map<int, User>, nextId: int, data: UserCreate, data2: UserCreate, d: UserDefaults)
    requires UniqueTelegramIds(users) && nextId !in users
    requires data2.telegramId == data.telegramId
    ensures var (users1, next1, u1) := CreateOrGet(users, nextId, data, d);
      && UniqueTelegramIds(users1)
      && |users1| <= |users| + 1
      && u1.telegramId == data.telegramId
      && CreateOrGet(users1, next1, data2, d) == (users1, next1, u1)
  {
    var (users1, next1, u1) := CreateOrGet(users, nextId, data, d);
    if FindByTelegram(users, data.telegramId).None? {
      InsertKeepsUnique(users, nextId, NewUser(nextId, data, d));
    }
  }

  /** The inventory rows of one user, in table order. */
  function ItemsOf(items: seq<InventoryItem>, userId: int): (r: seq<InventoryItem>)
    ensures forall k :: 0 <= k < |r| ==> r[k].userId == userId && r[k] in items
    ensures forall it :: it in items && it.userId == userId ==> it in r
  {
    if items == [] then []
    else (if items[0].userId == userId then [items[0]] else []) + ItemsOf(items[1..], userId)
  }

  /** The users table and the inventory table. */
  class UserTable {
    var users: map<int, User>
    var nextId: int
    const inventory: seq<InventoryItem>
    const defaults: UserDefaults

    /**
      Each row sits under its own id, below the next free id, at level 1 or
      above; Telegram ids are unique; new rows start at level 1 or above.
    */
    ghost predicate Valid()
      reads this
    {
      && (forall id :: id in users ==> users[id].id == id && id < nextId && users[id].level >= 1)
      && UniqueTelegramIds(users)
      && defaults.level >= 1
    }

    constructor (defaults: UserDefaults, inventory: seq<InventoryItem>)
      requires defaults.level >= 1
      ensures Valid() && users == map[] && nextId == 1
      ensures this.defaults == defaults && this.inventory == inventory
    {
      users := map[];
      nextId := 1;
      this.defaults := defaults;
      this.inventory := inventory;
    }

    /** `get_user`: the row with that id, or 404. */
    function GetUser(userId: int): (r: Result<User, HttpError>)
      reads this
      requires Valid()
      ensures r.Failure? <==> userId !in users
      ensures r.Success? ==> r.value == users[userId] && r.value.id == userId
    {
      if userId in users then Success(users[userId]) else Failure(NotFound)
    }

    /** `get_user_by_telegram`: the row with that Telegram id, or 404. */
    function GetUserByTelegram(telegramId: int): (r: Result<User, HttpError>)
      reads this
      requires Valid()
      ensures r.Failure? <==> forall id :: id in users ==> users[id].telegramId != telegramId
      ensures r.Success? ==> r.value in users.Values && r.value.telegramId == telegramId
    {
      match FindByTelegram(users, telegramId)
      case None => Failure(NotFound)
      case Some(id) => Success(users[id])
    }

    /** `get_user_inventory`: the user's inventory rows, or 404 for an unknown user. */
    function GetUserInventory(userId: int): (r: Result<seq<InventoryItem>, HttpError>)
      reads this
      ensures r.Failure? <==> userId !in users
      ensures r.Success? ==> forall it :: it in r.value <==> it in inventory && it.userId == userId
    {
      if userId in users then Success(ItemsOf(inventory, userId)) else Failure(NotFound)
    }

    /**
      `create_or_get_user`: returns the row with the request's Telegram id when
      there is one, inserting nothing; otherwise inserts a new row under the next id.
    */
    method CreateOrGetUser(data: UserCreate) returns (u: User)
      requires Valid()
      modifies this`users, this`nextId
      ensures Valid()
      ensures (users, nextId, u) == CreateOrGet(old(users), old(nextId), data, defaults)
      ensures u.telegramId == data.telegramId && users[u.id] == u
      ensures old(FindByTelegram(users, data.telegramId)).Some? ==> users == old(users) && nextId == old(nextId)
      ensures old(FindByTelegram(users, data.telegramId)).None? ==>
        u == NewUser(old(nextId), data, defaults) && users == old(users)[u.id := u]
    {
      var found := FindByTelegram(users, data.telegramId);
      if found.Some? {
        u := users[found.value];
        return;
      }
      u := NewUser(nextId, data, defaults);
      InsertKeepsUnique(users, nextId, u);
      users := users[nextId := u];
      nextId := nextId + 1;
    }

    /** `add_coins`: adds `amount` to the user's coins and returns the stored value, or 404. */
    method AddCoins(userId: int, amount: int) returns (r: Result<int, HttpError>)
      requires Valid()
      modifies this`users
      ensures Valid()
      ensures r.Failure? <==> userId !in old(users)
      ensures r.Failure? ==> users == old(users)
      ensures r.Success? ==>
        && users == old(users)[userId := old(users)[userId].(coins := old(users)[userId].coins + amount)]
        && r.value == users[userId].coins
    {
      if userId !in users {
        return Failure(NotFound);
      }
      var u := users[userId];
      users := users[userId := u.(coins := u.coins + amount)];
      r := Success(users[userId].coins);
      assert UniqueTelegramIds(users) by {
        forall a, b | a in users && b in users && users[a].telegramId == users[b].telegramId ensures a == b {
          assert old(users)[a].telegramId == users[a].telegramId;
          assert old(users)[b].telegramId == users[b].telegramId;
        }
      }
    }

    /**
      `add_experience`: adds `amount` to the user's experience, runs the
      level-up loop, and returns the new level and experience, or 404.
    */
    method AddExperience(userId: int, amount: int) returns (r: Result<(int, int), HttpError>)
      requires Valid()
      modifies this`users
      ensures Valid()
      ensures r.Failure? <==> userId !in old(users)
      ensures r.Failure? ==> users == old(users)
      ensures r.Success? ==>
        var u := old(users)[userId];
        && r.value == LevelUpSpec(u.level, u.experience + amount)
        && users == old(users)[userId := u.(level := r.value.0, experience := r.value.1)]
        && r.value.0 >= u.level && r.value.1 < r.value.0 * 100
    {
      if userId !in users {
        return Failure(NotFound);
      }
      var u := users[userId];
      var level, experience := LevelUp(u.level, u.experience + amount);
      users := users[userId := u.(level := level, experience := experience)];
      r := Success((level, experience));
      assert UniqueTelegramIds(users) by {
        forall a, b | a in users && b in users && users[a].telegramId == users[b].telegramId ensures a == b {
          assert old(users)[a].telegramId == users[a].telegramId;
          assert old(users)[b].telegramId == users[b].telegramId;
        }
      }
    }
  }
}
