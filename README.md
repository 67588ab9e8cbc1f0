# Bingo backend core, modelled in Dafny

This project models the core of a Telegram bingo backend. It covers five parts:

- **The game round** (`Game` module, `game.dfy`). This is the Mongoose `Game` document, modelled as the class `Round`. A round has a lifecycle status, a roster of players with their stakes, a pot, and a history of called numbers (1 to 75, under the letters B I N G O). A winner's settlement ends the round.
  - The class invariant `Round.Valid` holds five facts: the pot is the sum of the stakes; no user holds two roster entries; the roster never holds more than `maxPlayers` entries (an empty roster aside); the call history is well formed (numbers in range, the right letter, no number twice); and the current number is the last call.
  - Every method that changes the round preserves `Valid`.
  - A pigeonhole argument shows that a well-formed history never exceeds 75 calls. The same argument shows that an uncalled number exists while fewer than 75 have been called, so the draw in `callNumber` always has a number to find. The source's retry loop over `Math.random` ends only with probability 1; the model makes one choice among the uncalled numbers, and the number of draws is not modelled.
- **The balance ledger** (`Ledger` module, `ledger.dfy`). `createTransaction` credits or debits a user's balance and returns the audit record. `getUserTransactions` pages a user's history, newest first, with MongoDB's `skip`/`limit` meaning.
- **User progression** (`Progression` module, `progression.dfy`). These are the user routes:
  - lookup by id or Telegram id, returning 404 for an unknown user;
  - lookup-or-insert of a user by Telegram id;
  - coin credits;
  - experience with the level-up loop. Each level `l` costs `100 * l` experience, and the loop is proved to conserve experience.
- **The production database URL** (`Production` module, `production.dfy`). Heroku's `postgres://` scheme is rewritten to `postgresql://`. A missing or empty URL raises a `ValueError`.
- **The migration runner** (`Migrations` module, `migrations.dfy`). This is a registry of named migrations. A run executes the pending ones in registration order and records each success. It stops at the first failure and keeps the records made before it. A successful run followed by a rerun (in a new process) executes nothing.

How the environment of the source appears in the model:

- **Clock.** Every `new Date()` / `Date.now()` becomes a parameter `now` of integer milliseconds.
- **`Math.random`.** The draw in `callNumber` becomes a free choice among the uncalled numbers.
- **Databases.** A database table or collection becomes a value:
  - a `map` from id to row for the users table;
  - a balance map for the users the ledger debits;
  - a sequence of names for the `migrations` collection;
  - a history sequence, oldest first, for the transactions.
- **External behaviour as parameters.**
  - A migration's `run` function is the oracle `succeeds`.
  - The `DATABASE_URL` environment variable is an `Option<string>`.
  - Mongoose's `isModified('status')` is a boolean parameter of `PreSave`.
  - The generated transaction id is a parameter.

## Model

| member | source | states |
|---|---|---|
| Game.Letter | src/models/Game.js:214-215 | numbers 1-15 get `B`, 16-30 `I`, 31-45 `N`, 46-60 `G`, 61-75 `O`, each in both directions |
| Game.ClaimWin | src/models/Game.js:235-239 | an accepted claim marks the entry as having claimed bingo, with the pattern, the card, the winnings and the time; it keeps the user, the stake, the cards and the join time |
| Game.ElapsedSeconds | src/models/Game.js:245 | with a start date, the duration is the whole seconds elapsed, rounded down (`secs*1000 <= elapsed < (secs+1)*1000`); without a start date it is NaN |
| Game.SumBetsAppend | src/models/Game.js:176-181 | pushing a player adds exactly that player's stake to the sum of stakes |
| Game.SumBetsRemove | src/models/Game.js:196-197 | splicing out entry `i` removes exactly that entry's stake from the sum of stakes |
| Game.SumBetsUpdate | src/models/Game.js:235-239 | changing an entry's win fields, with its stake kept, leaves the sum of stakes unchanged |
| Game.RemoveAt | src/models/Game.js:197 | `splice(i, 1)` shortens the roster by one and keeps every other entry in its order |
| Game.FindUser | src/models/Game.js:187-189 | `findIndex`: absent iff no entry has the user; otherwise the first index whose entry has the user |
| Game.DistinctAfterAppend | src/models/Game.js:171-180 | pushing a user who is on no entry keeps users distinct on the roster |
| Game.DistinctAfterRemove | src/models/Game.js:197 | splicing an entry out keeps users distinct on the roster |
| Game.DistinctAfterUpdate | src/models/Game.js:230-239 | changing the found player's entry in place keeps users distinct on the roster |
| Game.Numbers | src/models/Game.js:208 | `calledNumbers.map(cn => cn.number)`: same length, entry by entry |
| Game.Pigeonhole | src/models/Game.js:207-212 | a duplicate-free list of numbers in `lo..hi-1` has at most `hi-lo` entries; while it is shorter, some number in range is missing |
| Game.CallsAtMost75 | src/models/Game.js:69-84 | a well-formed history (numbers 1-75, right letter, no repeats) has at most 75 calls |
| Game.UncalledExists | src/models/Game.js:203-212 | below 75 calls, some number in 1..75 is uncalled, so the draw always has a number to find (the retry loop itself ends only with probability 1, and its number of draws is not modelled) |
| Game.WellFormedAfterCall | src/models/Game.js:214-223 | appending an uncalled number in range, under its letter, keeps the history well formed |
| Game.NewPlayer | src/models/Game.js:175-179 | the pushed entry (with the schema defaults of lines 39-67) has the given user, cards and stake, joined now, no claim, no pattern or card, zero winnings and no win date |
| Game.Round.constructor | src/models/Game.js:15-124 | a new round is waiting, with no players, an empty pot, no calls and no settlement |
| Game.Round.PlayerCount | src/models/Game.js:144-146 | the `playerCount` virtual is the roster length, which in a valid round never exceeds `maxPlayers` (unless the roster is empty) |
| Game.Round.IsFull | src/models/Game.js:152-154 | not full iff the roster is shorter than `maxPlayers`; a full valid round holds exactly `maxPlayers` players, or none when it has no seats |
| Game.Round.CalledNumbersCount | src/models/Game.js:148-150 | the `calledNumbersCount` virtual is the history length and never above 75 |
| Game.Round.TimeUntilStart | src/models/Game.js:156-159 | never negative; 0 unless waiting; positive iff waiting before the scheduled start, and then exactly the time left |
| Game.Round.GetPlayer | src/models/Game.js:251-255 | absent iff no entry has the user; otherwise an entry of the roster with that user |
| Game.Round.AddPlayer | src/models/Game.js:162-184 | refusals in the source's order (already started, full, already in game) with nothing changed; otherwise the new entry is pushed, the pot grows by the stake and the new length is returned; keeps the invariant |
| Game.Round.RemovePlayer | src/models/Game.js:186-200 | unknown user refused with nothing changed; otherwise the entry is spliced out, its stake leaves the pot, the user is no longer on the roster and the new length is returned; the status is not consulted |
| Game.Round.CallNumber | src/models/Game.js:202-227 | at 75 calls returns null and changes nothing; otherwise the call has an uncalled number in 1..75, its letter and the time, is appended and becomes current; never more than 75 calls |
| Game.Round.MarkPlayerWin | src/models/Game.js:229-249 | unknown user refused with nothing changed; otherwise the winner's entry is updated in place, the round is ended with winner, pattern, end date, duration and end reason `Bingo by player <id>`, and the pot is kept |
| Game.Round.EndWithWinner | src/models/Game.js:241-246 | the round's winner, pattern, `ended` status, end date, duration and end reason |
| Game.Round.PreSave | src/models/Game.js:294-306 | when the status was modified: the start date is set on entering `playing`, and end date and duration on entering `ended`, each only if unset; otherwise nothing changes |
| Ledger.TypesClassified | src/models/Transaction.js:15-19 | a type is one the schema admits iff it is a credit or a debit type, and no type is both |
| Ledger.Settle | src/models/Transaction.js:65-78 | credits add the amount; debits subtract it and fail with insufficient balance exactly when the balance is below the amount; other types leave the balance |
| Ledger.CreateTransaction | src/models/Transaction.js:57-97 | unknown user and insufficient balance change nothing; otherwise the balance is stored and the record carries the balance before and after, the amount and `completed`; a type outside the enum stores nothing and is refused |
| Ledger.RecordBalanced | src/models/Transaction.js:65-93 | every record satisfies `balanceAfter - balanceBefore = +amount` for credits and `-amount` for debits, and a debit never leaves a negative balance |
| Ledger.NewestFirst | src/models/Transaction.js:102-103 | only the user's records, all drawn from the history |
| Ledger.NewestFirstOrder | src/models/Transaction.js:102-103 | the newest-first listing is exactly the reverse of the user's records in creation order, so each appears once per occurrence and the newest comes first |
| Ledger.NewestFirstComplete | src/models/Transaction.js:102-103 | every record of the user appears in the newest-first listing |
| Ledger.GetUserTransactions | src/models/Transaction.js:99-107 | refused iff the skip `(page-1)*limit` is negative; otherwise the size is `min(limit or all, what is left after skipping)` and entry `k` is listing entry `skip+k` |
| Ledger.PageOfEntry | src/models/Transaction.js:99-105 | with a positive limit, the `j`-th newest record is entry `j mod limit` of page `j div limit + 1` |
| Progression.LevelUpProperties | app/routes/user.py:125-130 | the level never drops; the remainder is below the next threshold; experience spent equals the thresholds of the levels climbed; the level rises iff the experience reaches the first threshold |
| Progression.LevelUpMonotone | app/routes/user.py:125-130 | more experience never yields a lower level |
| Progression.LevelUp | app/routes/user.py:126-130 | the loop ends at the level-up rule's result, with a remainder below the new threshold and experience conserved |
| Progression.FindByTelegram | app/routes/user.py:54 | absent iff no row has that Telegram id; otherwise a row with it |
| Progression.NewUser | app/routes/user.py:60-69 | the inserted row has the given id, the Telegram id and names of the request, and every other column from the column defaults |
| Progression.InsertKeepsUnique | app/routes/user.py:60-69 | inserting a user with a new Telegram id keeps Telegram ids unique, and the lookup then finds the new row |
| Progression.CreateOrGetIdempotent | app/routes/user.py:49-72 | the first call inserts at most one row and returns a user with the request's Telegram id; a second call with that id returns the same user and inserts nothing |
| Progression.ItemsOf | app/routes/user.py:102 | exactly the inventory rows of the user |
| Progression.UserTable.GetUser | app/routes/user.py:79-85 | 404 iff the id is unknown; otherwise that row |
| Progression.UserTable.GetUserByTelegram | app/routes/user.py:87-93 | 404 iff no row has the Telegram id; otherwise a row with it |
| Progression.UserTable.GetUserInventory | app/routes/user.py:95-102 | 404 iff the id is unknown; otherwise exactly the user's inventory rows |
| Progression.UserTable.CreateOrGetUser | app/routes/user.py:49-72 | an existing Telegram id returns its row and changes nothing; otherwise a new row with the default columns goes in under the next id; Telegram ids stay unique |
| Progression.UserTable.AddCoins | app/routes/user.py:104-114 | 404 changes nothing; otherwise only that user's coins grow by the amount, and the new balance is returned |
| Progression.UserTable.AddExperience | app/routes/user.py:116-134 | 404 changes nothing; otherwise only that user's level and experience change, to the level-up result, and both are returned |
| Production.ReplaceFirst | app/core/production.py:11 | `replace(target, replacement, 1)`: a leading occurrence gives `replacement` then the rest; no occurrence leaves the string unchanged; one occurrence changes the length by the difference of the two lengths |
| Production.GetProductionDbUrl | app/core/production.py:5-13 | unset iff unset; `postgres://` becomes `postgresql://` with the rest kept; any other URL is unchanged; the result never starts with `postgres://` |
| Production.RewriteIdempotent | app/core/production.py:10-11 | rewriting a rewritten URL changes nothing |
| Production.CreateProductionEngine | app/core/production.py:15-21 | fails with the `ValueError` message iff the URL is unset or empty; otherwise the engine gets the rewritten URL, pre-ping and a 300-second recycle |
| Migrations.NamesOf | src/database/migrations/runMigrations.js:51-52 | the set of executed names has the same members as the records |
| Migrations.PendingNames | src/database/migrations/runMigrations.js:57-58 | contains no executed name, and every registered name not yet executed |
| Migrations.RunSpecPending | src/database/migrations/runMigrations.js:54-76 | a run never records an executed name; on success it records exactly the pending names in order, all of them having succeeded; on failure it stops at the first failing pending migration, having recorded exactly the pending ones before it |
| Migrations.RerunDoesNothing | src/database/migrations/runMigrations.js:51-66 | after a successful run, a second run with its records executes nothing |
| Migrations.MigrationManager.constructor | src/database/migrations/runMigrations.js:6-9 | an empty registry over the `migrations` collection |
| Migrations.MigrationManager.RegisterMigration | src/database/migrations/runMigrations.js:29-31 | appends the migration to the registry |
| Migrations.MigrationManager.RegisterAll | src/database/migrations/runMigrations.js:116-127 | the registry gains the files in their order |
| Migrations.MigrationManager.RunMigrations | src/database/migrations/runMigrations.js:33-83 | the collection gains exactly what the run records; success returns the number executed, which is the number of records added; a failure rethrows the failing migration |
| Migrations.MigrationManager.ListMigrations | src/database/migrations/runMigrations.js:85-109 | one status per registered migration, in order, `Executed` iff a record of its name exists |

## Left out

- I/O, logging, MongoDB/SQLAlchemy sessions, `connect`/`disconnect`, commits and rollbacks are left out. The listing's execution dates are not modelled: `listMigrations` is modelled by the statuses it logs.
- Concurrency: every operation is atomic. Two requests racing on the same user or round are not modelled.
- The routes' `500 Failed to create user` path is not modelled: it only catches database exceptions, which are outside the model.
- Game statics (`findActiveGames`, `findByGameId`, `getGameStats`), `populate`, `type`, `gameSettings`, `isPublic` and `roomCode` are query or configuration plumbing and are not modelled. `getTotalDeposits` is not modelled either.
- `Transaction.metadata`, the `game` reference and `createdAt` are not modelled. The history is a sequence in creation order, so "sorted by `createdAt` descending" is that order reversed. This assumes no two records share a timestamp; MongoDB leaves the order of records with equal `createdAt` unspecified, and the model fixes it as the reverse of creation order.
- Ledger.CreateTransaction: the generated `tx_<time>_<random>` id is a parameter, and its uniqueness is not modelled.
- Ledger.GetUserTransactions: the defaults `limit = 50, page = 1` are left to the caller. A negative limit is modelled as its absolute value, which MongoDB's `limit` does. MongoDB's single-batch behaviour for a negative limit is not modelled.
- Progression: experience is a whole number, whereas `add_experience` takes a float. It is modelled as an integer, so fractional experience is not modelled.
- Progression.LevelUp: requires `level >= 1`, which the users table keeps as its invariant. The User model's own constraints (app/models/user.py) are not part of this model, and its column defaults are a constructor parameter.
- Progression.FindByTelegram: `.first()` picks the only matching row because the table keeps Telegram ids unique. The database constraint behind that is not part of this model.
- Game.Round.CallNumber: the `do … while` retry over `Math.random` is modelled as one choice of an uncalled number. The distribution of the draw is not modelled.
- Game.Round.AddPlayer, Game.Round.RemovePlayer: stakes and the pot are whole numbers. The source stores them as JavaScript `Number`s (doubles), whose rounding is not modelled; with fractional stakes (0.1 + 0.2 + 0.3) or values above 2^53 the pot can drift from the sum of the stakes, which the model's invariant rules out.
- Ledger.CreateTransaction: amounts and balances are whole numbers; the source's doubles and their rounding are not modelled.
- Production.CreateProductionEngine: `create_engine`'s own errors (an unparseable URL, a missing database driver) are not modelled; every non-empty URL yields the engine settings.
- Game.Round.MarkPlayerWin: on a round that never reached `playing`, the duration is modelled as the stored value `NotANumber`. Mongoose refuses to cast `NaN` into a `Number` path, so in the source the document is invalid and the next `save()` fails; that rejection is not modelled.
- Game.Round.MarkPlayerWin: the player's and the round's `new Date()` are the same `now`. The pattern is any string; the schema's enum of patterns is not enforced.
- Game.Round.PreSave: Mongoose's change tracking is the boolean `statusModified`.
- Game.Round.AddPlayer: the `isFull` check is done on the roster length, exactly as the virtual does. `betAmount` and `minPlayers` are stored but no operation of the core reads them.
- Migrations.MigrationManager.RunMigrations: the source resolves to `undefined`; the count returned is the `executedCount` it logs. Creating the collection when it is missing is not modelled, since the records are the collection's contents either way.
- Migrations.RerunDoesNothing: holds for a rerun in a new process. `runMigrations` and `listMigrations` define the `Migration` model with `mongoose.model(...)` on every call, so a second call in the same process fails with an overwrite error before running anything; that error is not modelled.
- Bingo cards, win-pattern detection, sockets and the other routes are not part of this model.
