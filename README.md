# DAO.Casino platform contracts: registry, casino ledger, events, test helpers

A Dafny model of an early version of three EOSIO smart contracts and of the pure helpers
of their test suite:

- **platform** (`Platform`, `platform.dfy`): the registry. Two keyed tables, `casino` and
  `game`. Each row has an auto-assigned id, a `paused` flag, a contract account and meta
  bytes; game rows also carry `params_cnt`. Ten actions add, delete, pause, re-point and
  re-describe rows. Each needs the platform account's own authority, and each except the
  adds fails with "casino not found" / "game not found" on a missing id. The read
  predicates `is_active_casino` and `is_active_game` hold of a row that exists and is not
  paused. The class `Platform.Platform` holds the two tables as maps, and each action is
  a method that states its whole new state. A failing action changes neither table, and
  an action on one table never touches the other.
- **casino** (`Casino`, `casino.dfy`): the casino's own `game` table, its `owner` and
  `version` singletons, and a per-game signed balance ledger. The class `Casino.Casino`
  holds the tables. `add_balance` and `sub_balance` create a game's row on first use and
  never clamp. A missing row reads as zero. The pure functions `Credited`/`Debited`
  specify the two helpers. `add_game` needs the id to be verified by the platform;
  `remove_game` needs the row to exist.
- **events** (`Events`, `events.dfy`): `send` makes four checks against the platform's
  tables, in this order: authority of `sender`, game active, casino active, and
  `sender` is the game's contract. The first failing check decides the error. `send`
  writes nothing, so it is a function of the tables it reads.
- **test helpers** (`CasinoTest`, `casino_test.dfy`): `get_token_pk` packs an upper-case
  token name into a 64-bit key, first character in the lowest byte. It is a method with
  the source's reverse loop, proved equal to the function `SymbolCode`; round-trip,
  byte-position and truncation lemmas are proved about that function. The three lookups
  `get_asset_from_map` (last match, else 0), `get_time_from_map` (first match, else
  throw) and `get_game_params` (first match, copied pair by pair) are loops too.

`Types` (`types.dfy`) holds the fixed-width integers, account names (`Name`, a 64-bit
value), opaque byte payloads and the `Outcome`/`Result` wrappers that carry the
contracts' `check` failures and the helpers' exceptions.

Modelling choices:

- `require_auth(x)` is a `caller` parameter, and the action fails with
  `MissingAuthority(x)` unless `caller == x`. Keys and permissions are not modelled.
- A contract object is rebuilt, over the persisted tables, for every action. The Dafny
  constructors therefore take the tables as arguments. They also rewrite the singletons
  as the C++ constructors do: the version everywhere, and the casino's owner, which is
  reset to the contract's own account every time.
- `available_primary_key` gives 0 for an empty table and one past the largest key
  otherwise (`Platform.NextId`). eosio's `multi_index` refuses to hand out a key at or
  above 2^64 - 2 ("next primary key in table is at autoincrement limit"), so the adds
  fail with `AutoIncrementLimit` there. An `emplace` under a key that is already present
  aborts; in `Casino.Casino.AddGame` this is the `DuplicateKey` error.
- `verified_games` (contracts/casino/src/casino.cpp:8) is not defined in the files
  modelled. It is the parameter `verified: set<u64>`. `platform::read::get_game`
  (contracts/events/src/events.cpp:19) is not defined either. It is the lookup
  `games[gameId]`, which is total once the game-active check has passed.
- Table reads of another contract (`casino_table casinos(platform_contract, ...)`) and the
  tests' `get_row_by_account` become the tables passed in as values. A `gameparams` row
  that may be absent is an `Option`. The fc::variant lists are `seq<Entry<V>>`.
- `Platform.Platform.Valid()` is a plain data invariant: every row is filed under its own
  `id`. The constructor requires it of the persisted tables and every action keeps it; the
  adds also state it of the new row.
- Ids are reused: `available_primary_key` looks only at the rows present and offers one
  past the largest id that remains. After the row with the largest id is deleted, the next
  add gets an id no larger than the deleted one (`Platform.DeletedLargestIdIsReused`). It
  gets exactly the deleted id when the id just below it is still present, which
  `Platform.DeletedIdReused` replays. A deleted id can therefore be handed out again. The
  casino contract keys its own game table by platform game ids, so an entry it kept for a
  deleted game then refers to the new game with the same id.
- `add_game` and `remove_game` of the casino (contracts/casino/src/casino.cpp:7-20) call no
  `require_auth`, so any account may add a verified game or remove any game. The model
  follows the code: these methods take no caller. The test suite, written against a later
  revision, expects "missing authority of" the casino account from both actions
  (tests/casino_test.cpp:377-398); the code modelled here has no such check.
- Asset amounts are unbounded integers and time points are integers (microseconds).
- The client method `Events.SendScenarios` replays the cases of the events tests
  (tests/events_test.cpp:44-267): a successful send, the wrong sender, missing authority,
  a missing and a paused game, a missing and a paused casino, and the stored version. The "first ids are 0" premise of the tests
  (tests/events_test.cpp:64-70, tests/casino_test.cpp:429-433) is replayed in
  `Platform.FirstIdsAreZero`.

## Model

| member | source | states |
|---|---|---|
| Platform.NextId | contracts/platform/src/platform.cpp:9 | the auto-assigned id exceeds every id in the table, so it is fresh. It is 0 for an empty table and otherwise one past the largest id |
| Platform.MaxKeyExists | contracts/platform/src/platform.cpp:9 | a non-empty table has a largest id, which `available_primary_key` steps past |
| Platform.NextIdAfterInsert | contracts/platform/src/platform.cpp:8-13 | after a row is added under the offered id, the next offered id is one larger, so ids are consecutive from 0 while no row is deleted |
| Platform.DeletedLargestIdIsReused | contracts/platform/src/platform.cpp:9 | after the row with the largest id is deleted, the next offered id is at most that id, so a deleted id can be handed out again |
| Platform.IsActiveCasino | contracts/platform/include/platform/platform.hpp:92-99 | false when no row has the id; equal to `!paused` for an existing row |
| Platform.IsActiveGame | contracts/platform/include/platform/platform.hpp:101-108 | false when no row has the id; equal to `!paused` for an existing row |
| Platform.Platform.constructor | contracts/platform/include/platform/platform.hpp:42-49 | the contract is built over the persisted tables, which are unchanged, and the version singleton is set |
| Platform.Platform.AddCasino | contracts/platform/src/platform.cpp:5-14 | fails without self authority, or at the id limit, with both tables unchanged. Otherwise it adds exactly one row under a fresh id, filed under its own id: enabled, with the given contract and meta, and active. The game table is unchanged |
| Platform.Platform.DelCasino | contracts/platform/src/platform.cpp:16-21 | fails without self authority, or with "casino not found" on a missing id, and changes nothing. Otherwise it removes exactly that row, and the casino is no longer active. The game table is unchanged |
| Platform.Platform.PauseCasino | contracts/platform/src/platform.cpp:23-30 | fails as above. Otherwise it changes only the row's `paused` field, and the casino is active iff not paused. The game table is unchanged |
| Platform.Platform.SetContractCasino | contracts/platform/src/platform.cpp:32-39 | fails as above. Otherwise it changes only the row's `contract` field. The game table is unchanged |
| Platform.Platform.SetMetaCasino | contracts/platform/src/platform.cpp:41-48 | fails as above. Otherwise it changes only the row's `meta` field. The game table is unchanged |
| Platform.Platform.AddGame | contracts/platform/src/platform.cpp:51-61 | as AddCasino, for the game table; the new row also carries `params_cnt`. The casino table is unchanged |
| Platform.Platform.DelGame | contracts/platform/src/platform.cpp:63-68 | as DelCasino with "game not found"; afterwards the game is not active. The casino table is unchanged |
| Platform.Platform.PauseGame | contracts/platform/src/platform.cpp:70-77 | changes only `paused`. After `pause_game(id, true)` the game is inactive; after `pause_game(id, false)` it is active. The casino table is unchanged |
| Platform.Platform.SetContractGame | contracts/platform/src/platform.cpp:79-86 | changes only the row's `contract` field, or fails and changes nothing. The casino table is unchanged |
| Platform.Platform.SetMetaGame | contracts/platform/src/platform.cpp:88-95 | changes only the row's `meta` field, or fails and changes nothing. The casino table is unchanged |
| Casino.Casino.constructor | contracts/casino/include/casino/casino.hpp:48-56 | on every construction the owner singleton holds the contract's own account (`get_owner` returns it), and the version is set. The game and balance tables are unchanged |
| Casino.Casino.GetOwner | contracts/casino/include/casino/casino.hpp:73-75 | returns the account stored in the owner singleton |
| Casino.Casino.GetBalance | contracts/casino/include/casino/casino.hpp:107-111 | zero for a game without a balance row, the stored quantity otherwise |
| Casino.Casino.IsActiveGame | contracts/casino/include/casino/casino.hpp:113-116 | holds exactly when the id is in the casino's game table |
| Casino.BalanceOf | contracts/casino/include/casino/casino.hpp:107-111 | `get_balance` is zero for a game without a row and the stored quantity otherwise |
| Casino.Credited | contracts/casino/include/casino/casino.hpp:77-90 | after `add_balance` the game's row exists and holds its old balance plus the amount (the amount itself when there was no row). Every other row is unchanged |
| Casino.Debited | contracts/casino/include/casino/casino.hpp:92-105 | after `sub_balance` the game's row exists and holds its old balance minus the amount. When there was no row it holds `-quantity`, never clamped. Every other row is unchanged |
| Casino.Casino.AddBalance | contracts/casino/include/casino/casino.hpp:77-90 | the balance table becomes `Credited` of the old one |
| Casino.Casino.SubBalance | contracts/casino/include/casino/casino.hpp:92-105 | the balance table becomes `Debited` of the old one |
| Casino.BalanceIsSumOfDeltas | contracts/casino/include/casino/casino.hpp:77-111 | after any sequence of add/sub calls, a game's balance equals its starting balance plus the algebraic sum of the amounts applied to that game |
| Casino.AddThenSubRestoresBalance | contracts/casino/include/casino/casino.hpp:77-105 | an add followed by a sub of the same amount restores every game's balance; the table keeps a zero row for a game that had none |
| Casino.Casino.AddGame | contracts/casino/src/casino.cpp:7-14 | fails with "the game was not verified by the platform" for an id outside the verified set. It fails on an id already present (the unique primary key). Both failures leave the table unchanged. Otherwise it inserts exactly that id with those params, which lookup then returns, and the game is active |
| Casino.Casino.RemoveGame | contracts/casino/src/casino.cpp:16-20 | fails on a missing id and changes nothing. Otherwise it erases exactly that row; either way the game is afterwards not active |
| Casino.AddThenRemoveGame | contracts/casino/src/casino.cpp:7-20 | the add succeeds exactly when the id is verified and not yet in the table, a successful `add_game` followed by `remove_game` of the same id leaves the game table as it was, and only the game table can change |
| Casino.MessageAsWritten | contracts/casino/src/casino.cpp:18 | the messages as the code spells them, "the games was not added" for a missing game |
| Casino.Message | contracts/casino/src/casino.cpp:9-18 | the messages with the missing-game text the test expects, "the game was not added" |
| Casino.RemoveGameMessageMismatch | tests/casino_test.cpp:340-348 | the code's missing-game message differs from the test's expected one; the corrected one matches it |
| Events.Events.constructor | contracts/events/src/events.cpp:7-12 | the version singleton is set |
| Events.Send | contracts/events/src/events.cpp:14-21 | succeeds iff `sender` authorised the call, the game is active, the casino is active and the game's contract is `sender`. It fails with missing authority first, then "game isn't active", then "casino isn't active" (checked only after the game passes), then "incorrect sender". Being a function, it never modifies the registry |
| Events.FirstFailure | contracts/events/src/events.cpp:15-20 | a chain of checks passes iff every check holds; otherwise its error is the one of the first check that fails |
| Events.SendIsFirstFailingCheck | contracts/events/src/events.cpp:15-20 | `send`'s outcome is the first failing check of the chain authority, game, casino, sender |
| Events.SendIgnoresPayload | contracts/events/src/events.cpp:14-21 | the outcome does not depend on `req_id`, `event_type` or `data` |
| CasinoTest.SymbolCode | tests/casino_test.cpp:12-23 | throws iff some character is outside 'A'..'Z'; otherwise the value is the characters packed as bytes, first character lowest, truncated to 64 bits |
| CasinoTest.ShiftInByte | tests/casino_test.cpp:19-20 | `value <<= 8; value \|= c` on a 64-bit accumulator is (256 * value + c) mod 2^64 |
| CasinoTest.GetTokenPk | tests/casino_test.cpp:12-23 | the reverse loop returns exactly `SymbolCode` of its input, including the throw |
| CasinoTest.EmptyNameIsZero | tests/casino_test.cpp:14 | the empty name encodes to 0 |
| CasinoTest.ShortNameFits | tests/casino_test.cpp:15-21 | a name of at most 8 upper-case letters encodes without truncation |
| CasinoTest.SymbolCodeByte | tests/casino_test.cpp:15-21 | for names of at most 8 letters, character i sits in bits 8i..8i+7 of the code |
| CasinoTest.SymbolCodeRoundTrip | tests/casino_test.cpp:12-23 | reading bytes from the low end until a zero byte recovers a name of at most 8 upper-case letters |
| CasinoTest.SymbolCodeInjective | tests/casino_test.cpp:12-23 | two names of at most 8 upper-case letters with the same code are equal |
| CasinoTest.LongNameTruncated | tests/casino_test.cpp:19-21 | a longer name encodes as its first 8 characters: the bytes shifted out of the 64-bit value are lost |
| CasinoTest.MatchesExist | tests/casino_test.cpp:166-183 | a list that contains the key has a first and a last entry with it, so the lookups' contracts determine their results |
| CasinoTest.AssetFromMap | tests/casino_test.cpp:166-174 | the amount is the value of the last entry whose key matches, and 0 when none matches; the symbol is the one asked for |
| CasinoTest.TimeFromMap | tests/casino_test.cpp:176-183 | returns the value of the first matching entry; throws "symbol not found" iff no entry matches |
| CasinoTest.GetGameParams | tests/casino_test.cpp:185-202 | with no row, returns empty without encoding the token. Otherwise it throws iff the token does not encode, and returns a copy of the pair list of the first entry whose key is the token's code, or empty when there is none |
| CasinoTest.GetGameParamsDefault | tests/casino_test.cpp:185 | with the default token "BET" the lookup never throws; it returns the "BET" parameters of the first matching entry, or empty |

## Findings

| source | as written | input that shows it | evidently intended | confidence | as-written member | corrected member |
|---|---|---|---|---|---|---|
| contracts/casino/src/casino.cpp:18 | `remove_game` of a missing id fails with "the games was not added" | `rmgame` with `game_id` 0 on an empty game table, as in tests/casino_test.cpp:340-348, which expects "the game was not added" | the message "the game was not added" | not executed; the strings differ in length (23 vs 22 characters) | Casino.MessageAsWritten | Casino.Message |

## Left out

- The larger ledger the test suite exercises has no implementation in the files modelled.
  This covers sessions, the two-tier withdraw with its weekly cooldown, `claimprofit`, the
  bonus pool, player statistics, the token registry and no-bonus games. They are not
  modelled because there is no code to follow.
- `set_owner`, `on_transfer` and `on_loss` (contracts/casino/include/casino/casino.hpp:62-67)
  are declared without a body in the files modelled, so they are left out.
- The test suite's chain plumbing is host I/O and not modelled: accounts, block
  production, ABI (de)serialisation, `push_action_custom_auth`, `get_row_by_account`,
  `transfer` and `allow_token`. tests/platform_test.cpp holds only a smoke test.
- eosio permissions and keys: authority is reduced to the single `caller` account.
- eosio `asset` internals: the symbol match and the magnitude limit (2^62 - 1) that
  `+=` and `-=` check are not modelled. Amounts are unbounded integers.
- The payer/RAM arguments and iterator mechanics of `multi_index` are not modelled.
- Version strings, meta bytes and game parameters are opaque values. The
  `CONTRACT_VERSION` headers are not part of this model, so the version is a parameter.
- The `int` narrowing of `amount` in `get_asset_from_map` (tests/casino_test.cpp:167) is a
  compile-level detail and is not modelled.
- The events contract's constructor is written twice, in
  contracts/events/include/events/events.hpp and in contracts/events/src/events.cpp.
  Only one behaviour is modelled.
