/** The platform registry contract: two keyed tables, casinos and games, maintained by
    actions that only the platform account itself may authorise, and the read-only
    predicates other contracts use to ask whether a casino or a game is active. */
module Platform {
  import opened Types

  /** A row of the `casino` table. */
  datatype CasinoRow = CasinoRow(id: u64, contract: Name, paused: bool, meta: Bytes)

  /** A row of the `game` table. */
  datatype GameRow = GameRow(id: u64, contract: Name, paramsCnt: u16, paused: bool, meta: Bytes)

  /** The tables, keyed by the rows' primary key `id`. */
  type CasinoTable = map<u64, CasinoRow>
  type GameTable = map<u64, GameRow>

  datatype Error =
    | MissingAuthority(account: Name)  // require_auth failed: "missing authority of <account>"
    | CasinoNotFound                   // "casino not found"
    | GameNotFound                     // "game not found"
    | AutoIncrementLimit               // "next primary key in table is at autoincrement limit"

  /** eosio's multi_index reserves the two largest 64-bit keys; `available_primary_key`
      refuses to hand out a key at or above this one. */
  const NO_AVAILABLE_PRIMARY_KEY: int := 0xFFFF_FFFF_FFFF_FFFE

  /** Every row is stored under its own primary key. */
  ghost predicate CasinoKeysMatch(casinos: CasinoTable) {
    forall id :: id in casinos ==> casinos[id].id == id
  }

  ghost predicate GameKeysMatch(games: GameTable) {
    forall id :: id in games ==> games[id].id == id
  }

  /** A non-empty set of keys has a largest element. */
  lemma {:induction false} MaxKeyExists(keys: set<u64>)
    requires keys != {}
    ensures exists m :: m in keys && forall k :: k in keys ==> k <= m
  {
    var x :| x in keys;
    if keys != {x} {
      var rest := keys - {x};
      assert keys == rest + {x};
      MaxKeyExists(rest);
      var m :| m in rest && forall k :: k in rest ==> k <= m;
      if x <= m {
        assert forall k :: k in keys ==> k <= m;
      } else {
        assert forall k :: k in keys ==> k <= x;
      }
    } else {
      assert forall k :: k in keys ==> k <= x;
    }
  }

  /** The largest primary key of a non-empty table (the last row of the table in key order). */
  function MaxKey(keys: set<u64>): (m: u64)
    requires keys != {}
    ensures m in keys
    ensures forall k :: k in keys ==> k <= m
  {
    MaxKeyExists(keys);
    var m :| m in keys && forall k :: k in keys ==> k <= m; m
  }

  /** The key `available_primary_key` offers next: 0 for an empty table, otherwise one past
      the largest key. It is larger than every key in use, so an auto-assigned id is fresh. */
  function NextId(keys: set<u64>): (n: nat)
    ensures forall k :: k in keys ==> k as int < n
    ensures keys == {} ==> n == 0
    ensures keys != {} ==> 0 < n <= U64_MODULUS && (n - 1) as u64 in keys
  {
    if keys == {} then 0 else MaxKey(keys) as int + 1
  }

  /** Ids are handed out consecutively: after a row is added under the offered id, the next
      offered id is one larger. */
  lemma NextIdAfterInsert(keys: set<u64>)
    requires NextId(keys) < U64_MODULUS
    ensures NextId(keys + {NextId(keys) as u64}) == NextId(keys) + 1
  {
  }

  /** Ids are not consecutive once a row is deleted: `available_primary_key` only looks at
      the rows present, so deleting the row with the largest id makes that id (or a smaller
      one) the next to be handed out again. */
  lemma DeletedLargestIdIsReused(keys: set<u64>)
    requires keys != {}
    ensures NextId(keys - {MaxKey(keys)}) <= MaxKey(keys) as int
  {
    var m := MaxKey(keys);
    var rest := keys - {m};
    if rest != {} {
      assert (NextId(rest) - 1) as u64 in keys;
    }
  }

  /** `read::is_active_casino`: the casino exists and is not paused. */
  function IsActiveCasino(casinos: CasinoTable, casinoId: u64): (active: bool)
    ensures casinoId !in casinos ==> !active
    ensures casinoId in casinos ==> active == !casinos[casinoId].paused
  {
    if casinoId !in casinos then false else !casinos[casinoId].paused
  }

  /** `read::is_active_game`: the game exists and is not paused. */
  function IsActiveGame(games: GameTable, gameId: u64): (active: bool)
    ensures gameId !in games ==> !active
    ensures gameId in games ==> active == !games[gameId].paused
  {
    if gameId !in games then false else !games[gameId].paused
  }

  /** The platform contract's persisted state. Every action first checks that it was
      authorised by the contract account itself (`require_auth(get_self())`); an action that
      fails changes neither table. */
  class Platform {
    const self: Name
    var version: string
    var casinos: CasinoTable
    var games: GameTable

    ghost predicate Valid()
      reads this
    {
      CasinoKeysMatch(casinos) && GameKeysMatch(games)
    }

    /** The contract object is built over the persisted tables for every action; its
        constructor (re)writes the version singleton. */
    constructor (self: Name, contractVersion: string, casinos: CasinoTable, games: GameTable)
      requires CasinoKeysMatch(casinos) && GameKeysMatch(games)
      ensures Valid()
      ensures this.self == self && version == contractVersion
      ensures this.casinos == casinos && this.games == games
    {
      this.self := self;
      version := contractVersion;
      this.casinos := casinos;
      this.games := games;
    }

    /** `addcas`: appends an enabled casino under the next free id. */
    method AddCasino(caller: Name, contract: Name, meta: Bytes) returns (r: Outcome<Error>)
      requires Valid()
      modifies this`casinos
      ensures Valid() && games == old(games)
      ensures caller != self ==> r == Fail(MissingAuthority(self)) && casinos == old(casinos)
      ensures caller == self && NextId(old(casinos).Keys) >= NO_AVAILABLE_PRIMARY_KEY ==>
                r == Fail(AutoIncrementLimit) && casinos == old(casinos)
      ensures caller == self && NextId(old(casinos).Keys) < NO_AVAILABLE_PRIMARY_KEY ==>
                var id := NextId(old(casinos).Keys) as u64;
                && r == Pass
                && id !in old(casinos)
                && casinos == old(casinos)[id := CasinoRow(id, contract, false, meta)]
                && casinos[id].id == id
                && IsActiveCasino(casinos, id)
    {
      if caller != self {
        return Fail(MissingAuthority(self));
      }
      var next := NextId(casinos.Keys);
      if next >= NO_AVAILABLE_PRIMARY_KEY {
        return Fail(AutoIncrementLimit);
      }
      var id := next as u64;
      casinos := casinos[id := CasinoRow(id, contract, false, meta)];
      return Pass;
    }

    /** `delcas`: erases the casino row. */
    method DelCasino(caller: Name, id: u64) returns (r: Outcome<Error>)
      requires Valid()
      modifies this`casinos
      ensures Valid() && games == old(games)
      ensures caller != self ==> r == Fail(MissingAuthority(self)) && casinos == old(casinos)
      ensures caller == self && id !in old(casinos) ==> r == Fail(CasinoNotFound) && casinos == old(casinos)
      ensures caller == self && id in old(casinos) ==> r == Pass && casinos == old(casinos) - {id}
      ensures r == Pass ==> !IsActiveCasino(casinos, id)
    {
      if caller != self {
        return Fail(MissingAuthority(self));
      }
      if id !in casinos {
        return Fail(CasinoNotFound);
      }
      casinos := casinos - {id};
      return Pass;
    }

    /** `pausecas`: sets the casino's `paused` flag and nothing else. */
    method PauseCasino(caller: Name, id: u64, pause: bool) returns (r: Outcome<Error>)
      requires Valid()
      modifies this`casinos
      ensures Valid() && games == old(games)
      ensures caller != self ==> r == Fail(MissingAuthority(self)) && casinos == old(casinos)
      ensures caller == self && id !in old(casinos) ==> r == Fail(CasinoNotFound) && casinos == old(casinos)
      ensures caller == self && id in old(casinos) ==>
                r == Pass && casinos == old(casinos)[id := old(casinos)[id].(paused := pause)]
      ensures r == Pass ==> IsActiveCasino(casinos, id) == !pause
    {
      if caller != self {
        return Fail(MissingAuthority(self));
      }
      if id !in casinos {
        return Fail(CasinoNotFound);
      }
      casinos := casinos[id := casinos[id].(paused := pause)];
      return Pass;
    }

    /** `setcontrcas`: replaces the casino's contract account and nothing else. */
    method SetContractCasino(caller: Name, id: u64, contract: Name) returns (r: Outcome<Error>)
      requires Valid()
      modifies this`casinos
      ensures Valid() && games == old(games)
      ensures caller != self ==> r == Fail(MissingAuthority(self)) && casinos == old(casinos)
      ensures caller == self && id !in old(casinos) ==> r == Fail(CasinoNotFound) && casinos == old(casinos)
      ensures caller == self && id in old(casinos) ==>
                r == Pass && casinos == old(casinos)[id := old(casinos)[id].(contract := contract)]
    {
      if caller != self {
        return Fail(MissingAuthority(self));
      }
      if id !in casinos {
        return Fail(CasinoNotFound);
      }
      casinos := casinos[id := casinos[id].(contract := contract)];
      return Pass;
    }

    /** `setmetacas`: replaces the casino's meta bytes and nothing else. */
    method SetMetaCasino(caller: Name, id: u64, meta: Bytes) returns (r: Outcome<Error>)
      requires Valid()
      modifies this`casinos
      ensures Valid() && games == old(games)
      ensures caller != self ==> r == Fail(MissingAuthority(self)) && casinos == old(casinos)
      ensures caller == self && id !in old(casinos) ==> r == Fail(CasinoNotFound) && casinos == old(casinos)
      ensures caller == self && id in old(casinos) ==>
                r == Pass && casinos == old(casinos)[id := old(casinos)[id].(meta := meta)]
    {
      if caller != self {
        return Fail(MissingAuthority(self));
      }
      if id !in casinos {
        return Fail(CasinoNotFound);
      }
      casinos := casinos[id := casinos[id].(meta := meta)];
      return Pass;
    }

    /** `addgame`: appends an enabled game under the next free id. */
    method AddGame(caller: Name, contract: Name, paramsCnt: u16, meta: Bytes) returns (r: Outcome<Error>)
      requires Valid()
      modifies this`games
      ensures Valid() && casinos == old(casinos)
      ensures caller != self ==> r == Fail(MissingAuthority(self)) && games == old(games)
      ensures caller == self && NextId(old(games).Keys) >= NO_AVAILABLE_PRIMARY_KEY ==>
                r == Fail(AutoIncrementLimit) && games == old(games)
      ensures caller == self && NextId(old(games).Keys) < NO_AVAILABLE_PRIMARY_KEY ==>
                var id := NextId(old(games).Keys) as u64;
                && r == Pass
                && id !in old(games)
                && games == old(games)[id := GameRow(id, contract, paramsCnt, false, meta)]
                && games[id].id == id
                && IsActiveGame(games, id)
    {
      if caller != self {
        return Fail(MissingAuthority(self));
      }
      var next := NextId(games.Keys);
      if next >= NO_AVAILABLE_PRIMARY_KEY {
        return Fail(AutoIncrementLimit);
      }
      var id := next as u64;
      games := games[id := GameRow(id, contract, paramsCnt, false, meta)];
      return Pass;
    }

    /** `delgame`: erases the game row. */
    method DelGame(caller: Name, id: u64) returns (r: Outcome<Error>)
      requires Valid()
      modifies this`games
      ensures Valid() && casinos == old(casinos)
      ensures caller != self ==> r == Fail(MissingAuthority(self)) && games == old(games)
      ensures caller == self && id !in old(games) ==> r == Fail(GameNotFound) && games == old(games)
      ensures caller == self && id in old(games) ==> r == Pass && games == old(games) - {id}
      ensures r == Pass ==> !IsActiveGame(games, id)
    {
      if caller != self {
        return Fail(MissingAuthority(self));
      }
      if id !in games {
        return Fail(GameNotFound);
      }
      games := games - {id};
      return Pass;
    }

    /** `pausegame`: sets the game's `paused` flag and nothing else. */
    method PauseGame(caller: Name, id: u64, pause: bool) returns (r: Outcome<Error>)
      requires Valid()
      modifies this`games
      ensures Valid() && casinos == old(casinos)
      ensures caller != self ==> r == Fail(MissingAuthority(self)) && games == old(games)
      ensures caller == self && id !in old(games) ==> r == Fail(GameNotFound) && games == old(games)
      ensures caller == self && id in old(games) ==>
                r == Pass && games == old(games)[id := old(games)[id].(paused := pause)]
      ensures r == Pass ==> IsActiveGame(games, id) == !pause
    {
      if caller != self {
        return Fail(MissingAuthority(self));
      }
      if id !in games {
        return Fail(GameNotFound);
      }
      games := games[id := games[id].(paused := pause)];
      return Pass;
    }

    /** `setcontrgame`: replaces the game's contract account and nothing else. */
    method SetContractGame(caller: Name, id: u64, contract: Name) returns (r: Outcome<Error>)
      requires Valid()
      modifies this`games
      ensures Valid() && casinos == old(casinos)
      ensures caller != self ==> r == Fail(MissingAuthority(self)) && games == old(games)
      ensures caller == self && id !in old(games) ==> r == Fail(GameNotFound) && games == old(games)
      ensures caller == self && id in old(games) ==>
                r == Pass && games == old(games)[id := old(games)[id].(contract := contract)]
    {
      if caller != self {
        return Fail(MissingAuthority(self));
      }
      if id !in games {
        return Fail(GameNotFound);
      }
      games := games[id := games[id].(contract := contract)];
      return Pass;
    }

    /** `setmetagame`: replaces the game's meta bytes and nothing else. */
    method SetMetaGame(caller: Name, id: u64, meta: Bytes) returns (r: Outcome<Error>)
      requires Valid()
      modifies this`games
      ensures Valid() && casinos == old(casinos)
      ensures caller != self ==> r == Fail(MissingAuthority(self)) && games == old(games)
      ensures caller == self && id !in old(games) ==> r == Fail(GameNotFound) && games == old(games)
      ensures caller == self && id in old(games) ==>
                r == Pass && games == old(games)[id := old(games)[id].(meta := meta)]
    {
      if caller != self {
        return Fail(MissingAuthority(self));
      }
      if id !in games {
        return Fail(GameNotFound);
      }
      games := games[id := games[id].(meta := meta)];
      return Pass;
    }
  }

  /** The scenario the events and casino tests start from: on a fresh platform the first
      casino and the first game both get id 0, are active, and a second game gets id 1. */
  method FirstIdsAreZero(self: Name, contractVersion: string, casinoAcc: Name, gameAcc: Name)
  {
    var p := new Platform(self, contractVersion, map[], map[]);
    var r := p.AddCasino(self, casinoAcc, []);
    assert r == Pass && p.casinos == map[0 := CasinoRow(0, casinoAcc, false, [])];
    r := p.AddGame(self, gameAcc, 0, []);
    assert r == Pass && p.games == map[0 := GameRow(0, gameAcc, 0, false, [])];
    assert IsActiveCasino(p.casinos, 0) && IsActiveGame(p.games, 0);
    NextIdAfterInsert({});
    r := p.AddGame(self, gameAcc, 1, []);
    assert r == Pass && 1 in p.games && p.games[1].paramsCnt == 1;
  }

  /** Deleting the newest game and adding another hands its id to the new game. */
  method DeletedIdReused(self: Name, contractVersion: string, gameA: Name, gameB: Name)
  {
    var p := new Platform(self, contractVersion, map[], map[]);
    var r := p.AddGame(self, gameA, 0, []);
    NextIdAfterInsert({});
    r := p.AddGame(self, gameA, 0, []);
    assert p.games.Keys == {0, 1};
    r := p.DelGame(self, 1);
    assert p.games.Keys == {0};
    r := p.AddGame(self, gameB, 0, []);
    assert r == Pass && 1 in p.games && p.games[1].contract == gameB;
  }
}
