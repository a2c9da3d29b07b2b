/** The casino contract: the games a casino has taken on (each once verified by the platform),
    the casino's owner and version singletons, and a per-game signed balance ledger. */
module Casino {
  import opened Types

  /** `game_params_type`: the parameter pairs a casino stores for one of its games, opaque here. */
  type GameParams = seq<(u16, u32)>

  /** The `game` table: game id to its parameters. */
  type GameTable = map<u64, GameParams>

  /** The `balance` table: game id to the signed amount of its `quantity` asset. */
  type BalanceTable = map<u64, int>

  datatype Error =
    | NotVerified   // the id is not among the games the platform verified
    | DuplicateKey  // `emplace` under a primary key that is already in the table
    | GameNotAdded  // `remove_game` of an id that is not in the table

  /** The messages the tests expect for each error; for `GameNotAdded` this differs from
      what the contract reports (see `MessageAsWritten`). */
  function Message(e: Error): (msg: string)
    ensures e == GameNotAdded ==> msg == "the game was not added"
  {
    match e
    case NotVerified => "the game was not verified by the platform"
    case DuplicateKey => "could not insert object, most likely a uniqueness constraint was violated"
    case GameNotAdded => "the game was not added"
  }

  /** The messages as `remove_game` spells them: "games" instead of "game". */
  function MessageAsWritten(e: Error): (msg: string)
    ensures e != GameNotAdded ==> msg == Message(e)
  {
    match e
    case GameNotAdded => "the games was not added"
    case _ => Message(e)
  }

  /** The remove-a-missing-game test expects "the game was not added"; the code as written
      reports a different string, so that test cannot pass against it. */
  lemma RemoveGameMessageMismatch()
    ensures MessageAsWritten(GameNotAdded) != "the game was not added"
    ensures Message(GameNotAdded) == "the game was not added"
  {
  }

  /** `get_balance`: a game without a row has balance zero. */
  function BalanceOf(balances: BalanceTable, gameId: u64): (q: int)
    ensures gameId !in balances ==> q == 0
    ensures gameId in balances ==> q == balances[gameId]
  {
    if gameId in balances then balances[gameId] else 0
  }

  /** The balance table after `add_balance(gameId, quantity)`: the game's row exists and
      holds its old balance plus `quantity`; every other row is as it was. */
  function Credited(balances: BalanceTable, gameId: u64, quantity: int): (b: BalanceTable)
    ensures b.Keys == balances.Keys + {gameId}
    ensures BalanceOf(b, gameId) == BalanceOf(balances, gameId) + quantity
    ensures forall g :: g in balances && g != gameId ==> b[g] == balances[g]
  {
    balances[gameId := BalanceOf(balances, gameId) + quantity]
  }

  /** The balance table after `sub_balance(gameId, quantity)`: the game's row exists and
      holds its old balance minus `quantity`, negative if need be; every other row is as it was. */
  function Debited(balances: BalanceTable, gameId: u64, quantity: int): (b: BalanceTable)
    ensures b.Keys == balances.Keys + {gameId}
    ensures BalanceOf(b, gameId) == BalanceOf(balances, gameId) - quantity
    ensures forall g :: g in balances && g != gameId ==> b[g] == balances[g]
  {
    balances[gameId := BalanceOf(balances, gameId) - quantity]
  }

  /** One call of the ledger's private helpers. */
  datatype BalanceOp = Add(gameId: u64, quantity: int) | Sub(gameId: u64, quantity: int)

  function Apply(balances: BalanceTable, op: BalanceOp): BalanceTable {
    match op
    case Add(g, q) => Credited(balances, g, q)
    case Sub(g, q) => Debited(balances, g, q)
  }

  function ApplyAll(balances: BalanceTable, ops: seq<BalanceOp>): BalanceTable
    decreases |ops|
  {
    if ops == [] then balances else ApplyAll(Apply(balances, ops[0]), ops[1..])
  }

  /** The signed sum of the amounts that `ops` add to, or take from, game `g`. */
  function NetDelta(ops: seq<BalanceOp>, g: u64): int
    decreases |ops|
  {
    if ops == [] then 0
    else
      var d := match ops[0]
        case Add(h, q) => if h == g then q else 0
        case Sub(h, q) => if h == g then -q else 0;
      d + NetDelta(ops[1..], g)
  }

  /** No clamping: after any sequence of credits and debits, a game's balance is its
      starting balance plus the algebraic sum of the amounts applied to it. */
  lemma {:induction false} BalanceIsSumOfDeltas(balances: BalanceTable, ops: seq<BalanceOp>, g: u64)
    ensures BalanceOf(ApplyAll(balances, ops), g) == BalanceOf(balances, g) + NetDelta(ops, g)
    decreases |ops|
  {
    if ops != [] {
      var next := Apply(balances, ops[0]);
      BalanceIsSumOfDeltas(next, ops[1..], g);
      match ops[0]
      case Add(h, q) =>
        if h != g { assert BalanceOf(next, g) == BalanceOf(balances, g); }
      case Sub(h, q) =>
        if h != g { assert BalanceOf(next, g) == BalanceOf(balances, g); }
    }
  }

  /** A credit followed by a debit of the same amount restores every balance; the table
      keeps the game's row (holding zero) if it had none before. */
  lemma AddThenSubRestoresBalance(balances: BalanceTable, gameId: u64, quantity: int)
    ensures forall g :: BalanceOf(Debited(Credited(balances, gameId, quantity), gameId, quantity), g)
                        == BalanceOf(balances, g)
    ensures Debited(Credited(balances, gameId, quantity), gameId, quantity)
            == balances[gameId := BalanceOf(balances, gameId)]
  {
  }

  /** The casino contract's persisted state. */
  class Casino {
    const self: Name
    var owner: Name
    var version: string
    var games: GameTable
    var balances: BalanceTable

    /** The contract object is built over the persisted tables for every action, and its
        constructor overwrites the owner singleton with the contract's own account and
        the version singleton with the contract's version, whatever they held. */
    constructor (self: Name, contractVersion: string, games: GameTable, balances: BalanceTable)
      ensures this.self == self && GetOwner() == self && version == contractVersion
      ensures this.games == games && this.balances == balances
    {
      this.self := self;
      owner := self;
      version := contractVersion;
      this.games := games;
      this.balances := balances;
    }

    /** `get_owner`: the account stored in the owner singleton. */
    function GetOwner(): (o: Name)
      reads this
      ensures o == owner
    {
      owner
    }

    /** `get_balance`: a game without a row has balance zero. */
    function GetBalance(gameId: u64): (q: int)
      reads this
      ensures gameId !in balances ==> q == 0
      ensures gameId in balances ==> q == balances[gameId]
    {
      BalanceOf(balances, gameId)
    }

    /** `is_active_game`: the game is in the casino's own table. */
    function IsActiveGame(gameId: u64): (active: bool)
      reads this
      ensures active <==> gameId in games
    {
      gameId in games
    }

    /** `add_balance`: creates the game's row holding `quantity`, or adds `quantity` to it. */
    method AddBalance(gameId: u64, quantity: int)
      modifies this`balances
      ensures balances == Credited(old(balances), gameId, quantity)
      ensures GetBalance(gameId) == old(GetBalance(gameId)) + quantity
    {
      if gameId !in balances {
        balances := balances[gameId := quantity];
      } else {
        balances := balances[gameId := balances[gameId] + quantity];
      }
    }

    /** `sub_balance`: creates the game's row holding `-quantity`, or subtracts `quantity`
        from it; the result is never clamped at zero. */
    method SubBalance(gameId: u64, quantity: int)
      modifies this`balances
      ensures balances == Debited(old(balances), gameId, quantity)
      ensures GetBalance(gameId) == old(GetBalance(gameId)) - quantity
    {
      if gameId !in balances {
        balances := balances[gameId := -quantity];
      } else {
        balances := balances[gameId := balances[gameId] - quantity];
      }
    }

    /** `addgame`: only a game the platform verified may be added, and only once. */
    method AddGame(gameId: u64, params: GameParams, verified: set<u64>) returns (r: Outcome<Error>)
      modifies this`games
      ensures gameId !in verified ==> r == Fail(NotVerified) && games == old(games)
      ensures gameId in verified && gameId in old(games) ==> r == Fail(DuplicateKey) && games == old(games)
      ensures gameId in verified && gameId !in old(games) ==> r == Pass && games == old(games)[gameId := params]
      ensures r == Pass ==> IsActiveGame(gameId) && games[gameId] == params
    {
      if gameId !in verified {
        return Fail(NotVerified);
      }
      if gameId in games {
        return Fail(DuplicateKey);
      }
      games := games[gameId := params];
      return Pass;
    }

    /** `rmgame`: erases the game's row, which must exist. */
    method RemoveGame(gameId: u64) returns (r: Outcome<Error>)
      modifies this`games
      ensures gameId !in old(games) ==> r == Fail(GameNotAdded) && games == old(games)
      ensures gameId in old(games) ==> r == Pass && games == old(games) - {gameId}
      ensures !IsActiveGame(gameId)
    {
      if gameId !in games {
        return Fail(GameNotAdded);
      }
      games := games - {gameId};
      return Pass;
    }
  }

  /** Adding a game and then removing it leaves the casino's game table as it was. */
  method AddThenRemoveGame(c: Casino, gameId: u64, params: GameParams, verified: set<u64>)
    returns (added: Outcome<Error>, removed: Outcome<Error>)
    modifies c`games
    ensures c.balances == old(c.balances) && c.owner == old(c.owner) && c.version == old(c.version)
    ensures added == Pass <==> gameId in verified && gameId !in old(c.games)
    ensures added == Pass ==> removed == Pass && c.games == old(c.games)
    ensures added != Pass ==> c.games == old(c.games) - {gameId}
  {
    added := c.AddGame(gameId, params, verified);
    removed := c.RemoveGame(gameId);
  }
}
