/** The events contract: `send` lets a game's own contract account emit an event about a
    casino and a game, after checking both against the platform registry. It writes no
    table; it only accepts or rejects. */
module Events {
  import opened Types
  import Platform

  datatype Error =
    | MissingAuthority(account: Name)  // require_auth(sender) failed: "missing authority of <sender>"
    | GameNotActive                    // "game isn't active"
    | CasinoNotActive                  // "casino isn't active"
    | IncorrectSender                  // "incorrect sender(sender should be game's contract)"

  /** The events contract's persisted state: only the version singleton. */
  class Events {
    const self: Name
    var version: string

    /** Built for every action; the constructor (re)writes the version singleton. */
    constructor (self: Name, contractVersion: string)
      ensures this.self == self && version == contractVersion
    {
      this.self := self;
      version := contractVersion;
    }
  }

  /** `send`, run by an action authorised by `caller` against the platform's `casinos` and
      `games` tables. The checks run in order (authority, game active, casino active,
      sender is the game's contract) and the first that fails decides the error. Being a
      function, it cannot modify the registry, and the request id, event type and data
      take no part in the outcome. */
  function Send(caller: Name, casinos: Platform.CasinoTable, games: Platform.GameTable,
                sender: Name, casinoId: u64, gameId: u64, reqId: u64, eventType: u32, data: Bytes)
    : (r: Outcome<Error>)
    ensures r == Pass <==>
              && caller == sender
              && Platform.IsActiveGame(games, gameId)
              && Platform.IsActiveCasino(casinos, casinoId)
              && games[gameId].contract == sender
    ensures caller != sender ==> r == Fail(MissingAuthority(sender))
    ensures caller == sender && !Platform.IsActiveGame(games, gameId) ==> r == Fail(GameNotActive)
    ensures (caller == sender && Platform.IsActiveGame(games, gameId)
             && !Platform.IsActiveCasino(casinos, casinoId)) ==> r == Fail(CasinoNotActive)
    ensures (caller == sender && Platform.IsActiveGame(games, gameId)
             && Platform.IsActiveCasino(casinos, casinoId)
             && games[gameId].contract != sender) ==> r == Fail(IncorrectSender)
  {
    if caller != sender then Fail(MissingAuthority(sender))
    else if !Platform.IsActiveGame(games, gameId) then Fail(GameNotActive)
    else if !Platform.IsActiveCasino(casinos, casinoId) then Fail(CasinoNotActive)
    // `platform::read::get_game` is total here: the game row exists, the check above passed
    else if games[gameId].contract != sender then Fail(IncorrectSender)
    else Pass
  }

  /** An independent statement of "the first failing check decides": the error of the
      first check in `checks` that does not hold, or Pass when all hold. */
  function FirstFailure(checks: seq<(bool, Error)>): (r: Outcome<Error>)
    ensures r == Pass <==> forall i :: 0 <= i < |checks| ==> checks[i].0
    ensures r.Fail? ==> exists i :: 0 <= i < |checks| && !checks[i].0 && r.error == checks[i].1
                                    && forall j :: 0 <= j < i ==> checks[j].0
    decreases |checks|
  {
    if checks == [] then Pass
    else if !checks[0].0 then Fail(checks[0].1)
    else
      var rest := FirstFailure(checks[1..]);
      assert forall i :: 1 <= i < |checks| ==> checks[i] == checks[1..][i - 1];
      if rest.Fail? then
        var k :| 0 <= k < |checks[1..]| && !checks[1..][k].0 && rest.error == checks[1..][k].1
                 && forall j :: 0 <= j < k ==> checks[1..][j].0;
        assert !checks[k + 1].0 && forall j :: 0 <= j < k + 1 ==> checks[j].0;
        rest
      else rest
  }

  /** `send` is exactly the first failing check of the chain in source order. */
  lemma SendIsFirstFailingCheck(caller: Name, casinos: Platform.CasinoTable, games: Platform.GameTable,
                                sender: Name, casinoId: u64, gameId: u64, reqId: u64, eventType: u32, data: Bytes)
    ensures Send(caller, casinos, games, sender, casinoId, gameId, reqId, eventType, data)
            == FirstFailure([
                 (caller == sender, MissingAuthority(sender)),
                 (Platform.IsActiveGame(games, gameId), GameNotActive),
                 (Platform.IsActiveCasino(casinos, casinoId), CasinoNotActive),
                 (gameId in games && games[gameId].contract == sender, IncorrectSender)])
  {
    var checks := [
      (caller == sender, MissingAuthority(sender)),
      (Platform.IsActiveGame(games, gameId), GameNotActive),
      (Platform.IsActiveCasino(casinos, casinoId), CasinoNotActive),
      (gameId in games && games[gameId].contract == sender, IncorrectSender)];
    var c1 := checks[1..];
    var c2 := c1[1..];
    var c3 := c2[1..];
    assert c3[1..] == [];
    if checks[0].0 {
      assert FirstFailure(checks) == FirstFailure(c1);
      if c1[0].0 {
        assert FirstFailure(c1) == FirstFailure(c2);
        if c2[0].0 {
          assert FirstFailure(c2) == FirstFailure(c3);
          if c3[0].0 {
            assert FirstFailure(c3) == FirstFailure(c3[1..]);
          }
        }
      }
    }
  }

  /** The outcome of `send` does not depend on the request id, the event type or the data. */
  lemma SendIgnoresPayload(caller: Name, casinos: Platform.CasinoTable, games: Platform.GameTable,
                           sender: Name, casinoId: u64, gameId: u64,
                           reqId: u64, eventType: u32, data: Bytes,
                           reqId': u64, eventType': u32, data': Bytes)
    ensures Send(caller, casinos, games, sender, casinoId, gameId, reqId, eventType, data)
            == Send(caller, casinos, games, sender, casinoId, gameId, reqId', eventType', data')
  {
  }

  /** The scenarios of the events tests, on a fresh platform whose first casino and first
      game (both id 0) were added by the platform itself. */
  method SendScenarios(platform: Name, casinoAcc: Name, gameAcc: Name, contractVersion: string)
    requires platform != casinoAcc && casinoAcc != gameAcc
  {
    var p := new Platform.Platform(platform, contractVersion, map[], map[]);
    // a game that does not exist yet is not active
    assert Send(gameAcc, p.casinos, p.games, gameAcc, 0, 0, 0, 0, []) == Fail(GameNotActive);
    var r := p.AddGame(platform, gameAcc, 0, []);
    // the casino is checked only once the game check passes
    assert Send(gameAcc, p.casinos, p.games, gameAcc, 0, 0, 0, 0, []) == Fail(CasinoNotActive);
    r := p.AddCasino(platform, casinoAcc, []);
    assert Send(gameAcc, p.casinos, p.games, gameAcc, 0, 0, 0, 0, []) == Pass;
    // the casino's account, even authorised by itself, is not the game's contract
    assert Send(casinoAcc, p.casinos, p.games, casinoAcc, 0, 0, 0, 0, []) == Fail(IncorrectSender);
    // authority is checked first
    assert Send(casinoAcc, p.casinos, p.games, gameAcc, 0, 0, 0, 0, []) == Fail(MissingAuthority(gameAcc));
    r := p.PauseGame(platform, 0, true);
    assert Send(gameAcc, p.casinos, p.games, gameAcc, 0, 0, 0, 0, []) == Fail(GameNotActive);
    // an active game with a paused casino
    r := p.PauseGame(platform, 0, false);
    r := p.PauseCasino(platform, 0, true);
    assert Send(gameAcc, p.casinos, p.games, gameAcc, 0, 0, 0, 0, []) == Fail(CasinoNotActive);
    // the events contract stores its version
    var e := new Events(Name(1), contractVersion);
    assert e.version == contractVersion;
  }
}
