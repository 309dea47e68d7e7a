/** The four request handlers of the server, as methods on the database they
    update in place. HTTP, JSON and the connection pool are left out; each
    handler's response is reduced to its outcome and message. */
module Handlers {
  import opened Ledger
  import opened Games
  import opened Settlement

  /** A handler's response: HTTP 200 or HTTP 500, with the JSON string sent. */
  datatype Reply = Ok(message: string) | InternalServerError(message: string)

  /** The two tables the engine reads and writes. */
  class Database {
    /** `games`, keyed by game id. */
    var games: map<int, Game>
    /** `users`, reduced to each user's balance, keyed by user id. */
    var balances: map<int, real>
    /** The next value of the `games.id` sequence. */
    var nextGameId: int

    ghost predicate Valid()
      reads this
    {
      TableConsistent(games) && forall id :: id in games ==> id < nextGameId
    }

    /** A database with the given users and no games; the id sequence starts
        at 1. */
    constructor (users: map<int, real>)
      ensures Valid()
      ensures games == map[] && balances == users && nextGameId == 1
    {
      games := map[];
      balances := users;
      nextGameId := 1;
    }

    /** `create_game` (the `INSERT ... RETURNING` row): a new waiting game
        owned by the hard-coded player 1, with no second player and the fee
        and cut as given, unvalidated. */
    method CreateGame(entryFee: real, ownerCut: real) returns (game: Game)
      requires Valid()
      modifies this
      ensures Valid()
      ensures game == Game(old(nextGameId), 1, None, entryFee, ownerCut, Waiting)
      ensures game.id !in old(games)
      ensures games == old(games)[game.id := game]
      ensures balances == old(balances)
      ensures nextGameId > old(nextGameId)
    {
      game := Game(nextGameId, 1, None, entryFee, ownerCut, Waiting);
      games := games[game.id := game];
      nextGameId := nextGameId + 1;
    }

    /** `join_game`: the guarded update of `Joined`. The number of rows it
        matched is ignored, so the reply is a success even when the game is
        missing or already has a second player. */
    method JoinGame(gameId: int, player2: int) returns (reply: Reply)
      requires Valid()
      modifies this
      ensures Valid()
      ensures games == Joined(old(games), gameId, player2)
      ensures balances == old(balances) && nextGameId == old(nextGameId)
      ensures reply == Ok("Game joined successfully")
    {
      if gameId in games && games[gameId].player2.None? {
        games := games[gameId := games[gameId].(player2 := Some(player2), status := Active)];
      }
      reply := Ok("Game joined successfully");
    }

    /** `start_game`: the guarded update of `Started`; like `join_game` it
        replies with success whether or not a row matched. */
    method StartGame(gameId: int) returns (reply: Reply)
      requires Valid()
      modifies this
      ensures Valid()
      ensures games == Started(old(games), gameId)
      ensures balances == old(balances) && nextGameId == old(nextGameId)
      ensures reply == Ok("Game started")
    {
      if gameId in games && games[gameId].status == Waiting {
        games := games[gameId := games[gameId].(status := Active)];
      }
      reply := Ok("Game started");
    }

    /** `end_game`: fetch the game row (failing when there is none), then
        issue the four balance updates one by one, discarding each result.
        Neither the status nor the winner is checked, and the game row is
        never changed. */
    method EndGame(gameId: int, winner: int) returns (reply: Reply)
      requires Valid()
      modifies this
      ensures Valid()
      ensures games == old(games) && nextGameId == old(nextGameId)
      ensures gameId !in old(games) ==>
                balances == old(balances) && reply == InternalServerError("Error ending game")
      ensures gameId in old(games) ==>
                balances == Settle(old(balances), old(games)[gameId], winner)
                && reply == Ok("Game ended, balances updated")
    {
      if gameId !in games {
        return InternalServerError("Error ending game");
      }
      var game := games[gameId];
      var s := ComputeShares(game.entryFee, game.ownerCut);
      balances := Adjust(balances, game.player1, -game.entryFee);
      if game.player2.Some? {
        balances := Adjust(balances, game.player2.value, -game.entryFee);
      }
      balances := Adjust(balances, winner, s.winnerShare);
      balances := Adjust(balances, game.player1, s.ownerShare);
      reply := Ok("Game ended, balances updated");
    }
  }

  /** The lifecycle end to end, seen only through the handlers' contracts:
      players 1 and 2 hold 500 each; player 1 creates a game with fee 100 and
      a 10 percent cut, player 2 joins, a late second join is ignored, and
      player 1 wins. */
  method Scenario() returns (final: map<int, real>)
    ensures final == map[1 := 600.0, 2 := 400.0]
  {
    var db := new Database(map[1 := 500.0, 2 := 500.0]);
    var game := db.CreateGame(100.0, 10.0);
    var joined := db.JoinGame(game.id, 2);
    assert db.games[game.id] == game.(player2 := Some(2), status := Active);
    var late := db.JoinGame(game.id, 3);
    assert db.games[game.id].player2 == Some(2);
    var started := db.StartGame(game.id);
    var ended := db.EndGame(game.id, 1);
    SettleExample();
    final := db.balances;
  }
}
