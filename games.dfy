/** The `games(id, player1_id, player2_id, entry_fee, owner_cut, status)`
    table and the two guarded `UPDATE games` statements of the server. */
module Games {

  /** The only two status strings the server ever writes: "waiting" when a
      game is created and "active" when it is joined or started. No code path
      writes a settled or ended status. */
  datatype Status = Waiting | Active

  /** One row of `games`. Ids are PostgreSQL `INTEGER`s; amounts are exact
      decimals, modelled as reals. */
  datatype Game = Game(
    id: int,
    player1: int,
    player2: Option<int>,
    entryFee: real,
    ownerCut: real,
    status: Status)

  datatype Option<T> = None | Some(value: T)

  /** What the server's writes keep true of every row: a second player is
      only ever written together with status "active". (The converse fails:
      `StartedWithoutSecondPlayer`.) */
  predicate Consistent(g: Game) {
    g.player2.Some? ==> g.status == Active
  }

  /** Every row is stored under its own id and is consistent. */
  predicate TableConsistent(games: map<int, Game>) {
    forall id :: id in games ==> games[id].id == id && Consistent(games[id])
  }

  /** `UPDATE games SET player2_id = p2, status = 'active'
      WHERE id = gameId AND player2_id IS NULL`: a compare-and-set on the
      empty second seat. Neither the current status nor `p2 != player1` is
      checked. */
  function Joined(games: map<int, Game>, gameId: int, player2: int): (r: map<int, Game>)
    ensures r.Keys == games.Keys
    ensures forall id :: id in games && id != gameId ==> r[id] == games[id]
    ensures gameId in games && games[gameId].player2.None? ==>
              r[gameId] == games[gameId].(player2 := Some(player2), status := Active)
    ensures gameId in games && games[gameId].player2.Some? ==> r == games
    ensures TableConsistent(games) ==> TableConsistent(r)
  {
    if gameId in games && games[gameId].player2.None? then
      games[gameId := games[gameId].(player2 := Some(player2), status := Active)]
    else
      games
  }

  /** `UPDATE games SET status = 'active' WHERE id = gameId AND
      status = 'waiting'`: only the status of a waiting game changes. */
  function Started(games: map<int, Game>, gameId: int): (r: map<int, Game>)
    ensures r.Keys == games.Keys
    ensures forall id :: id in games && id != gameId ==> r[id] == games[id]
    ensures gameId in games && games[gameId].status == Waiting ==>
              r[gameId] == games[gameId].(status := Active)
    ensures gameId in games && games[gameId].status == Active ==> r == games
    ensures TableConsistent(games) ==> TableConsistent(r)
  {
    if gameId in games && games[gameId].status == Waiting then
      games[gameId := games[gameId].(status := Active)]
    else
      games
  }

  /** Once a second player is seated, later joins match no row: of two joins
      on one game, the first wins and the second changes nothing. */
  lemma JoinOnlyOnce(games: map<int, Game>, gameId: int, first: int, second: int)
    ensures Joined(Joined(games, gameId, first), gameId, second) == Joined(games, gameId, first)
  {
  }

  /** Starting a game twice is the same as starting it once. */
  lemma StartIdempotent(games: map<int, Game>, gameId: int)
    ensures Started(Started(games, gameId), gameId) == Started(games, gameId)
  {
  }

  /** On consistent tables, starting a game first does not change what a
      later join does: join matches on the empty seat, not on the status. */
  lemma StartThenJoin(games: map<int, Game>, gameId: int, player2: int)
    requires TableConsistent(games)
    ensures Joined(Started(games, gameId), gameId, player2) == Joined(games, gameId, player2)
  {
  }

  /** After a successful join, starting the game changes nothing: the join
      already made it active. */
  lemma JoinThenStart(games: map<int, Game>, gameId: int, player2: int)
    requires TableConsistent(games)
    ensures Started(Joined(games, gameId, player2), gameId) == Joined(games, gameId, player2)
  {
  }

  /** `start_game` activates a game nobody has joined, so "active" does not
      imply a second player; such a game can still be joined afterwards. */
  lemma StartedWithoutSecondPlayer(games: map<int, Game>, gameId: int, player2: int)
    requires gameId in games && games[gameId].player2.None? && games[gameId].status == Waiting
    ensures Started(games, gameId)[gameId].status == Active
    ensures Started(games, gameId)[gameId].player2.None?
    ensures Joined(Started(games, gameId), gameId, player2)[gameId].player2 == Some(player2)
  {
  }
}
