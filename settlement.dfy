/** What `end_game` does to the ledger: the share arithmetic, then four
    balance updates applied one after the other, each of which may match no
    row. Nothing here reads or writes the game's status. */
module Settlement {
  import opened Ledger
  import opened Games

  /** The three amounts `end_game` derives from a game row. */
  datatype Shares = Shares(totalPool: real, ownerShare: real, winnerShare: real)

  /** `total_pool = entry_fee * 2`, `owner_share = total_pool * (owner_cut / 100)`,
      `winner_share = total_pool - owner_share`, all exact; the owner cut is a
      percentage of the pool. Neither amount is validated. */
  function ComputeShares(entryFee: real, ownerCut: real): (s: Shares)
    ensures s.totalPool == entryFee + entryFee
    ensures s.ownerShare + s.winnerShare == s.totalPool
    ensures s.ownerShare * 100.0 == s.totalPool * ownerCut
  {
    var totalPool := entryFee * 2.0;
    var ownerShare := totalPool * (ownerCut / 100.0);
    Shares(totalPool, ownerShare, totalPool - ownerShare)
  }

  /** With a non-negative fee and a cut between 0 and 100 percent, both
      shares are non-negative and neither exceeds the pool. */
  lemma SharesBounded(entryFee: real, ownerCut: real)
    requires entryFee >= 0.0 && 0.0 <= ownerCut <= 100.0
    ensures var s := ComputeShares(entryFee, ownerCut);
            0.0 <= s.ownerShare <= s.totalPool && 0.0 <= s.winnerShare <= s.totalPool
  {
    var s := ComputeShares(entryFee, ownerCut);
    var fraction := ownerCut / 100.0;
    assert s.ownerShare == s.totalPool * fraction;
    assert 0.0 <= fraction <= 1.0;
    assert s.totalPool * fraction <= s.totalPool * 1.0;
  }

  /** A cut above 100 percent, which nothing rejects, makes the winner's
      share negative: the winner is debited. */
  lemma OverCutDebitsWinner(entryFee: real, ownerCut: real)
    requires entryFee > 0.0 && ownerCut > 100.0
    ensures ComputeShares(entryFee, ownerCut).winnerShare < 0.0
  {
  }

  /** A fee of 100 with a 10 percent cut: a pool of 200, 20 to the owner,
      180 to the winner. */
  lemma SharesExample()
    ensures ComputeShares(100.0, 10.0) == Shares(200.0, 20.0, 180.0)
  {
  }

  /** The four `UPDATE users` statements of `end_game`, in source order:
      debit player 1 the fee, debit player 2 the fee if one is seated, credit
      the winner the winner's share, credit player 1 the owner's share. No
      user row is added or removed, and every existing user's balance moves
      by its `ExpectedDelta`; anybody who is neither a player nor the winner
      is untouched. */
  function Settle(balances: map<int, real>, game: Game, winner: int): (r: map<int, real>)
    ensures r.Keys == balances.Keys
    ensures forall user :: user in balances ==> r[user] == balances[user] + ExpectedDelta(game, winner, user)
  {
    var s := ComputeShares(game.entryFee, game.ownerCut);
    var afterPlayer1 := Adjust(balances, game.player1, -game.entryFee);
    var afterPlayer2 :=
      match game.player2
      case Some(player2) => Adjust(afterPlayer1, player2, -game.entryFee)
      case None => afterPlayer1;
    var afterWinner := Adjust(afterPlayer2, winner, s.winnerShare);
    Adjust(afterWinner, game.player1, s.ownerShare)
  }

  /** Reference definition of how one user's balance moves in a settlement,
      written role by role rather than update by update. Roles add up: a
      player who is also the winner, or a game joined by its own player 1,
      collects every applicable term. */
  function ExpectedDelta(game: Game, winner: int, user: int): real {
    var s := ComputeShares(game.entryFee, game.ownerCut);
    (if user == game.player1 then s.ownerShare - game.entryFee else 0.0)
    + (if game.player2 == Some(user) then -game.entryFee else 0.0)
    + (if user == winner then s.winnerShare else 0.0)
  }

  /** `end_game` leaves its game row alone, so a second call on the same game
      settles it again: every existing balance moves by twice its delta. */
  lemma SettleTwice(balances: map<int, real>, game: Game, winner: int, user: int)
    requires user in balances
    ensures Settle(Settle(balances, game, winner), game, winner)[user]
         == balances[user] + 2.0 * ExpectedDelta(game, winner, user)
  {
  }

  /** The money in the ledger moves by the sum of the updates that found
      their row: an update aimed at a missing user adds or removes nothing. */
  lemma {:induction false} SettleTotal(balances: map<int, real>, game: Game, winner: int)
    ensures var s := ComputeShares(game.entryFee, game.ownerCut);
            Total(Settle(balances, game, winner)) == Total(balances)
              + (if game.player1 in balances then s.ownerShare - game.entryFee else 0.0)
              + (if game.player2.Some? && game.player2.value in balances then -game.entryFee else 0.0)
              + (if winner in balances then s.winnerShare else 0.0)
  {
    var s := ComputeShares(game.entryFee, game.ownerCut);
    var afterPlayer1 := Adjust(balances, game.player1, -game.entryFee);
    TotalAdjust(balances, game.player1, -game.entryFee);
    var afterPlayer2 :=
      match game.player2
      case Some(player2) => Adjust(afterPlayer1, player2, -game.entryFee)
      case None => afterPlayer1;
    if game.player2.Some? {
      TotalAdjust(afterPlayer1, game.player2.value, -game.entryFee);
    }
    var afterWinner := Adjust(afterPlayer2, winner, s.winnerShare);
    TotalAdjust(afterPlayer2, winner, s.winnerShare);
    TotalAdjust(afterWinner, game.player1, s.ownerShare);
  }

  /** Conservation: when every referenced user exists, a settlement of a
      joined game moves no money in or out of the ledger; a game nobody
      joined adds one entry fee, because the pool counts a fee that was
      never collected. */
  lemma {:induction false} SettleConservation(balances: map<int, real>, game: Game, winner: int)
    requires game.player1 in balances && winner in balances
    requires game.player2.Some? ==> game.player2.value in balances
    ensures Total(Settle(balances, game, winner))
         == Total(balances) + (if game.player2.Some? then 0.0 else game.entryFee)
  {
    SettleTotal(balances, game, winner);
  }

  /** Two players start with 500 each; player 1 wins a game with fee 100 and
      a 10 percent cut. Player 1 pays 100 and collects both the 180 prize and
      the 20 owner's share; player 2 pays 100. */
  lemma SettleExample()
    ensures Settle(map[1 := 500.0, 2 := 500.0], Game(1, 1, Some(2), 100.0, 10.0, Active), 1)
         == map[1 := 600.0, 2 := 400.0]
  {
  }
}
