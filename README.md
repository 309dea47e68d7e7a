# spinludo game escrow, modelled in Dafny

spinludo is a two-player wagering server. Player 1 creates a game with an
entry fee and an owner cut, and player 2 joins it. When the game ends, the pool
of both fees is split between the winner and the owner's cut. The server keeps
two PostgreSQL tables, `games(id, player1_id, player2_id, entry_fee, owner_cut,
status)` and `users(id, balance)`. Its four handlers are `create_game`,
`join_game`, `start_game` and `end_game`, and each one is a state transition
over those tables.

This project models those transitions as the code writes them:

- `ledger.dfy` (module `Ledger`) holds the `users` table as a map from id to
  balance. `UPDATE users SET balance = balance ± x WHERE id = u` becomes
  `Adjust`, which changes nothing when no row matches. The ghost function
  `Total` sums every balance, so conservation can be stated.
- `games.dfy` (module `Games`) holds the `Game` row and its `Status`, which is
  only ever `Waiting` or `Active`. It also holds the two guarded
  `UPDATE games` statements as `Joined` and `Started`, and the row invariant
  they keep: a second player is only written together with status `Active`.
- `settlement.dfy` (module `Settlement`) holds the exact share arithmetic of
  `end_game` (`ComputeShares`) and its four balance updates in source order
  (`Settle`). It also holds a role-by-role reference delta (`ExpectedDelta`)
  and the lemmas that connect them.
- `handlers.dfy` (module `Handlers`) holds the class `Database`. Its fields are
  the two tables and the id sequence, and its four methods update them in
  place. Each method's `ensures` ties the new state to the functions above.
  `Scenario` drives a whole game through the methods' contracts alone.

`BigDecimal` and `NUMERIC` add, subtract and multiply exactly, and dividing by
100 is exact, so amounts are Dafny `real`s.

The model follows the code, not an idealised escrow:

- no game is ever marked settled;
- the owner's cut goes to `player1_id`;
- `end_game` checks neither the status nor the winner, never changes the game
  row, and so settles again on every call;
- the four balance updates are independent statements with no transaction
  around them;
- `join_game` and `start_game` report success even when their update matched
  no row;
- the entry fee and owner cut are never validated.

## Model

| member | source | states |
|---|---|---|
| Ledger.Adjust | src/main.rs:174-223 | a balance update keeps the set of users, moves the target user's balance by exactly the delta and leaves every other balance alone; an id with no row changes nothing |
| Ledger.TotalAdjust | src/main.rs:174-223 | one balance update moves the ledger's total by its delta when the user exists and by nothing otherwise |
| Games.Joined | src/main.rs:102-107 | join keeps the set of games and leaves other games alone; on a game with no second player it sets `player2_id` and status `Active` and keeps id, player 1, fee and cut; on a game with a second player, or an unknown id, nothing changes; consistent tables stay consistent |
| Games.Started | src/main.rs:126-131 | start keeps the set of games, changes only the status of a waiting game to `Active`, leaves active games and unknown ids unchanged, and keeps tables consistent |
| Games.JoinOnlyOnce | src/main.rs:104-106 | of two joins on one game only the first has an effect: the second seat is set at most once |
| Games.StartIdempotent | src/main.rs:128-130 | starting a game twice equals starting it once |
| Games.StartThenJoin | src/main.rs:102-131 | on consistent tables, a start before a join does not change the join's outcome, because join matches the empty seat, not the status |
| Games.JoinThenStart | src/main.rs:102-131 | on consistent tables, a start after a join changes nothing |
| Games.StartedWithoutSecondPlayer | src/main.rs:126-131 | start activates a game with no second player, and that game can still be joined, so `Active` does not imply a second player |
| Settlement.ComputeShares | src/main.rs:169-171 | the pool is two entry fees, the owner's share is `owner_cut` percent of the pool, and owner's share plus winner's share is exactly the pool |
| Settlement.SharesBounded | src/main.rs:169-171 | with fee ≥ 0 and cut in [0, 100], both shares lie in [0, pool] |
| Settlement.OverCutDebitsWinner | src/main.rs:169-171 | an unvalidated cut above 100 with a positive fee makes the winner's share negative |
| Settlement.SharesExample | src/main.rs:169-171 | fee 100 and cut 10 give pool 200, owner 20 and winner 180 |
| Settlement.Settle | src/main.rs:174-223 | the four balance updates never add or remove a user row, and each existing user's balance moves by the role-based `ExpectedDelta`: player 1 by `owner_share - fee`, player 2 by `-fee`, the winner by `winner_share`, added up when roles coincide; every other user is untouched |
| Settlement.SettleTwice | src/main.rs:149-229 | ending the same game twice moves every balance by twice its delta, because the game row is never changed |
| Settlement.SettleTotal | src/main.rs:174-223 | the ledger's total moves by the sum of exactly those updates whose user exists |
| Settlement.SettleConservation | src/main.rs:169-223 | when all referenced users exist, ending a joined game conserves the total, and ending an unjoined game adds one entry fee |
| Settlement.SettleExample | src/main.rs:169-223 | balances 500/500, fee 100, cut 10, player 1 wins: player 1 ends with 600 and player 2 with 400 |
| Handlers.Database.CreateGame | src/main.rs:63-88 | adds exactly one game under a fresh id with player 1 = 1, no player 2, status `Waiting` and the given fee and cut; other games and all balances unchanged |
| Handlers.Database.JoinGame | src/main.rs:96-118 | the games table becomes `Joined` of the old one, balances are unchanged, and the reply is always the success message |
| Handlers.Database.StartGame | src/main.rs:121-141 | the games table becomes `Started` of the old one, balances are unchanged, and the reply is always the success message |
| Handlers.Database.EndGame | src/main.rs:149-229 | an unknown game id changes nothing and replies with the error; a known one leaves the games table unchanged, sets balances to `Settle` of the old balances, and replies with success |
| Handlers.Scenario | src/main.rs:63-229 | create, join, a late second join, start, and end with player 1 winning leave balances 600 and 400 |

## Left out

- HTTP routing, the actix-web server, JSON request and response bodies, the
  HTML pages and static files: each handler's response is reduced to a
  `Reply` (or the created `Game`) that carries the message the code sends.
- Database bootstrap (`init_db`, environment variables, the connection pool)
  and the health-check server in `src/main1.rs`, which holds no logic.
- SQL errors: the `Err` branches of `create_game`, `join_game` and
  `start_game` fire on any SQL error (connection failure, constraint
  violation, numeric or id-sequence overflow), and none of these is
  modelled. In `end_game` the modelled `Err` branch is the missing row.
- Handlers.Database.EndGame: a failed `UPDATE users` is not modelled. In the
  code each update's result is discarded, so a failed update leaves that
  balance unchanged, the remaining updates still run, and the reply still
  reports success. A partial settlement is therefore a real outcome that the
  contract `balances == Settle(old(balances), ...)` does not cover, and
  `Settlement.SettleConservation` holds only when all four updates apply.
- Concurrency, async execution and SQL transactions: each `UPDATE` is one
  atomic step on the map, and the four steps of `end_game` run one after the
  other with nothing around them.
- Handlers.Database.CreateGame: does not model 32-bit overflow of the
  `INTEGER` id sequence. Ids, player ids and winner ids are unbounded
  integers, so JSON values outside `i32` are not modelled either.
- Settlement.ComputeShares: does not model `BigDecimal`'s limit of
  significant digits for division. The shares are exact reals, and they can
  carry more decimal places than the fee and cut do.
- Handlers.Database.CreateGame: does not model rounding of the fee and cut
  to the scale or precision of their `NUMERIC` columns on insert; the schema
  is not part of this model.
- Settlement.Settle: does not model rounding of each updated balance to the
  scale of the `balance` column. Every update is exact.
- Settlement.SettleConservation: is proved for exact amounts only. With
  rounding on store it can fail. For example, with a fee of 0.01 and a cut of
  25, the owner gets 0.005 and the winner 0.015. A two-place balance column
  would round those credits to 0.01 and 0.02, so 0.03 would be credited
  against 0.02 debited.
- Handlers.Database.EndGame: stores the exact results of `Settle`, with no
  rounding to the column scale.
- The `username` column of `users` is never read or written by these
  handlers, so only balances are kept.
- The browser scripts under `static/js/` are UI only and are not part of this
  model.
