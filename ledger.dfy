/** The `users(id, balance)` table, reduced to what the escrow engine touches:
    a map from user id to balance. `BigDecimal` and PostgreSQL `NUMERIC`
    add and subtract exactly, so balances are Dafny reals. */
module Ledger {

  /** `UPDATE users SET balance = balance + delta WHERE id = user`: a row is
      updated when the user exists; an id with no row matches nothing, and
      nothing is inserted. A debit is an adjustment by a negative delta. */
  function Adjust(balances: map<int, real>, user: int, delta: real): (r: map<int, real>)
    ensures r.Keys == balances.Keys
    ensures user in balances ==> r[user] == balances[user] + delta
    ensures forall u :: u in balances && u != user ==> r[u] == balances[u]
  {
    if user in balances then balances[user := balances[user] + delta] else balances
  }

  /** Some user id of a non-empty ledger. */
  ghost function PickKey(balances: map<int, real>): (k: int)
    requires balances != map[]
    ensures k in balances
  {
    assert exists k :: k in balances by {
      if forall k :: k !in balances {
        assert false;
      }
    }
    var k :| k in balances; k
  }

  /** The sum of all balances: the money held in the ledger. */
  ghost function Total(balances: map<int, real>): real
    decreases balances.Keys
  {
    if balances == map[] then 0.0
    else
      var k := PickKey(balances);
      balances[k] + Total(balances - {k})
  }

  /** Any user's balance can be taken out of the total first, whichever key
      the definition of `Total` happens to pick. */
  lemma {:induction false} TotalRemove(balances: map<int, real>, user: int)
    requires user in balances
    ensures Total(balances) == balances[user] + Total(balances - {user})
    decreases balances.Keys
  {
    var k := PickKey(balances);
    if k != user {
      TotalRemove(balances - {k}, user);
      TotalRemove(balances - {user}, k);
      assert balances - {k} - {user} == balances - {user} - {k};
    }
  }

  /** One balance update moves the total by exactly its delta when the user
      exists, and leaves it alone otherwise. */
  lemma {:induction false} TotalAdjust(balances: map<int, real>, user: int, delta: real)
    ensures Total(Adjust(balances, user, delta))
         == Total(balances) + (if user in balances then delta else 0.0)
  {
    if user in balances {
      var after := Adjust(balances, user, delta);
      TotalRemove(balances, user);
      TotalRemove(after, user);
      assert after - {user} == balances - {user};
    }
  }
}
