/**
 * The entities the request handlers exchange with storage: an inserted registration,
 * an ingredient row as it is read back, the contribution amounts and their SQL sum, and
 * the three-field contribution summary.
 */
module Records {
  import opened Options
  import opened Json
  import opened Freshness

  /** A row of the `ingredients` table as a `SELECT *` returns it (all columns as stored). */
  datatype Ingredient = Ingredient(
    id: int,
    name: string,
    purchaseDate: string,
    storageLocation: string,
    addedAt: string)

  /** A listed ingredient: every column of its row, plus the computed `status`. */
  datatype Listed = Listed(ingredient: Ingredient, status: Status)

  /** The three values a registration hands to `INSERT INTO ingredients`. */
  datatype Registration = Registration(name: Value, purchaseDate: Value, storageLocation: Value)

  /** How a write request ends: inserted, refused by validation, or failed in storage. */
  datatype Outcome = Created | ValidationError | StorageError

  /** A write request's outcome together with the store after it. */
  datatype Reply<T> = Reply(outcome: Outcome, store: seq<T>)

  /** The body of a successful contribution read. */
  datatype Contribution = Contribution(totalG: real, co2EquivalentKg: real, savedAmountYen: int)

  /** The sum of the contribution amounts, added from the front. */
  function Sum(amounts: seq<real>): real {
    if amounts == [] then 0.0 else amounts[0] + Sum(amounts[1..])
  }

  /** `SELECT SUM(amount_g)`: NULL over an empty table, the sum otherwise. */
  function SqlSum(amounts: seq<real>): (r: Option<real>)
    ensures r.None? <==> amounts == []
    ensures r.Some? ==> r.value == Sum(amounts)
  {
    if amounts == [] then None else Some(Sum(amounts))
  }

  /** Every recorded amount is positive (the contribution table's invariant). */
  predicate AllPositive(amounts: seq<real>) {
    forall i :: 0 <= i < |amounts| ==> amounts[i] > 0.0
  }

  /** Appending an amount adds it to the sum. */
  lemma {:induction false} SumAppend(amounts: seq<real>, x: real)
    ensures Sum(amounts + [x]) == Sum(amounts) + x
  {
    if amounts == [] {
      assert [] + [x] == [x];
    } else {
      assert (amounts + [x])[1..] == amounts[1..] + [x];
      SumAppend(amounts[1..], x);
    }
  }

  /** The sum of positive amounts is never negative, and positive once there is one. */
  lemma {:induction false} SumOfPositives(amounts: seq<real>)
    requires AllPositive(amounts)
    ensures Sum(amounts) >= 0.0
    ensures amounts != [] ==> Sum(amounts) > 0.0
  {
    if amounts != [] {
      SumOfPositives(amounts[1..]);
    }
  }
}
