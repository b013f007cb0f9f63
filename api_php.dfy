/**
 * The PHP endpoint (dist/api.php): its own `predictFreshness`, which counts days with
 * `DateTime::diff`, the registration and contribution checks, the in-place listing loop
 * and the contribution summary.
 */
module ApiPhp {
  import opened Options
  import opened Json
  import opened Freshness
  import opened Rounding
  import opened Records

  /** The decision chain of this `predictFreshness`, on the whole-day count `$diff`. */
  function Classify(diff: int, storageLocation: string): (s: Status)
    ensures s == Policy(diff, storageLocation)
  {
    if storageLocation == "refrigerator" then
      if diff <= 1 then Critical
      else if diff <= 3 then Warning
      else Normal
    else if storageLocation == "freezer" then
      if diff <= 30 then Normal
      else Warning
    else if storageLocation == "roomTemp" then
      if diff <= 0 then Critical
      else if diff <= 1 then Warning
      else Critical
    else Normal
  }

  /** `predictFreshness($purchaseDate, $storageLocation)` at the instant `nowMs`. */
  function PredictFreshness(nowMs: int, purchasedMs: int, storageLocation: string): (s: Status)
    ensures s == Policy(FloorDays(nowMs, purchasedMs), storageLocation)
    ensures storageLocation == "roomTemp" && Distance(nowMs, purchasedMs) < DayMs ==> s == Critical
  {
    Classify(FloorDays(nowMs, purchasedMs), storageLocation)
  }

  /** A fetched row as a PHP associative array: its columns, and `status` once it is set. */
  datatype PhpRow = PhpRow(ingredient: Ingredient, status: Option<Status>)

  /**
   * `foreach ($ingredients as &$ingredient) $ingredient['status'] = predictFreshness(...)`.
   * `instantOf` stands for `new DateTime(...)` on the stored purchase date.
   * Every row keeps its columns and position and gains its computed status.
   */
  method AnnotateInPlace(ingredients: array<PhpRow>, nowMs: int, instantOf: string -> int)
    modifies ingredients
    ensures forall k :: 0 <= k < ingredients.Length ==>
              ingredients[k].ingredient == old(ingredients[k].ingredient) &&
              ingredients[k].status == Some(PredictFreshness(nowMs,
                instantOf(ingredients[k].ingredient.purchaseDate), ingredients[k].ingredient.storageLocation))
  {
    var i := 0;
    while i < ingredients.Length
      invariant 0 <= i <= ingredients.Length
      invariant forall k :: 0 <= k < i ==>
                  ingredients[k].ingredient == old(ingredients[k].ingredient) &&
                  ingredients[k].status == Some(PredictFreshness(nowMs,
                    instantOf(ingredients[k].ingredient.purchaseDate), ingredients[k].ingredient.storageLocation))
      invariant forall k :: i <= k < ingredients.Length ==> ingredients[k] == old(ingredients[k])
    {
      var row := ingredients[i].ingredient;
      ingredients[i] := ingredients[i].(status := Some(PredictFreshness(nowMs, instantOf(row.purchaseDate), row.storageLocation)));
      i := i + 1;
    }
  }

  /** The POST check `empty($name) || empty($purchaseDate) || empty($storageLocation)` fails to reject. */
  predicate ValidRegistration(input: map<string, Value>) {
    !PhpEmpty(Coalesce(input, "name", Str(""))) &&
    !PhpEmpty(Coalesce(input, "purchaseDate", Str(""))) &&
    !PhpEmpty(Coalesce(input, "storageLocation", Str("")))
  }

  /** What every stored registration satisfies: no value is `empty`. */
  predicate Registered(store: seq<Registration>) {
    forall i :: 0 <= i < |store| ==>
      !PhpEmpty(store[i].name) && !PhpEmpty(store[i].purchaseDate) && !PhpEmpty(store[i].storageLocation)
  }

  /**
   * POST: missing or null fields default to `''`; an `empty` field gives the error
   * envelope and no insert; otherwise the insert, which succeeds or fails as `insertOk` says.
   */
  function Register(store: seq<Registration>, input: map<string, Value>, insertOk: bool): (r: Reply<Registration>)
    ensures r.outcome == ValidationError <==> !ValidRegistration(input)
    ensures r.outcome == StorageError <==> ValidRegistration(input) && !insertOk
    ensures r.outcome != Created ==> r.store == store
    ensures r.outcome == Created ==>
              r.store == store + [Registration(input["name"], input["purchaseDate"], input["storageLocation"])]
    ensures Registered(store) ==> Registered(r.store)
  {
    var name := Coalesce(input, "name", Str(""));
    var purchaseDate := Coalesce(input, "purchaseDate", Str(""));
    var storageLocation := Coalesce(input, "storageLocation", Str(""));
    if PhpEmpty(name) || PhpEmpty(purchaseDate) || PhpEmpty(storageLocation) then Reply(ValidationError, store)
    else if !insertOk then Reply(StorageError, store)
    else Reply(Created, store + [Registration(name, purchaseDate, storageLocation)])
  }

  /**
   * `action=add_contribution`: `$input['amount_g'] ?? 0`, where `amount` is `None` for a
   * missing or null field; an amount `<= 0` gives the error envelope and no insert.
   */
  function AddContribution(amounts: seq<real>, amount: Option<real>, insertOk: bool): (r: Reply<real>)
    ensures r.outcome == ValidationError <==> amount.GetOr(0.0) <= 0.0
    ensures r.outcome == StorageError <==> amount.GetOr(0.0) > 0.0 && !insertOk
    ensures r.outcome != Created ==> r.store == amounts
    ensures r.outcome == Created ==> insertOk && r.store == amounts + [amount.value]
    ensures AllPositive(amounts) ==> AllPositive(r.store)
  {
    var a := amount.GetOr(0.0);
    if a <= 0.0 then Reply(ValidationError, amounts)
    else if !insertOk then Reply(StorageError, amounts)
    else Reply(Created, amounts + [a])
  }

  /**
   * `action=contribution`: a falsy sum becomes 0, then `round($total * 0.002, 1)` and
   * `round($total * 1, 0)`, both rounding ties away from zero.
   */
  function Aggregate(sum: Option<real>): (c: Contribution)
    ensures c.totalG == sum.GetOr(0.0)
    ensures (c.co2EquivalentKg * 10.0).Floor as real == c.co2EquivalentKg * 10.0
    ensures c.totalG >= 0.0 ==>
              c.totalG * 0.002 - 0.05 < c.co2EquivalentKg <= c.totalG * 0.002 + 0.05 &&
              c.totalG - 0.5 < c.savedAmountYen as real <= c.totalG + 0.5
    ensures c.totalG < 0.0 ==>
              c.totalG * 0.002 - 0.05 <= c.co2EquivalentKg < c.totalG * 0.002 + 0.05 &&
              c.totalG - 0.5 <= c.savedAmountYen as real < c.totalG + 0.5
  {
    var fetched := sum;
    var totalLossSaved := if fetched.Some? && fetched.value != 0.0 then fetched.value else 0.0;
    var co2Equivalent := PhpRoundTenths(totalLossSaved * 0.002);
    var savedAmount := PhpRound(totalLossSaved * 1.0);
    Contribution(totalLossSaved, co2Equivalent, savedAmount)
  }
}
