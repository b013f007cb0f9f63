/**
 * The freshness and contribution logic of the Express/PostgreSQL server (dist/server.js).
 * "Now" is a parameter, dates arrive already parsed into millisecond instants, and
 * the database is the sequence of rows it would hold.
 */
module ServerJs {
  import opened Options
  import opened Json
  import opened Freshness
  import opened Rounding
  import opened Records

  /**
   * `diffDays` as the JavaScript number it is: a whole day count, or NaN when the
   * purchase date does not parse (`new Date("junk").getTime()` is NaN).
   */
  datatype DayCount = Days(n: int) | NotANumber

  /** `diffDays <= k`; every comparison with NaN is false. */
  predicate AtMost(diffDays: DayCount, k: int)
    ensures diffDays.NotANumber? ==> !AtMost(diffDays, k)
    ensures diffDays.Days? ==> (AtMost(diffDays, k) <==> diffDays.n <= k)
  {
    diffDays.Days? && diffDays.n <= k
  }

  /** The elapsed-day count of `predictFreshness`: the ceiling of the distance in days. */
  function DiffDays(nowMs: int, purchased: Option<int>): (d: DayCount)
    ensures d.NotANumber? <==> purchased.None?
    ensures purchased.Some? ==> d == Days(CeilDays(nowMs, purchased.value))
  {
    match purchased
    case None => NotANumber
    case Some(p) => Days(CeilDays(nowMs, p))
  }

  /** The decision chain of `predictFreshness`, from the day count onwards. */
  function Classify(diffDays: DayCount, storageLocation: string): (s: Status)
    ensures diffDays.Days? ==> s == Policy(diffDays.n, storageLocation)
    // With NaN every threshold test fails, so each location falls to its last branch.
    ensures diffDays.NotANumber? ==>
              (s == Warning <==> storageLocation == "freezer") &&
              (s == Critical <==> storageLocation == "roomTemp")
  {
    if storageLocation == "refrigerator" then
      if AtMost(diffDays, 1) then Critical
      else if AtMost(diffDays, 3) then Warning
      else Normal
    else if storageLocation == "freezer" then
      if AtMost(diffDays, 30) then Normal
      else Warning
    else if storageLocation == "roomTemp" then
      if AtMost(diffDays, 0) then Critical
      else if AtMost(diffDays, 1) then Warning
      else Critical
    else Normal
  }

  /** `predictFreshness(purchaseDate, storageLocation)` at the instant `nowMs`. */
  function PredictFreshness(nowMs: int, purchased: Option<int>, storageLocation: string): (s: Status)
    ensures purchased.Some? ==> s == Policy(CeilDays(nowMs, purchased.value), storageLocation)
    ensures purchased.None? ==> s == Classify(NotANumber, storageLocation)
    ensures purchased == Some(nowMs) ==> (s == Critical <==> storageLocation in {"refrigerator", "roomTemp"})
  {
    Classify(DiffDays(nowMs, purchased), storageLocation)
  }

  /**
   * The listing: `rows.map(ingredient => ({...ingredient, status: predictFreshness(...)}))`.
   * `instantOf` stands for `new Date(...)` on the stored purchase date.
   */
  function Annotate(rows: seq<Ingredient>, nowMs: int, instantOf: string -> Option<int>): (r: seq<Listed>)
    ensures |r| == |rows|
    ensures forall i :: 0 <= i < |rows| ==>
              r[i].ingredient == rows[i] &&
              r[i].status == PredictFreshness(nowMs, instantOf(rows[i].purchaseDate), rows[i].storageLocation)
  {
    if rows == [] then []
    else
      [Listed(rows[0], PredictFreshness(nowMs, instantOf(rows[0].purchaseDate), rows[0].storageLocation))]
      + Annotate(rows[1..], nowMs, instantOf)
  }

  /** The registration check `!name || !purchaseDate || !storageLocation` fails to reject. */
  predicate ValidRegistration(body: map<string, Value>) {
    Truthy(Field(body, "name")) && Truthy(Field(body, "purchaseDate")) && Truthy(Field(body, "storageLocation"))
  }

  /** What every stored registration satisfies: all three values truthy. */
  predicate Registered(store: seq<Registration>) {
    forall i :: 0 <= i < |store| ==>
      Truthy(Some(store[i].name)) && Truthy(Some(store[i].purchaseDate)) && Truthy(Some(store[i].storageLocation))
  }

  /**
   * `POST /api/ingredients`: 400 (ValidationError) with no insert when a field is falsy;
   * otherwise the insert, which `insertOk` says succeeds (201) or fails (500).
   */
  function Register(store: seq<Registration>, body: map<string, Value>, insertOk: bool): (r: Reply<Registration>)
    ensures r.outcome == ValidationError <==> !ValidRegistration(body)
    ensures r.outcome == StorageError <==> ValidRegistration(body) && !insertOk
    ensures r.outcome != Created ==> r.store == store
    ensures r.outcome == Created ==>
              r.store == store + [Registration(body["name"], body["purchaseDate"], body["storageLocation"])]
    ensures Registered(store) ==> Registered(r.store)
  {
    if !ValidRegistration(body) then Reply(ValidationError, store)
    else if !insertOk then Reply(StorageError, store)
    else Reply(Created, store + [Registration(body["name"], body["purchaseDate"], body["storageLocation"])])
  }

  /** The contribution check `typeof amount_g !== 'number' || amount_g <= 0` fails to reject. */
  predicate ValidAmount(amount: Option<Value>) {
    amount.Some? && amount.value.Number? && amount.value.n > 0.0
  }

  /**
   * `POST /api/contribution/add`: 400 with no insert unless `amount_g` is a positive
   * number; otherwise the insert, which succeeds or fails as `insertOk` says.
   */
  function AddContribution(amounts: seq<real>, body: map<string, Value>, insertOk: bool): (r: Reply<real>)
    ensures r.outcome == ValidationError <==> !ValidAmount(Field(body, "amount_g"))
    ensures r.outcome == StorageError <==> ValidAmount(Field(body, "amount_g")) && !insertOk
    ensures r.outcome != Created ==> r.store == amounts
    ensures r.outcome == Created ==> insertOk && r.store == amounts + [body["amount_g"].n]
    ensures AllPositive(amounts) ==> AllPositive(r.store)
  {
    var amount := Field(body, "amount_g");
    if !ValidAmount(amount) then Reply(ValidationError, amounts)
    else if !insertOk then Reply(StorageError, amounts)
    else Reply(Created, amounts + [amount.value.n])
  }

  /**
   * `GET /api/contribution`: `total_g` is the sum with NULL (and 0) coerced to 0,
   * `co2_equivalent_kg` is `Math.round(total * 0.002 * 10) / 10` and
   * `saved_amount_yen` is `Math.round(total * 1)`.
   */
  function Aggregate(sum: Option<real>): (c: Contribution)
    ensures c.totalG == sum.GetOr(0.0)
    ensures (c.co2EquivalentKg * 10.0).Floor as real == c.co2EquivalentKg * 10.0
    ensures c.totalG * 0.002 - 0.05 < c.co2EquivalentKg <= c.totalG * 0.002 + 0.05
    ensures c.totalG - 0.5 < c.savedAmountYen as real <= c.totalG + 0.5
  {
    var totalLossSaved := if sum.Some? && sum.value != 0.0 then sum.value else 0.0;
    var co2Equivalent := MathRound(totalLossSaved * 0.002 * 10.0) as real / 10.0;
    var savedAmount := MathRound(totalLossSaved * 1.0);
    Contribution(totalLossSaved, co2Equivalent, savedAmount)
  }
}
