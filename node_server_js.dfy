/**
 * The SQLite variant of the server (dist/food-challenge-nodejs/server.js). It repeats the
 * freshness, validation, listing and contribution logic of dist/server.js line for line;
 * each member below is that repetition, proved equal to its counterpart in `ServerJs`.
 */
module NodeServerJs {
  import opened Options
  import opened Json
  import opened Freshness
  import opened Rounding
  import opened Records
  import ServerJs

  type DayCount = ServerJs.DayCount

  /** This copy's decision chain of `predictFreshness`. */
  function Classify(diffDays: DayCount, storageLocation: string): (s: Status)
    ensures s == ServerJs.Classify(diffDays, storageLocation)
  {
    if storageLocation == "refrigerator" then
      if ServerJs.AtMost(diffDays, 1) then Critical
      else if ServerJs.AtMost(diffDays, 3) then Warning
      else Normal
    else if storageLocation == "freezer" then
      if ServerJs.AtMost(diffDays, 30) then Normal
      else Warning
    else if storageLocation == "roomTemp" then
      if ServerJs.AtMost(diffDays, 0) then Critical
      else if ServerJs.AtMost(diffDays, 1) then Warning
      else Critical
    else Normal
  }

  /** This copy's `predictFreshness`, with its own ceiling day count. */
  function PredictFreshness(nowMs: int, purchased: Option<int>, storageLocation: string): (s: Status)
    ensures s == ServerJs.PredictFreshness(nowMs, purchased, storageLocation)
    ensures purchased.Some? ==> s == Policy(CeilDays(nowMs, purchased.value), storageLocation)
  {
    var diffDays := match purchased
      case None => ServerJs.NotANumber
      case Some(p) => ServerJs.Days(CeilDays(nowMs, p));
    Classify(diffDays, storageLocation)
  }

  /** This copy's listing map. */
  function Annotate(rows: seq<Ingredient>, nowMs: int, instantOf: string -> Option<int>): (r: seq<Listed>)
    ensures r == ServerJs.Annotate(rows, nowMs, instantOf)
  {
    if rows == [] then []
    else
      [Listed(rows[0], PredictFreshness(nowMs, instantOf(rows[0].purchaseDate), rows[0].storageLocation))]
      + Annotate(rows[1..], nowMs, instantOf)
  }

  /** This copy's `POST /api/ingredients`. */
  function Register(store: seq<Registration>, body: map<string, Value>, insertOk: bool): (r: Reply<Registration>)
    ensures r == ServerJs.Register(store, body, insertOk)
  {
    var name, purchaseDate, storageLocation :=
      Field(body, "name"), Field(body, "purchaseDate"), Field(body, "storageLocation");
    if !Truthy(name) || !Truthy(purchaseDate) || !Truthy(storageLocation) then Reply(ValidationError, store)
    else if !insertOk then Reply(StorageError, store)
    else Reply(Created, store + [Registration(name.value, purchaseDate.value, storageLocation.value)])
  }

  /** This copy's `POST /api/contribution/add`. */
  function AddContribution(amounts: seq<real>, body: map<string, Value>, insertOk: bool): (r: Reply<real>)
    ensures r == ServerJs.AddContribution(amounts, body, insertOk)
  {
    match Field(body, "amount_g")
    case Some(Number(n)) =>
      if n <= 0.0 then Reply(ValidationError, amounts)
      else if !insertOk then Reply(StorageError, amounts)
      else Reply(Created, amounts + [n])
    case _ => Reply(ValidationError, amounts)
  }

  /** This copy's `GET /api/contribution`. */
  function Aggregate(sum: Option<real>): (c: Contribution)
    ensures c == ServerJs.Aggregate(sum)
  {
    var totalLossSaved := if sum.Some? && sum.value != 0.0 then sum.value else 0.0;
    Contribution(totalLossSaved, MathRound(totalLossSaved * 0.002 * 10.0) as real / 10.0, MathRound(totalLossSaved * 1.0))
  }
}
