/**
 * What the three copies of `predictFreshness` have in common: the urgency tags, the two
 * ways they count elapsed days, and the storage policy table they all implement.
 */
module Freshness {

  /** The urgency tag attached to every listed ingredient. */
  datatype Status = Critical | Warning | Normal {
    /** The string the servers put in the `status` field; distinct tags give distinct strings. */
    function Name(): (n: string)
      ensures n in {"critical", "warning", "normal"}
    {
      match this
      case Critical => "critical"
      case Warning => "warning"
      case Normal => "normal"
    }
  }

  /** Distinct tags are reported as distinct strings, so a client can tell them apart. */
  lemma StatusNamesDistinct(s: Status, t: Status)
    ensures s.Name() == t.Name() ==> s == t
  {
  }

  /** Milliseconds in a day, `1000 * 60 * 60 * 24`. */
  const DayMs: int := 1000 * 60 * 60 * 24

  /** `Math.abs(a - b)` on millisecond timestamps. */
  function Distance(a: int, b: int): nat {
    if a >= b then a - b else b - a
  }

  /**
   * The JavaScript day count `Math.ceil(Math.abs(today - purchased) / 86400000)`:
   * the least number of whole days that covers the distance between the two instants.
   */
  function CeilDays(nowMs: int, purchasedMs: int): (d: nat)
    ensures (d - 1) * DayMs < Distance(nowMs, purchasedMs) <= d * DayMs
    ensures d == 0 <==> nowMs == purchasedMs
  {
    (Distance(nowMs, purchasedMs) + DayMs - 1) / DayMs
  }

  /**
   * The PHP day count `$today->diff($purchased)->days`: the number of whole days
   * contained in the distance between the two instants.
   */
  function FloorDays(nowMs: int, purchasedMs: int): (d: nat)
    ensures d * DayMs <= Distance(nowMs, purchasedMs) < (d + 1) * DayMs
  {
    Distance(nowMs, purchasedMs) / DayMs
  }

  /** Both day counts are symmetric in the two instants. */
  lemma DayCountsSymmetric(nowMs: int, purchasedMs: int)
    ensures CeilDays(nowMs, purchasedMs) == CeilDays(purchasedMs, nowMs)
    ensures FloorDays(nowMs, purchasedMs) == FloorDays(purchasedMs, nowMs)
  {
  }

  /**
   * The two day counts differ by at most one, and they agree exactly when the
   * two instants are a whole number of days apart.
   */
  lemma DayCountsRelated(nowMs: int, purchasedMs: int)
    ensures FloorDays(nowMs, purchasedMs) <= CeilDays(nowMs, purchasedMs) <= FloorDays(nowMs, purchasedMs) + 1
    ensures CeilDays(nowMs, purchasedMs) == FloorDays(nowMs, purchasedMs)
            <==> Distance(nowMs, purchasedMs) % DayMs == 0
  {
  }

  /** Two distinct instants less than a day apart: PHP counts 0 days, JavaScript counts 1. */
  lemma SameDayCounts(nowMs: int, purchasedMs: int)
    requires 0 < Distance(nowMs, purchasedMs) < DayMs
    ensures FloorDays(nowMs, purchasedMs) == 0
    ensures CeilDays(nowMs, purchasedMs) == 1
  {
  }

  /** The storage locations the policy distinguishes; any other tag is unrecognised. */
  datatype Storage = Refrigerator | Freezer | RoomTemp | Unrecognised

  function StorageOf(tag: string): Storage {
    if tag == "refrigerator" then Refrigerator
    else if tag == "freezer" then Freezer
    else if tag == "roomTemp" then RoomTemp
    else Unrecognised
  }

  /** The column of the policy table an elapsed-day count falls in: <= 0, 1, 2-3, 4-30, > 30. */
  function Column(days: int): (c: nat)
    ensures c < 5
  {
    if days <= 0 then 0
    else if days <= 1 then 1
    else if days <= 3 then 2
    else if days <= 30 then 3
    else 4
  }

  /** One row of the policy table per storage location, one entry per column. */
  function TableRow(storage: Storage): (r: seq<Status>)
    ensures |r| == 5
  {
    match storage
    case Refrigerator => [Critical, Critical, Warning, Normal, Normal]
    case Freezer => [Normal, Normal, Normal, Normal, Warning]
    case RoomTemp => [Critical, Warning, Critical, Critical, Critical]
    case Unrecognised => [Normal, Normal, Normal, Normal, Normal]
  }

  /**
   * The storage policy as a table lookup. It is the reference the branch chains
   * of the three copies are proved against.
   */
  function Policy(days: int, tag: string): (s: Status)
    ensures tag == "refrigerator" ==>
              (s == Critical <==> days <= 1) && (s == Warning <==> 2 <= days <= 3) && (s == Normal <==> days >= 4)
    ensures tag == "freezer" ==> s != Critical && (s == Normal <==> days <= 30)
    ensures tag == "roomTemp" ==> s != Normal && (s == Warning <==> days == 1)
    ensures tag != "refrigerator" && tag != "freezer" && tag != "roomTemp" ==> s == Normal
  {
    TableRow(StorageOf(tag))[Column(days)]
  }
}
