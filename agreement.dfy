/**
 * How the three copies relate: the same decision table, day counts that differ by at
 * most one, registration checks of different strictness, and contribution summaries
 * that coincide on every store the add-contribution checks can produce.
 */
module Agreement {
  import opened Options
  import opened Json
  import opened Freshness
  import opened Rounding
  import opened Records
  import ServerJs
  import NodeServerJs
  import ApiPhp

  /** Given the same day count, the three decision chains give the same tag for every location. */
  lemma CopiesAgree(days: int, storageLocation: string)
    ensures ServerJs.Classify(ServerJs.Days(days), storageLocation) == Policy(days, storageLocation)
    ensures NodeServerJs.Classify(ServerJs.Days(days), storageLocation) == Policy(days, storageLocation)
    ensures ApiPhp.Classify(days, storageLocation) == Policy(days, storageLocation)
  {
  }

  /**
   * On the same two instants the JavaScript and PHP predictions agree whenever the
   * instants are a whole number of days apart; otherwise JavaScript classifies as PHP
   * would one day later.
   */
  lemma PredictionsAgreeOnWholeDays(nowMs: int, purchasedMs: int, storageLocation: string)
    ensures Distance(nowMs, purchasedMs) % DayMs == 0 ==>
              ServerJs.PredictFreshness(nowMs, Some(purchasedMs), storageLocation)
              == ApiPhp.PredictFreshness(nowMs, purchasedMs, storageLocation)
    ensures Distance(nowMs, purchasedMs) % DayMs != 0 ==>
              ServerJs.PredictFreshness(nowMs, Some(purchasedMs), storageLocation)
              == ApiPhp.Classify(FloorDays(nowMs, purchasedMs) + 1, storageLocation)
  {
    DayCountsRelated(nowMs, purchasedMs);
  }

  /**
   * Two distinct instants within one day: an ingredient kept at room temperature is a
   * `warning` for the JavaScript servers and `critical` for the PHP endpoint.
   */
  lemma RoomTempSameDayDiverges(nowMs: int, purchasedMs: int)
    requires 0 < Distance(nowMs, purchasedMs) < DayMs
    ensures ServerJs.PredictFreshness(nowMs, Some(purchasedMs), "roomTemp") == Warning
    ensures ApiPhp.PredictFreshness(nowMs, purchasedMs, "roomTemp") == Critical
  {
    SameDayCounts(nowMs, purchasedMs);
  }

  /**
   * An ingredient bought at most a day ago is `critical` in the refrigerator and
   * `normal` in the freezer, in all three copies.
   */
  lemma BoughtTodayScenario(nowMs: int, purchasedMs: int)
    requires Distance(nowMs, purchasedMs) <= DayMs
    ensures ServerJs.PredictFreshness(nowMs, Some(purchasedMs), "refrigerator") == Critical
    ensures NodeServerJs.PredictFreshness(nowMs, Some(purchasedMs), "refrigerator") == Critical
    ensures ApiPhp.PredictFreshness(nowMs, purchasedMs, "refrigerator") == Critical
    ensures ServerJs.PredictFreshness(nowMs, Some(purchasedMs), "freezer") == Normal
    ensures NodeServerJs.PredictFreshness(nowMs, Some(purchasedMs), "freezer") == Normal
    ensures ApiPhp.PredictFreshness(nowMs, purchasedMs, "freezer") == Normal
  {
    DayCountsRelated(nowMs, purchasedMs);
  }

  /**
   * PHP's registration check is the stricter one: whatever PHP accepts, JavaScript
   * accepts, but a name of "0" passes JavaScript and fails PHP.
   */
  lemma RegistrationChecksCompared(body: map<string, Value>)
    ensures ApiPhp.ValidRegistration(body) ==> ServerJs.ValidRegistration(body)
    ensures var zero := map["name" := Str("0"), "purchaseDate" := Str("2025-06-01"), "storageLocation" := Str("freezer")];
            ServerJs.ValidRegistration(zero) && !ApiPhp.ValidRegistration(zero)
  {
    FalsyIsEmpty(body, "name");
    FalsyIsEmpty(body, "purchaseDate");
    FalsyIsEmpty(body, "storageLocation");
  }

  /** No contributions (a NULL sum) and a zero sum both give the all-zero summary. */
  lemma EmptyContributionSummary()
    ensures ServerJs.Aggregate(None) == ServerJs.Aggregate(Some(0.0)) == Contribution(0.0, 0.0, 0)
    ensures ApiPhp.Aggregate(None) == ApiPhp.Aggregate(Some(0.0)) == Contribution(0.0, 0.0, 0)
  {
  }

  /** A total of 1000 g is 2.0 kg of CO2 and 1000 yen. */
  lemma ThousandGramSummary()
    ensures ServerJs.Aggregate(Some(1000.0)) == Contribution(1000.0, 2.0, 1000)
    ensures ApiPhp.Aggregate(Some(1000.0)) == Contribution(1000.0, 2.0, 1000)
  {
  }

  /**
   * On any store the add-contribution checks can produce (all amounts positive), the
   * JavaScript and PHP summaries of `SUM(amount_g)` are identical.
   */
  lemma SummariesAgree(amounts: seq<real>)
    requires AllPositive(amounts)
    ensures ServerJs.Aggregate(SqlSum(amounts)) == ApiPhp.Aggregate(SqlSum(amounts))
  {
    SumOfPositives(amounts);
    var total := SqlSum(amounts).GetOr(0.0);
    RoundingsAgreeOnNonNegatives(total * 0.002 * 10.0);
    RoundingsAgreeOnNonNegatives(total * 1.0);
  }

  /**
   * An accepted contribution of `x` grams raises the reported total by exactly `x`,
   * and never lowers the reported CO2 or yen figures.
   */
  lemma ContributionAccumulates(amounts: seq<real>, body: map<string, Value>)
    requires ServerJs.AddContribution(amounts, body, true).outcome == Created
    ensures ServerJs.Aggregate(SqlSum(ServerJs.AddContribution(amounts, body, true).store)).totalG
            == Sum(amounts) + body["amount_g"].n
    ensures var before := ServerJs.Aggregate(SqlSum(amounts));
            var after := ServerJs.Aggregate(SqlSum(ServerJs.AddContribution(amounts, body, true).store));
            before.co2EquivalentKg <= after.co2EquivalentKg && before.savedAmountYen <= after.savedAmountYen
  {
    var x := body["amount_g"].n;
    SumAppend(amounts, x);
    SummaryMonotone(SqlSum(amounts), SqlSum(amounts + [x]));
  }

  /** A larger summed total never gives smaller CO2 or yen figures. */
  lemma SummaryMonotone(sum: Option<real>, sum': Option<real>)
    requires sum.GetOr(0.0) <= sum'.GetOr(0.0)
    ensures ServerJs.Aggregate(sum).co2EquivalentKg <= ServerJs.Aggregate(sum').co2EquivalentKg
    ensures ServerJs.Aggregate(sum).savedAmountYen <= ServerJs.Aggregate(sum').savedAmountYen
  {
    var t, t' := sum.GetOr(0.0), sum'.GetOr(0.0);
    MathRoundMonotone(t * 0.002 * 10.0, t' * 0.002 * 10.0);
    MathRoundMonotone(t * 1.0, t' * 1.0);
  }

  /** Adding 500 g and then 300 g to an empty store reports 800 g, 1.6 kg and 800 yen. */
  lemma TwoContributionsScenario()
    ensures var first := ServerJs.AddContribution([], map["amount_g" := Number(500.0)], true);
            var second := ServerJs.AddContribution(first.store, map["amount_g" := Number(300.0)], true);
            second.outcome == Created &&
            ServerJs.Aggregate(SqlSum(second.store)) == Contribution(800.0, 1.6, 800)
    ensures var first := ApiPhp.AddContribution([], Some(500.0), true);
            var second := ApiPhp.AddContribution(first.store, Some(300.0), true);
            second.outcome == Created &&
            ApiPhp.Aggregate(SqlSum(second.store)) == Contribution(800.0, 1.6, 800)
  {
  }
}
