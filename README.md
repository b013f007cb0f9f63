# Food-inventory freshness and contribution core, in Dafny

This project models the logic of a small household food-inventory tracker. Users register
purchased ingredients with a storage location. The server tags each listed ingredient
`critical`, `warning` or `normal` from the days elapsed since purchase and from where it is
kept. It also reports a running "food loss avoided" total in grams, with a CO2 figure and a
yen figure derived from it.

The repository holds three copies of this logic:

- the Express/PostgreSQL server `dist/server.js` (module `ServerJs`);
- the Express/SQLite server `dist/food-challenge-nodejs/server.js` (module `NodeServerJs`);
- the PHP endpoint `dist/api.php` (module `ApiPhp`).

Shared modules:

- `Freshness`: the urgency tags, the two elapsed-day counts and the storage policy table that every copy implements.
- `Rounding`: JavaScript `Math.round` and PHP `round`.
- `Json`: decoded request values, JavaScript falsiness and PHP `empty`.
- `Records`: rows, registrations, replies, and `SUM(amount_g)` as a fold.
- `Agreement`: how the copies relate to each other.

Time is a parameter. "Now" and the purchase instant are integer milliseconds. The parsing
of a stored date string is a function parameter, `instantOf`. The database is the sequence
of rows it holds. A write handler is a function from the old store to an outcome and the
new store, so a rejected request visibly leaves the store unchanged. A storage failure is
the parameter `insertOk`. The PHP listing loop updates each element of an array in place,
so it is a method over an `array` with a loop invariant. Everything else in the source is
branching and `const` arithmetic, so it is modelled as functions.

The two JavaScript copies count days as `ceil(|now - purchased| / 86400000)`. PHP counts
the whole days in the interval (`DateTime::diff()->days`), which is the floor.
`Freshness.DayCountsRelated` proves that the two counts differ by at most one and are equal
exactly when the instants are a whole number of days apart.
`Agreement.RoomTempSameDayDiverges` shows where the difference is visible: an item kept at
room temperature that was bought earlier the same day is a `warning` in JavaScript and
`critical` in PHP.

Three behaviours of the code worth knowing:

- The registration check does not trim whitespace, so `" "` is an accepted name.
- PHP's check rejects the string `"0"`, which JavaScript accepts (`Agreement.RegistrationChecksCompared`).
- An unparsable purchase date is NaN in JavaScript. Every comparison against NaN fails, so a refrigerator item becomes `normal`, a freezer item `warning` and a room-temperature item `critical` (`ServerJs.Classify`).

## Model

| member | source | states |
|---|---|---|
| `Freshness.CeilDays` | dist/server.js:29-30 | the JavaScript day count is the least d with abs(now - purchased) <= d days; it is 0 exactly when the two instants are equal |
| `Freshness.FloorDays` | dist/api.php:11-13 | the PHP day count is the largest d with d days <= abs(now - purchased) |
| `Freshness.DayCountsSymmetric` | dist/food-challenge-nodejs/server.js:16-17 | both day counts are symmetric in the two instants |
| `Freshness.DayCountsRelated` | dist/api.php:13 | floor <= ceiling <= floor + 1, and ceiling = floor exactly when the distance is a whole number of days |
| `Freshness.SameDayCounts` | dist/api.php:13 | two distinct instants less than a day apart: PHP counts 0 days, JavaScript 1 |
| `Freshness.Status.Name` | dist/server.js:34-38 | a tag is reported as one of the strings `critical`, `warning`, `normal` |
| `Freshness.StatusNamesDistinct` | dist/server.js:32-56 | distinct tags are reported as distinct strings |
| `Freshness.Policy` | dist/server.js:32-56 | refrigerator: critical iff days <= 1, warning iff 2..3, normal iff >= 4; freezer: never critical, normal iff days <= 30; roomTemp: never normal, warning iff days = 1; any other tag: normal |
| `Rounding.MathRound` | dist/server.js:103-104 | `Math.round` gives the integer r with x - 1/2 < r <= x + 1/2 (ties upward) |
| `Rounding.PhpRound` | dist/api.php:95 | PHP `round` is the nearest integer, ties away from zero, for either sign |
| `Rounding.PhpRoundTenths` | dist/api.php:93 | `round($x, 1)` is a whole number of tenths, the nearest one to x with ties away from zero, for either sign |
| `Rounding.RoundingsAgreeOnNonNegatives` | dist/api.php:93-95 | PHP `round` and `Math.round` agree on every non-negative number |
| `Rounding.RoundingsDisagreeOnNegativeTies` | dist/api.php:95 | they differ at -0.5: `Math.round` gives 0, PHP gives -1 |
| `Rounding.MathRoundMonotone` | dist/server.js:104 | `Math.round` is monotone |
| `Json.Field` | dist/server.js:64 | destructuring a request body gives `body[key]` when the key is present and `undefined` otherwise |
| `Json.Truthy` | dist/server.js:66 | `!x` is false exactly for values other than `undefined`, `null`, `false`, `0` and `""` |
| `Json.PhpEmpty` | dist/api.php:50 | `empty($x)` holds exactly for null, false, 0, `""`, `"0"` and an empty array |
| `Json.Coalesce` | dist/api.php:46-48 | `?? ''` gives the default for a missing key or a null value and the value otherwise |
| `Json.FalsyIsEmpty` | dist/api.php:50 | every JavaScript-falsy field is PHP-`empty` after `?? ''`, and some truthy value ("0") is `empty` |
| `Records.SqlSum` | dist/server.js:100 | `SUM(amount_g)` is NULL exactly over an empty table and the sum of the amounts otherwise |
| `Records.SumAppend` | dist/server.js:127 | inserting an amount adds it to the sum |
| `Records.SumOfPositives` | dist/server.js:122-124 | a sum of positive amounts is non-negative, and positive when there is at least one |
| `ServerJs.DiffDays` | dist/server.js:27-30 | the day count is NaN exactly when the date does not parse, and otherwise the ceiling count |
| `ServerJs.AtMost` | dist/server.js:33-50 | a comparison `diffDays <= k` is false on NaN and the integer comparison on a day count |
| `ServerJs.Classify` | dist/server.js:32-56 | on a day count the decision chain equals the policy table; on NaN the result is warning exactly for freezer and critical exactly for roomTemp |
| `ServerJs.PredictFreshness` | dist/server.js:26-57 | the tag is the policy at the ceiling day count; on an unparsable date, the NaN branch of the chain; when purchase time equals now, critical exactly for refrigerator and roomTemp |
| `ServerJs.Annotate` | dist/server.js:86-89 | the listing has the rows' length and order; element i keeps row i and has status `predictFreshness` of row i |
| `ServerJs.Register` | dist/server.js:64-79 | a falsy name, purchaseDate or storageLocation gives a validation error; every non-created outcome leaves the store unchanged; a created registration is appended; "all stored values truthy" is preserved |
| `ServerJs.AddContribution` | dist/server.js:120-132 | rejected exactly unless `amount_g` is a number > 0; a storage error exactly when it is valid and the insert fails, so a valid amount with a working insert is created and appended; non-created outcomes leave the amounts unchanged; "all amounts positive" is preserved |
| `ServerJs.Aggregate` | dist/server.js:101-110 | `total_g` is the sum, with NULL as 0; `co2_equivalent_kg` is a whole number of tenths within 0.05 of total x 0.002; `saved_amount_yen` is within 1/2 of total |
| `NodeServerJs.Classify` | dist/food-challenge-nodejs/server.js:19-42 | this copy's decision chain equals the `ServerJs` one for every day count, NaN included, and every tag |
| `NodeServerJs.PredictFreshness` | dist/food-challenge-nodejs/server.js:13-43 | equals the `ServerJs` prediction; the tag is the policy at the ceiling day count |
| `NodeServerJs.Annotate` | dist/food-challenge-nodejs/server.js:79-82 | this copy's listing equals the `ServerJs` listing |
| `NodeServerJs.Register` | dist/food-challenge-nodejs/server.js:50-67 | this copy's registration handler equals the `ServerJs` handler for every body, store and storage result |
| `NodeServerJs.AddContribution` | dist/food-challenge-nodejs/server.js:109-121 | this copy's add-contribution handler equals the `ServerJs` handler |
| `NodeServerJs.Aggregate` | dist/food-challenge-nodejs/server.js:94-103 | this copy's summary equals the `ServerJs` summary |
| `ApiPhp.Classify` | dist/api.php:15-39 | the PHP decision chain equals the policy table for every day count and tag |
| `ApiPhp.PredictFreshness` | dist/api.php:10-40 | the tag is the policy at the floor day count; roomTemp is critical whenever the instants are less than a day apart |
| `ApiPhp.AnnotateInPlace` | dist/api.php:77-79 | after the loop every row keeps its columns and position and its status is `predictFreshness` of that row |
| `ApiPhp.Register` | dist/api.php:46-65 | an `empty` name, purchaseDate or storageLocation (missing and null count as '') gives an error and no insert; a created registration is appended; "no stored value empty" is preserved |
| `ApiPhp.AddContribution` | dist/api.php:107-122 | rejected exactly when the amount (missing or null as 0) is <= 0; a storage error exactly when it is positive and the insert fails, so a positive amount with a working insert is created and appended; non-created outcomes leave the amounts unchanged; "all amounts positive" is preserved |
| `ApiPhp.Aggregate` | dist/api.php:89-101 | `total_g` is the sum, with NULL as 0; `co2_equivalent_kg` is a whole number of tenths; both figures are the nearest tenth of total x 0.002 and the nearest integer to total, with ties away from zero, for either sign of the total |
| `Agreement.CopiesAgree` | dist/api.php:15-39 | given the same day count, the three decision chains give the same tag (the policy's) for every location |
| `Agreement.PredictionsAgreeOnWholeDays` | dist/api.php:13 | JavaScript and PHP predictions agree when the instants are whole days apart; otherwise JavaScript gives PHP's tag for one more day |
| `Agreement.RoomTempSameDayDiverges` | dist/api.php:30-37 | within one day of purchase (instants distinct), roomTemp is warning in JavaScript and critical in PHP |
| `Agreement.BoughtTodayScenario` | dist/server.js:32-46 | bought at most a day ago: refrigerator is critical and freezer normal in all three copies |
| `Agreement.RegistrationChecksCompared` | dist/api.php:46-50 | every body PHP accepts, JavaScript accepts; a name of "0" is accepted by JavaScript and rejected by PHP |
| `Agreement.EmptyContributionSummary` | dist/server.js:101-104 | a NULL sum and a zero sum both give (0, 0.0, 0) in JavaScript and PHP |
| `Agreement.ThousandGramSummary` | dist/api.php:93-95 | 1000 g gives 2.0 kg CO2 and 1000 yen in JavaScript and PHP |
| `Agreement.SummariesAgree` | dist/api.php:89-95 | on any store of positive amounts the JavaScript and PHP summaries are identical |
| `Agreement.ContributionAccumulates` | dist/server.js:100-108 | an accepted contribution of x grams raises the reported total by exactly x and never lowers the CO2 or yen figure |
| `Agreement.SummaryMonotone` | dist/server.js:103-104 | a larger summed total never gives a smaller `co2_equivalent_kg` or `saved_amount_yen` |
| `Agreement.TwoContributionsScenario` | dist/server.js:119-128 | adding 500 g then 300 g to an empty store reports 800 g, 1.6 kg, 800 yen in JavaScript and PHP |

## Left out

- HTTP routing, middleware, CORS, static files, response codes and envelopes, message texts and server start-up: framework I/O. A handler's result is only its `Outcome`. The JavaScript servers answer created with 201, validation error with 400 and storage error with 500. `dist/api.php` answers every case with HTTP 200 and a `status: error` or `status: success` envelope.
- JSON encoding of the summary: PHP `round` returns a float, so PHP sends `saved_amount_yen` as `800.0` where JavaScript sends `800`. Before PHP 8.1, PDO SQLite fetches the sum as a string. `Agreement.SummariesAgree` is about the values, not the JSON text.
- Database drivers, connections and DDL. The assigned ids and timestamps are not returned by `Created`.
- Conversion of the inserted JSON values into TEXT columns: registration stores hold the values as sent, and listing rows hold the text as read.
- `ORDER BY added_at DESC`: the listing takes the rows in the order the query returns them.
- `SUM(amount_g)` is modelled as a fold over the amounts, not as SQL.
- Date-string parsing, time zones, DST and the clock. "Now" is a parameter and parsing is the function parameter `instantOf`. The source reads the clock anew for every row (`new Date()` in `predictFreshness`, `new DateTime()` in the PHP version), so within one listing two rows can be classified against different instants, for example across midnight. `ServerJs.Annotate`, `NodeServerJs.Annotate` and `ApiPhp.AnnotateInPlace` use a single `nowMs` for the whole listing.
- `DateTime::diff()->days` is modelled as the floor of the absolute millisecond distance. This is exact for UTC without DST.
- In PHP, an unparsable date makes `new DateTime` throw an exception that the handler does not catch. The model's PHP `instantOf` is total.
- IEEE-754 doubles and PostgreSQL's single-precision `REAL` column (`dist/database.js:34`): all arithmetic is exact over `int` and `real`. This includes the division in `Math.ceil`, the constant `0.002` and PHP's pre-rounding inside `round`. On values where doubles lose precision, the model diverges from the running code.
- A request body that is not a JSON object: bodies are maps from field names to decoded values.
- `ApiPhp.AddContribution`: the amount is a number, or absent/null. PHP's loose `<= 0` comparison for strings, booleans and arrays is not modelled.
- Browser code (`dist/script.js`, `dist/food-challenge-nodejs/public/script.js`): DOM rendering, `fetch` and dummy data.
