# Save-and-replay query harness, modelled in Dafny

This project models the decision and accumulation logic of two HTTP test
scripts for a remote query service (a dashboard backend over a sales
database). It proves properties of that logic.

- `automated-tests.js` runs a fixed registry of filter and aggregation
  queries. It counts each query as passed or failed and saves each passing
  query as a named configuration. For the first registry case it then runs
  the save-and-replay consistency check: query, save, fetch the list of
  saved configurations, find the saved one by id, replay it, and compare the
  two results in two tiers. Tier 1 compares the serialised rows
  (`data || detailed_data`). Tier 2 falls back to the counts
  (`count || detailed_count`). The process exits with status 1 when anything
  failed.
- `test-with-available-fields.js` runs one group-by query. It groups the
  returned invoice rows by `customer_id` into a dictionary of
  `{ name, invoices, total }` entries, and labels each aggregation row by
  its `_id.customer_id`.

Network exchanges are inputs. A `Reply` is either `Received(ok, body)` (the
HTTP `ok` flag and the parsed JSON body) or `Raised` (the `fetch` or the
`response.json()` threw). The checks return the requests they send, in
order. So "the replay is never sent" is a statement about the result.

The modules:

- `JsValues` (`js_values.dfy`) holds JavaScript values after `JSON.parse`,
  `undefined`, truthiness, `||`, property reads that throw on `null`, `===`
  and `JSON.stringify`. Arrays and objects compared with `===` are never
  equal, because every value compared in the scripts comes from a separate
  parse. `JSON.stringify` is kept abstract. It maps `undefined` to
  `undefined` and is injective on parsed values, so equal texts mean equal
  values.
- `SaveReplay` (`save_replay.dfy`) models `testSaveAndReplay` and the save
  body.
- `TestRunner` (`test_runner.dfy`) models the `runTests` loop, the tally and
  the exit status.
- `CustomerGroups` (`customer_groups.dfy`) models the grouping `forEach` and
  the aggregation-row label.

Points where the code behaves in ways its messages do not suggest:

- In `runTests` the save of a passing case (automated-tests.js:199-210) sits
  inside the case's `try` (186-235). A save whose `fetch` or `json()` throws,
  or whose body is `null` so that reading `saveData.success` at line 210
  throws, makes the case fail. Only the save's HTTP status, and its
  `success` flag when the saved id converts to text, are ignored.
  `TestRunner.ThrowingSaveFailsCase` and `TestRunner.SaveFlagNeverMatters`
  state this.
- Template literals convert values to text, and that conversion throws a
  TypeError for an object with an own `toString` key (a parsed key is data,
  never a function), and for an array holding such an object. The model
  follows this at these template literals:
  automated-tests.js:127 (the saved id), 165 (the two counts of a mismatch),
  210 (the id of a successful save), 213-223 (the report about a passing
  result), and test-with-available-fields.js:80 (the customer's name). Each
  of those throws makes its `try` fail.
- Tier 1 does not require both results to expose the same one of `data` and
  `detailed_data`. It compares whatever `data || detailed_data` yields. Two
  results without rows (both `undefined`) pass at tier 1. Two results
  without counts (both `undefined`) pass at tier 2.
- Tier 2 passes on equal counts even when the rows differ. The model keeps
  this policy. `CompareTiers` states it exactly, and it is a sensitivity
  gap: equal counts can hide regressions in content or order.

## Model

| member | source | states |
|---|---|---|
| `JsValues.Or` | automated-tests.js:120 | `a \|\| b` is the left operand when it is truthy and the right one otherwise, and is truthy iff either operand is |
| `JsValues.GetProperty` | automated-tests.js:125-126 | reading a property throws exactly when the base is `undefined` or `null`, and otherwise yields the own field; a truthy base never throws |
| `JsValues.StrictEquals` | automated-tests.js:132 | `===` holds iff the values are equal and not an array or object (those come from separate parses) |
| `JsValues.PrimitivesConvert` | automated-tests.js:163-165 | only an array or an object can fail to convert to text, so `===`-equal counts always print; for example, an object with an own `toString` key fails |
| `JsValues.StringifyInjective` | automated-tests.js:152-153 | two values serialise to the same `JSON.stringify` result iff they are equal; `undefined` has no text |
| `SaveReplay.SaveBodyFor` | automated-tests.js:116-121 | the save body built from a case; no contract of its own, `SavedAggregation` states its properties |
| `SaveReplay.SavedAggregation` | automated-tests.js:116-121 | the save body carries the case's filters unchanged; its aggregation is the case's when truthy, else `[]`; it is never absent, and saving it again is a fixed point |
| `SaveReplay.Find` | automated-tests.js:132 | `find` returns the first element whose `_id` is `===` the id, with no `null` before it; it misses iff no element matches and none is `null`; it throws only on a `null` element reached before any match |
| `SaveReplay.FindFirst` | automated-tests.js:132 | when element `i` matches and every earlier element is non-null and does not match, `find` returns element `i` |
| `SaveReplay.ReplayPayload` | automated-tests.js:138-142 | the replay query; no contract of its own, `ReplayUsesRetrievedConfig` and `PassFoundConfig` state what is replayed |
| `SaveReplay.Either` | automated-tests.js:152-153 | `r.a \|\| r.b` throws exactly when the parsed body is `null` |
| `SaveReplay.FalsyCountFallsThrough` | automated-tests.js:152-161 | a `count` of `0` falls through to `detailed_count`, while an empty `data` array is truthy and is kept |
| `SaveReplay.Compare` | automated-tests.js:151-170 | the two-tier comparison; no contract of its own, `CompareTiers`, `Tier1IgnoresCounts` and `CompareReflexiveAndSymmetric` state its properties |
| `SaveReplay.CompareTiers` | automated-tests.js:151-170 | a `null` body aborts; tier 1 passes iff the rows are equal; when the rows differ, the check passes iff the counts are `===`-equal; a mismatch aborts iff a count cannot be converted to text, and otherwise reports both counts |
| `SaveReplay.Tier1IgnoresCounts` | automated-tests.js:152-156 | when the rows match, the verdict is tier 1 whatever the counts are |
| `SaveReplay.CompareReflexiveAndSymmetric` | automated-tests.js:151-167 | an unchanged result replays at tier 1; whether the comparison passes does not depend on argument order |
| `SaveReplay.AfterSave` | automated-tests.js:123-149 | after the save reply, at most the list fetch and the replay are sent, in that order, and the replay uses `DATABASE`; a pass means the replay was received and the verdict is the comparison; `SaveRejected` sends nothing more, `ConfigMissing` only the list fetch |
| `SaveReplay.SaveAndReplay` | automated-tests.js:99-175 | requests go in the order query, save, list, replay, and the save is built from the case; the replay uses `DATABASE`; a pass means all four exchanges happened and the verdict is the comparison of the two results; `SaveRejected` stops after two requests, `ConfigMissing` after three |
| `SaveReplay.SaveRejectionIsFatal` | automated-tests.js:123-125 | the check ends `SaveRejected` iff the save body is non-null with a falsy `success`; it then fails, and the list and the replay are never requested |
| `SaveReplay.UnprintableIdIsFatal` | automated-tests.js:126-127 | a saved id that cannot be converted to text makes the confirmation message throw: the check fails after two requests |
| `SaveReplay.MissingConfigIsFatal` | automated-tests.js:130-134 | a list whose elements are all non-null and none of which carries the returned id ends the check as `ConfigMissing` after the list fetch, with no replay |
| `SaveReplay.NoMatchNeverPasses` | automated-tests.js:132-134 | a list with no element carrying the returned id, whatever else it holds, never lets the check pass, and at most three requests are sent |
| `SaveReplay.PassFoundConfig` | automated-tests.js:123-149 | a pass implies the save succeeded with a printable id, the list held a truthy element that `find` hit, and that element's query was the replay |
| `SaveReplay.ReplayUsesRetrievedConfig` | automated-tests.js:132-149 | the replay query is the constant database plus the filters and aggregation of the first matching listed configuration; the verdict is then the comparison, or `Transport` if the replay throws |
| `SaveReplay.VerdictIgnoresTestCase` | automated-tests.js:113-149 | the verdict and the list and replay requests depend only on the replies, not on the test case's payload or the save name |
| `TestRunner.QueryPassed` | automated-tests.js:195 | `response.ok && result.success`; no contract of its own, used by `CasePassed` and `SavesSent` |
| `TestRunner.SaveCompleted` | automated-tests.js:199-210 | the save and its confirmation message did not throw; no contract of its own, `SaveFlagNeverMatters` and `ThrowingSaveFailsCase` state its effect |
| `TestRunner.ReportCompleted` | automated-tests.js:213-223 | the report about a passing result did not throw; no contract of its own, `ThrowingReportFailsCase` shows its effect |
| `TestRunner.CasePassed` | automated-tests.js:186-235 | whether a case reaches `passed++`; no contract of its own, `AllPassedIff` and `RunTests` are stated with it |
| `TestRunner.CaseRequests` | automated-tests.js:186-208 | one case's requests: its query, then its save when the query passed; no contract of its own, `QueriesSent` and `SavesSent` state them |
| `TestRunner.RequestsAmong` | automated-tests.js:183-236 | the reference request trace of the first `n` cases, which `RunTests` is stated against; no contract of its own, `QueriesSent` and `SavesSent` state what it holds |
| `TestRunner.QueriesSent` | automated-tests.js:183-193 | the first `n` cases send exactly `n` queries, the `i`-th being case `i`'s payload, in registry order |
| `TestRunner.SavesSent` | automated-tests.js:195-208 | the first `n` cases send as many saves as there are passing queries; each save sent is the save of a case with a passing query under its own name, and each such case's save is sent |
| `TestRunner.PassedAmong` | automated-tests.js:183-236 | the reference count of passing cases among the first `n`, which `RunTests` and `AllPassedIff` are stated against; it is at most `n` |
| `TestRunner.QueriesPassedAmong` | automated-tests.js:195 | the reference count of passing queries among the first `n`, which `SavesSent` and `PassedAtMostQueriesPassed` are stated against; it is at most `n` |
| `TestRunner.AllPassedIff` | automated-tests.js:225-234 | the pass count equals `n` iff every one of the first `n` cases passed |
| `TestRunner.SaveFlagNeverMatters` | automated-tests.js:199-210 | the save's HTTP status never changes the case; once the save body is non-null and its id converts, the case passes iff its query passed and its report completed, whatever the save's `success` |
| `TestRunner.ThrowingSaveFailsCase` | automated-tests.js:199-210 | any passing query whose save throws, or whose save body is `null`, makes a failed case |
| `TestRunner.ThrowingReportFailsCase` | automated-tests.js:213-223 | any passing query whose report throws makes a failed case, whatever the save replied; a `type` that cannot be converted to text is such a report |
| `TestRunner.UnprintableTypeExample` | automated-tests.js:213 | for example, `{"success": true, "type": {"toString": 0}}` passes as a query and fails as a case |
| `TestRunner.PassedAtMostQueriesPassed` | automated-tests.js:195-235 | passed cases never outnumber passed queries, and the two counts agree when nothing after a passing query threw |
| `TestRunner.RunTests` | automated-tests.js:177-252 | total is registry size + 1 and `passed + failed == total`; `passed` counts the passing cases plus the replay verdict; requests are every case's then the replay check's; exit status is 1 iff `failed > 0`, so 0 iff every case and the replay check passed |
| `CustomerGroups.NameOf` | test-with-available-fields.js:67 | a row's name is its `customers_name` when that is truthy, else `'Unknown'`, and is always truthy |
| `CustomerGroups.RowThrows` | test-with-available-fields.js:69-80 | an iteration throws on an inherited key or an unconvertible name; no contract of its own, `GroupByCustomer` is stated with it |
| `CustomerGroups.AddRow` | test-with-available-fields.js:66-78 | one iteration's update; no contract of its own, `GroupingStep` states what it preserves |
| `CustomerGroups.GroupRows` | test-with-available-fields.js:64-81 | the fold of `AddRow` over the rows; no contract of its own, `GroupRowsIsGrouping` characterises it |
| `CustomerGroups.GroupingStep` | test-with-available-fields.js:65-78 | one iteration turns a grouping of the earlier rows into a grouping of the rows up to the current one |
| `CustomerGroups.GroupRowsIsGrouping` | test-with-available-fields.js:64-81 | the dictionary the fold builds has exactly the ids that occur as keys; each entry lists its customer's amounts in row order; each total is the sum of its list; each name comes from the customer's first row |
| `CustomerGroups.Visit` | test-with-available-fields.js:66-78 | the callback adds the row's customer as a key, updates that entry as `AddRow` does, and leaves every other entry unchanged |
| `CustomerGroups.GroupByCustomer` | test-with-available-fields.js:60-81 | skipped iff `detailed_data` is falsy or empty; throws iff some row's id is a key that `{}` inherits or its name cannot be converted to text; otherwise returns the fold's dictionary, which is a grouping as above |
| `CustomerGroups.AmountsOfConcat` | test-with-available-fields.js:65-77 | a customer's amounts over a run of rows are those of its first part followed by those of the rest, so relative order is kept |
| `CustomerGroups.FirstSeenIds` | test-with-available-fields.js:69-75 | the ids, in the order entries are created, are pairwise distinct and are exactly the ids that occur |
| `CustomerGroups.Conservation` | test-with-available-fields.js:65-78 | over all entries the lists hold as many amounts as there are rows, and the totals add up to the sum of every row's `total_amount` |
| `CustomerGroups.GroupingIsUnique` | test-with-available-fields.js:64-81 | any two dictionaries that satisfy the grouping description are equal, so the description pins the result down |
| `CustomerGroups.AggregationLabel` | test-with-available-fields.js:52 | the label throws iff the aggregation row is `null`; it is always truthy; it is `'Unknown'` when `_id` is falsy, and otherwise the `customer_id` if truthy, else `'Unknown'` |

## Left out

- HTTP transport, URLs, headers and JSON parsing are left out: each exchange is an input `Reply`.
- `async`/`await` is left out: the scripts are strictly sequential, so this
  is ordinary control flow.
- `console.log` text is left out, and `process.exit` becomes a returned
  exit status. A `console.log` with several arguments formats them without
  converting them by `toString`, so it never throws on parsed data. The
  template literals the model does not cover are these:
  - automated-tests.js:101 and 185 print registry names, which are strings.
  - automated-tests.js:163 prints a count that is `===` to another, so it is
    a primitive and converts (`PrimitivesConvert`).
  - test-with-available-fields.js:85-86 print names that line 80 already
    converted, and amounts and lengths that are numbers.
- The aggregation loop at test-with-available-fields.js:49-55 is modelled
  only through its label (`AggregationLabel`, line 52). Left out: its
  `length > 0` guard, and the line-54 message, which throws for a
  `customer_id` or `total_invoice_amount` that cannot be converted to text.
  Such a throw ends the test before the grouping runs.
- `Date.now()` in the replay save name is the parameter `stamp`. The clock is nondeterministic.
- The query service's filter, aggregation, group-by and having semantics are
  left out. They belong to the remote service and are not visible.
- The contents of the 8-case registry literal are left out. It is pure data,
  so `RunTests` takes the cases as a parameter. An empty registry would
  crash at automated-tests.js:101, outside any `try`. The model therefore
  requires at least one case, as the literal always has.
- The delete-config URL is left out. It is declared but never used.
- Numbers are integers. Floating-point money arithmetic, `NaN` (for example
  a missing `total_amount` added to a total), `-0` and string
  concatenation by `+=` are not modelled.
- Rows of `detailed_data` are decoded invoices. The `customer_id` is already
  the string key of the object, the name is a JSON value and the amount is
  an integer. So a `customer_id` whose conversion to a key would throw at
  test-with-available-fields.js:69 is not modelled. Nor is a non-array
  truthy `detailed_data`, for which `forEach` would throw.
- Properties inherited from `Object.prototype` or `Array.prototype` are not
  modelled for parsed values, except for the array methods `find` and
  `forEach`, which the scripts call on parsed values: the model stands for
  them by the array test on `configs` in `SaveReplay.AfterSave` and by
  typing `detailed_data` as rows. None of the ordinary data keys the scripts
  read is inherited. They are modelled for the grouping dictionary, where the id
  comes from data.
