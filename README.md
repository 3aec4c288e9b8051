# Stackby trigger poll, modelled in Dafny

This project models `StackbyTrigger.poll`, the polling step of the n8n trigger node for the Stackby
spreadsheet-database API. One poll does four things:

- It builds the request `GET rowlist/<stackId>/<table>`. The query dictionary `qs` holds an optional
  `view`, an optional `fields[]` selector (the `fields` parameter split on commas) and a
  `filterByFormula`. That formula is an `IS_AFTER({field}, DATETIME_PARSE("<start>", "YYYY-MM-DD HH:mm:ss"))`
  template, optionally conjoined with an extra formula. A manual (test) run replaces the formula with
  `maxRecords = 1`.
- It reads the watermark `lastTimeChecked` from the node's static data. The start of the polled
  window is that value, or the current time when nothing, or an empty string, is stored.
- It hands the request to the paginated fetch-all collaborator. Once the fetch returns, it overwrites
  the watermark with the time captured at the start of the poll.
- It resolves to `null` when there are no records. Otherwise it emits one batch of all records. In a
  manual run it first rejects with `The Field "<field>" does not exist.` when reading the trigger
  field from the first record gives `undefined`.

Files:

- `js_strings.dfy` (module `JsStrings`): JavaScript's `split` on one character and its partner `join`,
  with both round trips proved.
- `stackby_trigger.dfy` (module `StackbyTrigger`): the inputs, the query specification `QuerySpec`,
  the step-by-step `BuildQuery`, the emission decision, the `Trigger` class whose `lastTimeChecked`
  field is the stored watermark and whose `Poll` method is the poll, and lemmas about the watermark
  across a series of polls. The method `FirstPollScenario` is a usage example of `Poll`'s contract:
  a first scheduled poll whose fetch returns two rows.

The host's inputs are parameters of `Poll`:

- the node parameters, as a `Params` value;
- the invocation mode, a string compared with `"manual"`;
- the formatted current time `now`, an opaque string;
- the fetch-all collaborator, a function from the request to `FetchFailed(error)` or
  `Fetched(records)`. `records` is `None` when the response's `records` entry is not an array.

Four points of the code's behaviour are easy to misread:

- A fetch that fails leaves the watermark unchanged, because the write at line 135 comes after the
  awaited fetch at line 133.
- The manual-mode missing-field error does advance the watermark. The write at line 135 happens before
  the check at line 138.
- The `fields` parameter is split on commas with no trimming: `"name, id"` selects `"name"` and `" id"`.
- The missing-field check at line 138 is a JavaScript property read. It finds the names every object
  inherits from `Object.prototype` (`constructor`, `toString`, `__proto__`, …), so a trigger field
  with one of those names is never reported missing.

## Model

| member | source | states |
|---|---|---|
| `JsStrings.Split` | StackbyTrigger.node.ts:119 | `split(',')` yields one piece more than there are commas, and no piece contains a comma |
| `JsStrings.JoinSplit` | StackbyTrigger.node.ts:119 | joining the pieces of the field selector with `,` gives back the `fields` parameter exactly |
| `JsStrings.SplitJoin` | StackbyTrigger.node.ts:119 | any non-empty list of comma-free names is what splitting its join gives back, so the selector and the parameter determine each other |
| `JsStrings.SplitWithoutSeparator` | StackbyTrigger.node.ts:119 | a `fields` value with no comma selects exactly that one field |
| `JsStrings.SplitAtFirstSeparator` | StackbyTrigger.node.ts:119 | the first comma ends the first selected field, and the rest is split on its own |
| `StackbyTrigger.Endpoint` | StackbyTrigger.node.ts:106 | the endpoint is `rowlist/`, then the stack id, then `/`, then the table name, and nothing else |
| `StackbyTrigger.IsAfter` | StackbyTrigger.node.ts:122 | the watermark filter opens with `IS_AFTER({`, then the trigger field and its closing `}`, then `, DATETIME_PARSE("`, and ends with the start date followed by `", "YYYY-MM-DD HH:mm:ss"))` |
| `StackbyTrigger.FilterFormula` | StackbyTrigger.node.ts:122-126 | without a truthy extra formula the filter is the watermark filter alone; with one, it is `AND(`, the whole watermark filter, then `, `, the extra formula and `)` |
| `StackbyTrigger.StartDate` | StackbyTrigger.node.ts:110 | the start date is the stored watermark when it is present and non-empty, and `now` otherwise; it is never empty unless `now` is |
| `StackbyTrigger.NextWatermark` | StackbyTrigger.node.ts:133-135 | a poll whose fetch returned leaves `now` as the watermark, and one whose fetch failed leaves the old watermark; a stored watermark is never removed |
| `StackbyTrigger.BuildQuery` | StackbyTrigger.node.ts:114-131 | `view` is present iff `viewId` is truthy, and then equals it. `fields[]` is present iff `fields` is truthy, and then equals its comma split. `filterByFormula` is present iff the mode is not manual, and then is the `IS_AFTER` filter on the start date, wrapped in `AND(…, formula)` iff the formula is truthy. `maxRecords = 1` is present iff the mode is manual. No other key is present |
| `StackbyTrigger.QueryIsDetermined` | StackbyTrigger.node.ts:114-131 | the query rules leave no freedom: two dictionaries that both satisfy them are equal |
| `StackbyTrigger.ManualQueryIgnoresFilter` | StackbyTrigger.node.ts:128-131 | a manual run sends the same query whatever the watermark, trigger field and extra formula are; only `viewId` and `fields` matter |
| `StackbyTrigger.FieldSelectorExample` | StackbyTrigger.node.ts:118-120 | `"name,id"` selects `["name", "id"]`, and `"name, id"` selects `["name", " id"]` (no trimming) |
| `StackbyTrigger.EndpointSegments` | StackbyTrigger.node.ts:106 | the endpoint is the three-segment path `rowlist/<stackId>/<table>`: for slash-free parameters its segments are exactly those three |
| `StackbyTrigger.IsAfterNamesFieldAndStart` | StackbyTrigger.node.ts:122 | the watermark filter names one trigger field and one start date: two filters are equal only if both are equal (for field names without `}`) |
| `StackbyTrigger.ReturnJsonArray` | StackbyTrigger.node.ts:142 | wrapping the records gives one item per record, in the same order, each holding that record |
| `StackbyTrigger.Emission` | StackbyTrigger.node.ts:137-145 | the result is `null` iff `records` is not an array or is empty. The missing-field error (with its exact message) happens iff the run is manual, the list is non-empty, and reading the trigger field from the first record's `fields` gives `undefined`: the record has no such column and the name is not inherited from `Object.prototype`. Otherwise the result is a single batch of all records in order, and it is never the fetch's rejection |
| `StackbyTrigger.InheritedNameIsNeverMissing` | StackbyTrigger.node.ts:138-142 | a manual run whose trigger field is named like an `Object.prototype` property emits its records even when the first record lacks that column |
| `StackbyTrigger.OnlyFirstRecordIsChecked` | StackbyTrigger.node.ts:138-140 | whether the missing-field error is raised depends on the first record only |
| `StackbyTrigger.FailedPollsKeepWatermark` | StackbyTrigger.node.ts:133-135 | a run of polls whose fetches all fail leaves the watermark unchanged, so the next poll asks for the same window again |
| `StackbyTrigger.WatermarkIsLastFetchTime` | StackbyTrigger.node.ts:133-135 | after a series of polls, the watermark is the time captured by the last poll whose fetch returned, whatever that poll emitted |
| `StackbyTrigger.WindowsAreContiguous` | StackbyTrigger.node.ts:108-135 | the next poll's window starts exactly at the time captured by the last poll whose fetch returned |
| `StackbyTrigger.FirstPollWindowIsEmpty` | StackbyTrigger.node.ts:108-112 | with no watermark stored, or an empty one, the start date is the captured `now`, so start and end dates are equal |
| `StackbyTrigger.Trigger.constructor` | StackbyTrigger.node.ts:94 | a trigger's static data starts with whatever watermark the host stored |
| `StackbyTrigger.Trigger.Poll` | StackbyTrigger.node.ts:92-146 | the request's endpoint is `rowlist/<stackId>/<table>`, and its query meets the query rules for the start date taken from the old watermark. A failed fetch rejects with the fetch's error and leaves the watermark unchanged. A fetch that returns sets the watermark to `now`, and the result is the emission decision on its `records` |

## Left out

- The HTTP calls and pagination of `apiRequestAllItems` (line 133). They live in `GenericFunction`,
  which is not part of this model, together with credentials. The fetch is the function parameter
  `fetchAll`, whose outcome is a failure or a `records` value.
- The clock and date formatting `moment().utc().format()` (line 108). `now` is an opaque string
  parameter. The mismatch between the ISO-8601 timestamp and the `"YYYY-MM-DD HH:mm:ss"` pattern is
  rendered as written and not interpreted.
- Ordering of timestamps. That the watermark never moves backwards depends on the host clock, which
  is not modelled. The lemmas prove instead that the watermark equals the time captured by the last
  poll whose fetch returned.
- The host APIs `getNodeParameter`, `getMode`, `getWorkflowStaticData` and `helpers.returnJsonArray`.
  The first three are inputs. `getMode` is called twice (lines 128 and 138) and is taken to return
  the same mode both times. `returnJsonArray` is an identity wrap of each record.
- The `description` literal (lines 18-89). It is static UI configuration. Only its parameter names
  are used.
- `async`/`await`. The single suspension point is the fetch, and polls do not overlap.
- What `filterByFormula` means to the Stackby server, and any record the server could date ahead of
  this process's clock.
- Dynamic JSON typing. Parameters that are not strings are not modelled. Neither is a `records` array
  whose first element has no `fields` object (a `TypeError` at line 138). Nor is a record whose JSON
  sets a column to a value the engine reads back as `undefined`, which JSON cannot express. Cell values are a small
  value type with integer numbers, not floating point.
