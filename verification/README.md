# AWS cost explorer fetcher: request builder and usage-table flattener

This project models, in Dafny, the data-shaping logic of `get_cost_and_usage_data`
in `aws_cost_explorer.py`. It has two parts.

1. **The request builder.** From a start date, an end date, a granularity, a
   metric list and an ordered dimension list it builds a Cost Explorer
   `GetCostAndUsage` request. Each dimension becomes one
   `{Type: DIMENSION, Key: dim}` group-by clause, in the order given.
2. **The usage-table flattener.** It walks the response's `ResultsByTime`
   buckets and each bucket's `Groups`, and emits one usage record per group.
   A record holds:
   - the bucket's start date;
   - five dimension fields, taken from `Keys[0]` to `Keys[4]`;
   - the raw `BlendedCost` and `UsageQuantity` amount strings;
   - the rendered `Tags` and `SavingsPlansPurchaseRecommendationDetails`,
     with `[]` standing in for an absent one;
   - the response-level `content-currency` header.

The response is a datatype tree (`CostResponse`). Every member the fetcher
subscripts is an `Option`. A subscript of an absent member is a
`Failure(KeyError(name))`, and `Keys[i]` past the end is a
`Failure(IndexError(i))`. Nothing in the function catches these, so the
first one aborts the whole fetch.

The lookups for one group happen in the order Python evaluates the
dictionary literal at lines 32-44. The error a failing group reports is
therefore the first one Python would raise. `TimePeriod` and the currency
header are both read inside the inner loop. A bucket without groups never
reads its `TimePeriod`. A response without any group never reads the
currency header.

Modules:

- `Results`: `Option` and `Result`, usable with `:-`.
- `CostQuery`: the request and its builder.
- `CostResponse`: the response shape and the three subscript forms (member,
  dictionary entry, list position).
- `Traversal`: the two loop shapes of the flattener. `MapAll` appends one
  result per element and `ConcatAll` appends a run of results per element.
  Both stop at the first failing element. The module also holds their
  ordering, length and first-failure lemmas.
- `UsageTable`: the record, the per-group lookup `MakeRecord`, and the
  flattening of a bucket, a list of buckets and a whole response.
- `UsageTableProperties`: what a successful flattening contains and which
  inputs make it fail.
- `CostFetch`: the end-to-end fetch with the client as a parameter. It holds
  the loop-shaped method `FetchUsageTable` and the link between the
  requested dimensions and the record's named fields.

The currency header is read once per group, inside the inner loop
(line 43). A response with no groups therefore succeeds without the
header, and one with groups fails without it.

## Model

| member | source | states |
|---|---|---|
| CostQuery.GroupByDimensions | aws_cost_explorer.py:22 | one group-by clause per requested dimension, in the same order; each has type `DIMENSION` and the dimension as its key |
| CostQuery.BuildRequest | aws_cost_explorer.py:15-23 | start date, end date, granularity and metrics pass through unchanged; every clause is a dimension clause; the clause keys read back are exactly the requested dimension list |
| CostQuery.GroupedKeysOfDimensions | aws_cost_explorer.py:22 | reading the keys of the built clauses gives back the requested dimensions: nothing dropped, added, reordered or renamed |
| CostQuery.DimensionsOfGroupedKeys | aws_cost_explorer.py:22 | conversely, every list of dimension clauses is what the comprehension builds from its own keys |
| CostQuery.BuildRequestInjective | aws_cost_explorer.py:15-23 | requests built from different dimension lists differ |
| CostResponse.ContentCurrency | aws_cost_explorer.py:43 | the currency lookup succeeds exactly when metadata, headers and the `content-currency` header are all present; otherwise it fails with a `KeyError` naming the first absent one |
| UsageTable.MakeRecord | aws_cost_explorer.py:32-44 | the record of one group exists exactly when every subscript succeeds; it holds the bucket start, `Keys[0..4]` in field order, the two raw amounts, the rendered annotations with `[]` for an absent one, and the response currency |
| UsageTable.MakeRecordErrors | aws_cost_explorer.py:33-43 | a failing group reports the first missing item in column order: `TimePeriod`, `Start`, `Keys`, the first missing key position, `Metrics`, `BlendedCost`, its `Amount`, `UsageQuantity`, its `Amount`, and last the currency lookup's own error |
| UsageTable.FlattenBucket | aws_cost_explorer.py:31-45 | a bucket without `Groups` fails with `KeyError('Groups')`; a bucket succeeds exactly when all its groups are readable, and then yields one record per group, record `j` being group `j`'s |
| UsageTable.FlattenBuckets | aws_cost_explorer.py:30-45 | the buckets flatten exactly when every bucket does |
| UsageTable.FlattenResponse | aws_cost_explorer.py:29-45 | a response without `ResultsByTime` fails with `KeyError('ResultsByTime')`; otherwise it succeeds exactly when every bucket is readable |
| Traversal.MapAll | aws_cost_explorer.py:31-45 | the inner loop succeeds exactly when every step does, and then its output has one entry per element, entry `k` being element `k`'s result |
| Traversal.ConcatAll | aws_cost_explorer.py:30-45 | the outer loop succeeds exactly when every step does |
| Traversal.ConcatLength | aws_cost_explorer.py:30-45 | the outer loop's output is as long as the sum of the runs' sizes |
| Traversal.ConcatPosition | aws_cost_explorer.py:30-45 | item `j` of element `i`'s run sits at position (sum of the earlier runs' sizes) + `j` of the output |
| Traversal.ConcatProvenance | aws_cost_explorer.py:30-45 | every output position holds an item of some element's run, at the position `ConcatPosition` gives |
| Traversal.SumMonotone | aws_cost_explorer.py:30-45 | a later element's run starts no earlier than an earlier element's run ends |
| Traversal.PositionsDistinct | aws_cost_explorer.py:30-45 | distinct (element, item) pairs land on distinct output positions, so with `ConcatProvenance` every position holds an item of exactly one element's run |
| Traversal.MapAppend | aws_cost_explorer.py:31-45 | the inner loop over `xs + ys` is the loop over `xs` followed by the loop over `ys` |
| Traversal.ConcatAppend | aws_cost_explorer.py:30-45 | the outer loop over `xs + ys` is the loop over `xs` followed by the loop over `ys` |
| Traversal.MapStopsAtFailure | aws_cost_explorer.py:31-45 | when the earlier steps succeed and step `j` fails, the inner loop fails with step `j`'s error; later elements do not matter |
| Traversal.ConcatStopsAtFailure | aws_cost_explorer.py:30-45 | the same for the outer loop |
| Traversal.MapFirstFailure | aws_cost_explorer.py:31-45 | a failing inner loop fails with the error of its first failing element |
| Traversal.ConcatFirstFailure | aws_cost_explorer.py:30-45 | a failing outer loop fails with the error of its first failing element |
| UsageTableProperties.OffsetLayout | aws_cost_explorer.py:30-45 | bucket `i`'s records start at the number of groups in the earlier buckets, and the last bucket's end is the total group count |
| UsageTableProperties.RecordCount | aws_cost_explorer.py:29-45 | a successful table has exactly as many records as the response has groups, summed over its buckets |
| UsageTableProperties.RecordPosition | aws_cost_explorer.py:30-45 | group `j` of bucket `i` yields the record at the number of earlier buckets' groups + `j`, and that record holds this group's data |
| UsageTableProperties.RecordProvenance | aws_cost_explorer.py:30-45 | every record is the record of one group of one bucket, at the position that order dictates; no record is invented |
| UsageTableProperties.OffsetsDistinct | aws_cost_explorer.py:30-45 | distinct groups have distinct record positions, so with `RecordProvenance` each record comes from exactly one group |
| UsageTableProperties.FieldFromKey | aws_cost_explorer.py:34-38 | dimension field `p` of a group's record is the group's `Keys[p]` |
| UsageTableProperties.ResponseRecords | aws_cost_explorer.py:29-45 | a successful table holds one record per group, in bucket order and then group order |
| UsageTableProperties.CurrencyUniform | aws_cost_explorer.py:43 | every record's currency is the response-level `content-currency` header, so all records agree |
| UsageTableProperties.TimestampsFromBuckets | aws_cost_explorer.py:30-33 | every record's timestamp is the start date of a bucket of the response |
| UsageTableProperties.EmptyGroupsGiveEmptyTable | aws_cost_explorer.py:29-45 | buckets that all have empty group lists give the empty table, whatever the time periods and metadata hold, including a missing currency header |
| UsageTableProperties.SomeBucketHasGroups | aws_cost_explorer.py:30-31 | a positive group count means some bucket has a non-empty group list |
| UsageTableProperties.MissingCurrencyFails | aws_cost_explorer.py:43 | with at least one group, a missing currency header makes the whole fetch fail |
| UsageTableProperties.ShortKeysFail | aws_cost_explorer.py:34-38 | one group with fewer than five keys makes the whole fetch fail; no partial table is produced |
| UsageTableProperties.MissingMetricFails | aws_cost_explorer.py:39-40 | one group without a `BlendedCost` or `UsageQuantity` amount makes the whole fetch fail |
| UsageTableProperties.AbsentAnnotationsRenderEmpty | aws_cost_explorer.py:41-42 | an absent `Tags` or savings-plan member gives `[]` in that field, provided the empty list renders as `[]` |
| UsageTableProperties.FirstFailure | aws_cost_explorer.py:29-45 | a failing fetch reports the error of the first unreadable group, in bucket order then group order; all earlier buckets and groups are readable |
| CostFetch.FieldHoldsRequestedDimension | aws_cost_explorer.py:22-38 | dimension field `p` of a record holds the value the group reports for the `p`-th requested dimension, whatever its name, when it is not also requested at an earlier position |
| CostFetch.DistinctDimensionsLabelFields | aws_cost_explorer.py:22-38 | with five distinct requested dimensions, every record's five dimension fields hold those dimensions' values, in request order |
| CostFetch.FieldDimensionsDistinct | aws_cost_explorer.py:86 | the configured dimensions `SERVICE`, `RESOURCE_TYPE`, `REGION`, `USAGE_TYPE`, `LINKED_ACCOUNT` are distinct, so each field is labelled by its own dimension |
| CostFetch.TooFewDimensionsFail | aws_cost_explorer.py:22-38 | when the service returns one key per requested dimension, requesting fewer than five dimensions makes every fetch with a group fail, because the keys are too short |
| CostFetch.ReorderedDimensionsMislabel | aws_cost_explorer.py:22-38 | requesting `REGION` before `SERVICE` succeeds, and the `Service` column silently holds the region |
| CostFetch.GetCostAndUsageData | aws_cost_explorer.py:12-45 | the client's response to the built request is flattened: a missing `ResultsByTime` fails with `KeyError('ResultsByTime')`, the fetch succeeds exactly when every bucket of that response is readable, and then yields as many records as the response has groups, group `j` of bucket `i` giving the record at the number of earlier buckets' groups + `j` |
| CostFetch.FetchUsageTable | aws_cost_explorer.py:12-45 | the nested loop, with the request built and sent first, computes exactly the flattening of the client's response |
| CostFetch.BucketRecords | aws_cost_explorer.py:31-45 | the inner loop computes exactly the flattening of one bucket, stopping at the first failing group |

## Left out

- `configure_aws_client` (lines 7-10) is not modelled. It builds a network client.
- `client.get_cost_and_usage` (line 26) is the parameter `client`, a function from request to response. Authentication and network faults are not represented.
- `pd.DataFrame(data)` (line 47) is not modelled. The table is a `seq` of records.
- `insert_data_to_postgres` (lines 50-57) is not modelled. It is database I/O whose errors are only printed.
- `main` and the configuration block (lines 59-91) are not modelled. They read the environment and wire the process together. The configured dimension list of line 86 is `FieldDimensions`. The example in `ReorderedDimensionsMislabel` uses the configured dates, granularity and metrics of lines 82-85 with a reordered dimension list.
- `str()` of a tag or savings-plan value (lines 41-42) is the parameter `render`. Only the absent case, which renders `[]`, is stated.
- The `try:` at line 13 has no `except` or `finally`, so the file as written does not parse. The model follows the evident intent: every lookup failure propagates as the result.
- Response members the fetcher never reads (`NextPageToken`, `Total`, `Estimated`, `GroupDefinitions`, `DimensionValueAttributes`) are not represented. Pagination is not followed, and the fetcher does not follow it either.
- Values whose parsed type differs from the service's shapes cannot be represented. Only presence or absence varies. A `TypeError` from subscripting a value of the wrong type is therefore not modelled.
- Dates, granularity and metric names are passed through without validation, as the source does. The service's rejection of bad values is not modelled.
- UsageTableProperties.AbsentAnnotationsRenderEmpty: assumes that `render` maps the empty list to `[]`, which is what Python's `str([])` gives. `render` is otherwise unconstrained.
- The service's behaviour is not modelled. Two results about it rest on stated assumptions. `ReportedValue` assumes the service lists a group's keys in the order of the request's group-by clauses, with the first clause winning when a dimension is requested twice; `FieldHoldsRequestedDimension` and `DistinctDimensionsLabelFields` are stated through it. `KeysMatchRequest` assumes each group has exactly one key per requested dimension; `TooFewDimensionsFail` requires it.
- The free-form annotation value `Doc` is a simplification of what the service returns. `Fields` is a map, so it does not keep the key order that Python's `str()` of a dictionary prints. `Number` holds integers only, not floats. Neither affects a stated property, because `render` is unconstrained except on the empty list.
- `IndexError(index)` records the position that was out of range. Python's `IndexError` message ("list index out of range") does not carry the position; the model keeps it so that the first failing position can be stated.
