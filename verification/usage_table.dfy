/** Flattening a cost-and-usage response into a usage table: one record per
    group, bucket after bucket and group after group, with the dimension
    fields taken positionally from the group's keys.
 */
module UsageTable {
  import opened Results
  import opened CostResponse
  import opened Traversal

  /** One row of the usage table. Each field is named after its column:
      `Date/Time Stamp`, `Service`, `Resource Type`, `Region`, `Usage Type`,
      `Account`, `Cost`, `Usage Metrics`, `Tags`,
      `Savings Plans and Reserved Instances`, `Currency`. */
  datatype UsageRecord = UsageRecord(
    timestamp: string,
    service: string,
    resourceType: string,
    region: string,
    usageType: string,
    account: string,
    cost: string,
    usageMetrics: string,
    tags: string,
    savingsPlans: string,
    currency: string)

  /** The number of dimension fields, read from `Keys[0]` to `Keys[4]`. */
  const DimensionFields: nat := 5

  /** The metric whose amount fills `Cost`. */
  const CostMetric: string := "BlendedCost"

  /** The metric whose amount fills `Usage Metrics`. */
  const UsageMetric: string := "UsageQuantity"

  /** The dimension field filled from `Keys[p]`. */
  function DimensionField(rec: UsageRecord, p: nat): string
    requires p < DimensionFields
  {
    match p
    case 0 => rec.service
    case 1 => rec.resourceType
    case 2 => rec.region
    case 3 => rec.usageType
    case 4 => rec.account
  }

  /** True when `metrics[name]['Amount']` exists. */
  predicate HasAmount(metrics: map<string, MetricValue>, name: string) {
    name in metrics && metrics[name].amount.Some?
  }

  /** True when every subscript the record of `group` in `bucket` needs
      succeeds: the bucket's start date, five keys, both metric amounts and
      the response's currency header. */
  predicate Readable(bucket: ResultByTime, group: Group, response: CostAndUsageResponse) {
    && bucket.timePeriod.Some?
    && bucket.timePeriod.value.start.Some?
    && group.keys.Some?
    && |group.keys.value| >= DimensionFields
    && group.metrics.Some?
    && HasAmount(group.metrics.value, CostMetric)
    && HasAmount(group.metrics.value, UsageMetric)
    && HasCurrency(response)
  }

  /** True when `rec` is the record the fetcher emits for `group` in
      `bucket`: every field is copied from where the fetcher reads it, the
      annotations are rendered with `[]` standing in for an absent one. */
  ghost predicate RecordOf(bucket: ResultByTime, group: Group, response: CostAndUsageResponse,
                           render: Doc -> string, rec: UsageRecord)
  {
    && Readable(bucket, group, response)
    && rec.timestamp == bucket.timePeriod.value.start.value
    && (forall p :: 0 <= p < DimensionFields ==> DimensionField(rec, p) == group.keys.value[p])
    && rec.cost == group.metrics.value[CostMetric].amount.value
    && rec.usageMetrics == group.metrics.value[UsageMetric].amount.value
    && rec.tags == render(group.tags.GetOr(EmptyList))
    && rec.savingsPlans == render(group.savingsPlans.GetOr(EmptyList))
    && rec.currency == Currency(response)
  }

  /** The dictionary literal built for one group. Its values are evaluated
      in column order, so a failure reports the first subscript that fails
      in that order; the currency header is looked up last, once per group. */
  function MakeRecord(bucket: ResultByTime, group: Group, response: CostAndUsageResponse,
                      render: Doc -> string): (r: Result<UsageRecord, LookupError>)
    ensures r.Success? <==> Readable(bucket, group, response)
    ensures r.Success? ==> RecordOf(bucket, group, response, render, r.value)
  {
    var period :- Member(bucket.timePeriod, "TimePeriod");
    var timestamp :- Member(period.start, "Start");
    var keys :- Member(group.keys, "Keys");
    var service :- Position(keys, 0);
    var resourceType :- Position(keys, 1);
    var region :- Position(keys, 2);
    var usageType :- Position(keys, 3);
    var account :- Position(keys, 4);
    var metrics :- Member(group.metrics, "Metrics");
    var blendedCost :- Entry(metrics, CostMetric);
    var cost :- Member(blendedCost.amount, "Amount");
    var usageQuantity :- Entry(metrics, UsageMetric);
    var usage :- Member(usageQuantity.amount, "Amount");
    var currency :- ContentCurrency(response);
    Success(UsageRecord(timestamp, service, resourceType, region, usageType, account, cost, usage,
                        render(group.tags.GetOr(EmptyList)),
                        render(group.savingsPlans.GetOr(EmptyList)),
                        currency))
  }

  /** The error of an unreadable group is the one Python raises first,
      reading the columns left to right: the bucket's `TimePeriod` and
      `Start`, then `Keys` and its positions 0 to 4, then `Metrics`, its
      `BlendedCost` and `UsageQuantity` entries with their `Amount`s, and
      last the currency header. */
  lemma MakeRecordErrors(bucket: ResultByTime, group: Group, response: CostAndUsageResponse,
                         render: Doc -> string)
    ensures var r := MakeRecord(bucket, group, response, render);
            && (bucket.timePeriod.None? ==> r == Failure(KeyError("TimePeriod")))
            && (bucket.timePeriod.Some? && bucket.timePeriod.value.start.None? ==>
                  r == Failure(KeyError("Start")))
            && (bucket.timePeriod.Some? && bucket.timePeriod.value.start.Some? && group.keys.None? ==>
                  r == Failure(KeyError("Keys")))
            && ((&& bucket.timePeriod.Some? && bucket.timePeriod.value.start.Some?
                 && group.keys.Some? && |group.keys.value| < DimensionFields) ==>
                  r == Failure(IndexError(|group.keys.value|)))
            && ((&& bucket.timePeriod.Some? && bucket.timePeriod.value.start.Some?
                 && group.keys.Some? && |group.keys.value| >= DimensionFields && group.metrics.None?) ==>
                  r == Failure(KeyError("Metrics")))
            && (MetricsReached(bucket, group) ==> MetricErrors(group.metrics.value, r))
            && ((&& MetricsReached(bucket, group)
                 && HasAmount(group.metrics.value, CostMetric) && HasAmount(group.metrics.value, UsageMetric)
                 && !HasCurrency(response)) ==>
                  r == Failure(ContentCurrency(response).error))
  {
  }

  /** True when every lookup before `Metrics`' entries succeeds. */
  predicate MetricsReached(bucket: ResultByTime, group: Group) {
    && bucket.timePeriod.Some? && bucket.timePeriod.value.start.Some?
    && group.keys.Some? && |group.keys.value| >= DimensionFields
    && group.metrics.Some?
  }

  /** The error order among the metric lookups: `BlendedCost`, its
      `Amount`, `UsageQuantity`, its `Amount`. */
  predicate MetricErrors(metrics: map<string, MetricValue>, r: Result<UsageRecord, LookupError>) {
    && (CostMetric !in metrics ==> r == Failure(KeyError(CostMetric)))
    && (CostMetric in metrics && metrics[CostMetric].amount.None? ==> r == Failure(KeyError("Amount")))
    && (HasAmount(metrics, CostMetric) && UsageMetric !in metrics ==> r == Failure(KeyError(UsageMetric)))
    && (HasAmount(metrics, CostMetric) && UsageMetric in metrics && metrics[UsageMetric].amount.None? ==>
          r == Failure(KeyError("Amount")))
  }

  /** One pass of the inner loop body, as a step over the groups of `bucket`. */
  function ReadGroup(bucket: ResultByTime, response: CostAndUsageResponse, render: Doc -> string)
    : Group -> Result<UsageRecord, LookupError>
  {
    (group: Group) => MakeRecord(bucket, group, response, render)
  }

  /** The number of groups in one bucket, counting an absent list as none. */
  function GroupsIn(bucket: ResultByTime): nat {
    if bucket.groups.Some? then |bucket.groups.value| else 0
  }

  /** The total number of groups over a list of buckets. */
  function GroupCount(buckets: seq<ResultByTime>): nat {
    Sum(GroupsIn, buckets)
  }

  /** True when the bucket has a `Groups` list and every group in it is readable. */
  predicate BucketReadable(bucket: ResultByTime, response: CostAndUsageResponse) {
    && bucket.groups.Some?
    && forall j :: 0 <= j < |bucket.groups.value| ==> Readable(bucket, bucket.groups.value[j], response)
  }

  /** True when every bucket is readable. */
  predicate BucketsReadable(buckets: seq<ResultByTime>, response: CostAndUsageResponse) {
    forall i :: 0 <= i < |buckets| ==> BucketReadable(buckets[i], response)
  }

  /** One pass of the outer loop body: `Groups` is subscripted, then the
      inner loop emits one record per group, in group order. */
  function FlattenBucket(bucket: ResultByTime, response: CostAndUsageResponse,
                         render: Doc -> string): (r: Result<seq<UsageRecord>, LookupError>)
    ensures bucket.groups.None? ==> r == Failure(KeyError("Groups"))
    ensures r.Success? <==> BucketReadable(bucket, response)
    ensures r.Success? ==> |r.value| == GroupsIn(bucket)
    ensures r.Success? ==> forall j :: 0 <= j < GroupsIn(bucket) ==>
              MakeRecord(bucket, bucket.groups.value[j], response, render) == Success(r.value[j])
  {
    var groups :- Member(bucket.groups, "Groups");
    MapAll(ReadGroup(bucket, response, render), groups)
  }

  /** The outer loop body as a step over the buckets. */
  function ReadBucket(response: CostAndUsageResponse, render: Doc -> string)
    : ResultByTime -> Result<seq<UsageRecord>, LookupError>
  {
    (bucket: ResultByTime) => FlattenBucket(bucket, response, render)
  }

  /** The outer loop over the time buckets: the records of each bucket
      follow those of the buckets before it. */
  function FlattenBuckets(buckets: seq<ResultByTime>, response: CostAndUsageResponse,
                          render: Doc -> string): (r: Result<seq<UsageRecord>, LookupError>)
    ensures r.Success? <==> BucketsReadable(buckets, response)
  {
    ConcatAll(ReadBucket(response, render), buckets)
  }

  /** The flattening of a whole response: `ResultsByTime` must be present,
      then every bucket is flattened in order. */
  function FlattenResponse(response: CostAndUsageResponse, render: Doc -> string)
    : (r: Result<seq<UsageRecord>, LookupError>)
    ensures response.resultsByTime.None? ==> r == Failure(KeyError("ResultsByTime"))
    ensures r.Success? <==> response.resultsByTime.Some? && BucketsReadable(response.resultsByTime.value, response)
  {
    var buckets :- Member(response.resultsByTime, "ResultsByTime");
    FlattenBuckets(buckets, response, render)
  }
}
