/** The usage fetcher end to end: build the request, hand it to the Cost
    Explorer client, flatten the response. The client is a parameter, a
    function from request to response.
 */
module CostFetch {
  import opened Results
  import opened CostQuery
  import opened CostResponse
  import opened UsageTable
  import opened UsageTableProperties
  import opened Traversal

  /** The dimensions the record fields are named after, in field order;
      this is also the dimension list the entry point configures. */
  const FieldDimensions: seq<string> := ["SERVICE", "RESOURCE_TYPE", "REGION", "USAGE_TYPE", "LINKED_ACCOUNT"]

  /** One fetch: the response the client returns for the built request,
      flattened. Any lookup failure propagates as the result; on success the
      table has one record per group of the response, in bucket order and
      then group order. */
  function GetCostAndUsageData(client: CostAndUsageRequest -> CostAndUsageResponse,
                               startDate: string, endDate: string, granularity: string,
                               metrics: seq<string>, dimensions: seq<string>,
                               render: Doc -> string): (r: Result<seq<UsageRecord>, LookupError>)
    ensures var response := client(BuildRequest(startDate, endDate, granularity, metrics, dimensions));
            && (response.resultsByTime.None? ==> r == Failure(KeyError("ResultsByTime")))
            && (r.Success? <==> response.resultsByTime.Some? && BucketsReadable(response.resultsByTime.value, response))
            && (r.Success? ==> |r.value| == GroupCount(response.resultsByTime.value))
            && (r.Success? ==>
                  forall i, j :: 0 <= i < |response.resultsByTime.value| && 0 <= j < GroupsIn(response.resultsByTime.value[i]) ==>
                    RecordAt(response.resultsByTime.value, response, render, r.value, i, j))
  {
    var request := BuildRequest(startDate, endDate, granularity, metrics, dimensions);
    var response := client(request);
    var table := FlattenResponse(response, render);
    if table.Success? then
      ResponseRecords(response, render, table.value);
      table
    else
      table
  }

  /** The first position of `x` in `s`, if any. */
  function IndexOf(s: seq<string>, x: string): (r: Option<nat>)
    ensures r.Some? ==> r.value < |s| && s[r.value] == x
    ensures r.Some? ==> forall q :: 0 <= q < r.value ==> s[q] != x
    ensures r.None? <==> x !in s
  {
    if |s| == 0 then None
    else if s[0] == x then Some(0)
    else match IndexOf(s[1..], x)
      case None => None
      case Some(q) => Some(q + 1)
  }

  /** The value a group reports for the dimension `name`. The service lists
      a group's keys in the order of the request's group-by clauses, so the
      value sits at the position of the first clause with that key. */
  function ReportedValue(request: CostAndUsageRequest, group: Group, name: string): Option<string> {
    if group.keys.None? then None
    else match IndexOf(GroupedKeys(request.groupBy), name)
      case None => None
      case Some(p) => if p < |group.keys.value| then Some(group.keys.value[p]) else None
  }

  /** The dimension field at position `p` of a record holds the value of the
      `p`-th REQUESTED dimension, whatever that dimension is: the fetcher
      assigns fields by position, not by dimension name. `request` is any
      request grouping by `dimensions`, as `BuildRequest` makes one, and
      `response` any response to it whose groups report their keys in
      request order. */
  lemma FieldHoldsRequestedDimension(request: CostAndUsageRequest, dimensions: seq<string>,
                                     response: CostAndUsageResponse, buckets: seq<ResultByTime>,
                                     render: Doc -> string, rs: seq<UsageRecord>, i: nat, j: nat, p: nat)
    requires GroupedKeys(request.groupBy) == dimensions
    requires response.resultsByTime == Some(buckets)
    requires FlattenResponse(response, render) == Success(rs)
    requires i < |buckets| && j < GroupsIn(buckets[i])
    requires p < DimensionFields && p < |dimensions| && IndexOf(dimensions, dimensions[p]) == Some(p)
    ensures Offset(buckets, i) + j < |rs|
    ensures ReportedValue(request, buckets[i].groups.value[j], dimensions[p])
            == Some(DimensionField(rs[Offset(buckets, i) + j], p))
  {
    assert FlattenBuckets(buckets, response, render) == Success(rs);
    FieldFromKey(buckets, response, render, rs, i, j, p);
  }

  /** True when the first five requested dimensions are pairwise distinct,
      so that each is found at its own position. */
  predicate DistinctFieldDimensions(dimensions: seq<string>) {
    && |dimensions| >= DimensionFields
    && forall p :: 0 <= p < DimensionFields ==> IndexOf(dimensions, dimensions[p]) == Some(p)
  }

  /** When the first five requested dimensions are distinct, every record's
      five dimension fields hold the values of those dimensions, field `p`
      that of `dimensions[p]`. With the configured `FieldDimensions` (see
      `FieldDimensionsDistinct`) this is `Service` holding the SERVICE value,
      `Resource Type` the RESOURCE_TYPE value, and so on. */
  lemma DistinctDimensionsLabelFields(request: CostAndUsageRequest, dimensions: seq<string>,
                                      response: CostAndUsageResponse, buckets: seq<ResultByTime>,
                                      render: Doc -> string, rs: seq<UsageRecord>, i: nat, j: nat)
    requires GroupedKeys(request.groupBy) == dimensions
    requires response.resultsByTime == Some(buckets)
    requires FlattenResponse(response, render) == Success(rs)
    requires i < |buckets| && j < GroupsIn(buckets[i])
    requires DistinctFieldDimensions(dimensions)
    ensures Offset(buckets, i) + j < |rs|
    ensures forall p :: 0 <= p < DimensionFields ==>
              ReportedValue(request, buckets[i].groups.value[j], dimensions[p])
              == Some(DimensionField(rs[Offset(buckets, i) + j], p))
  {
    forall p | 0 <= p < DimensionFields
      ensures Offset(buckets, i) + j < |rs|
      ensures ReportedValue(request, buckets[i].groups.value[j], dimensions[p])
              == Some(DimensionField(rs[Offset(buckets, i) + j], p))
    {
      FieldHoldsRequestedDimension(request, dimensions, response, buckets, render, rs, i, j, p);
    }
    FieldHoldsRequestedDimension(request, dimensions, response, buckets, render, rs, i, j, 0);
  }

  /** An entry that does not occur earlier in the list is found at its own
      position. */
  lemma FirstOccurrence(s: seq<string>, p: nat)
    requires p < |s|
    requires forall q :: 0 <= q < p ==> s[q] != s[p]
    ensures IndexOf(s, s[p]) == Some(p)
  {
  }

  /** Each configured dimension is found at its own position. */
  lemma FieldDimensionsDistinct()
    ensures |FieldDimensions| == DimensionFields
    ensures DistinctFieldDimensions(FieldDimensions)
  {
    var d := FieldDimensions;
    forall p | 0 <= p < DimensionFields
      ensures IndexOf(d, d[p]) == Some(p)
    {
      FirstOccurrence(d, p);
    }
  }

  /** True when every group's keys list one value per requested dimension,
      as the service returns them. */
  predicate KeysMatchRequest(request: CostAndUsageRequest, response: CostAndUsageResponse) {
    response.resultsByTime.Some? &&
    forall i :: 0 <= i < |response.resultsByTime.value| ==>
      var bucket := response.resultsByTime.value[i];
      bucket.groups.Some? ==>
        forall j :: 0 <= j < |bucket.groups.value| ==>
          bucket.groups.value[j].keys.Some? && |bucket.groups.value[j].keys.value| == |request.groupBy|
  }

  /** Requesting fewer than five dimensions makes every non-empty fetch
      fail: the keys are too short for the fixed five-field mapping. */
  lemma TooFewDimensionsFail(client: CostAndUsageRequest -> CostAndUsageResponse,
                             startDate: string, endDate: string, granularity: string,
                             metrics: seq<string>, dimensions: seq<string>, render: Doc -> string)
    requires |dimensions| < DimensionFields
    requires var response := client(BuildRequest(startDate, endDate, granularity, metrics, dimensions));
             && KeysMatchRequest(BuildRequest(startDate, endDate, granularity, metrics, dimensions), response)
             && GroupCount(response.resultsByTime.value) > 0
    ensures GetCostAndUsageData(client, startDate, endDate, granularity, metrics, dimensions, render).Failure?
  {
    var response := client(BuildRequest(startDate, endDate, granularity, metrics, dimensions));
    var i := SomeBucketHasGroups(response.resultsByTime.value);
    ShortKeysFail(response, render, i, 0);
  }

  /** Region, service, resource type, usage type and account: the
      configured dimensions with the first two swapped. */
  const ReorderedDimensions: seq<string> := ["REGION", "SERVICE", "RESOURCE_TYPE", "USAGE_TYPE", "LINKED_ACCOUNT"]

  /** A group as the service reports it for `ReorderedDimensions`: the region
      first, then the service. */
  const ReorderedGroup: Group :=
    Group(Some(["us-east-1", "AmazonEC2", "instance", "BoxUsage", "123456789012"]),
          Some(map[CostMetric := MetricValue(Some("1.5"), Some("USD")),
                   UsageMetric := MetricValue(Some("2"), Some("Hrs"))]),
          None, None)

  /** One daily bucket holding `ReorderedGroup`. */
  const ReorderedBucket: ResultByTime :=
    ResultByTime(Some(DateInterval(Some("2023-01-01"), Some("2023-01-02"))), Some([ReorderedGroup]))

  /** A client that answers every request with `ReorderedBucket` and the
      currency header `USD`. */
  function ReorderedClient(request: CostAndUsageRequest): CostAndUsageResponse {
    CostAndUsageResponse(Some([ReorderedBucket]), Some(ResponseMetadata(Some(map[CurrencyHeader := "USD"]))))
  }

  /** Every subscript the fetcher applies to `ReorderedGroup` succeeds. */
  lemma ReorderedGroupReadable(request: CostAndUsageRequest)
    ensures Readable(ReorderedBucket, ReorderedGroup, ReorderedClient(request))
  {
  }

  /** Requesting the dimensions in another order succeeds and silently
      mislabels the fields: with REGION requested first, the `Service`
      column holds the region, and the service lands in `Resource Type`. */
  lemma ReorderedDimensionsMislabel(render: Doc -> string)
    ensures var request := BuildRequest("2023-01-01", "2023-01-31", "DAILY", [CostMetric, UsageMetric],
                                        ReorderedDimensions);
            var r := GetCostAndUsageData(ReorderedClient, "2023-01-01", "2023-01-31", "DAILY",
                                         [CostMetric, UsageMetric], ReorderedDimensions, render);
            && r.Success?
            && |r.value| == 1
            && r.value[0].service == "us-east-1"
            && r.value[0].resourceType == "AmazonEC2"
            && ReportedValue(request, ReorderedGroup, "REGION") == Some("us-east-1")
            && ReportedValue(request, ReorderedGroup, "SERVICE") == Some("AmazonEC2")
  {
    var dims := ReorderedDimensions;
    var request := BuildRequest("2023-01-01", "2023-01-31", "DAILY", [CostMetric, UsageMetric], dims);
    var response := ReorderedClient(request);
    var buckets := [ReorderedBucket];
    ReorderedGroupReadable(request);
    assert BucketReadable(ReorderedBucket, response);
    assert BucketsReadable(buckets, response);
    var rs := FlattenResponse(response, render).value;
    RecordCount(response, render, rs);
    assert GroupCount(buckets) == 1 by {
      assert buckets[1..] == [];
      assert GroupsIn(buckets[0]) == 1;
      assert Sum(GroupsIn, buckets) == GroupsIn(buckets[0]) + Sum(GroupsIn, []);
    }
    assert FlattenBuckets(buckets, response, render) == Success(rs);
    FieldFromKey(buckets, response, render, rs, 0, 0, 0);
    FieldFromKey(buckets, response, render, rs, 0, 0, 1);
    assert Offset(buckets, 0) == 0 by {
      assert buckets[..0] == [];
    }
    ReorderedLookups(request);
  }

  /** The keys of `ReorderedGroup`, looked up by dimension name in a request
      for `ReorderedDimensions`: the region comes first, the service second. */
  lemma ReorderedLookups(request: CostAndUsageRequest)
    requires GroupedKeys(request.groupBy) == ReorderedDimensions
    ensures ReportedValue(request, ReorderedGroup, "REGION") == Some("us-east-1")
    ensures ReportedValue(request, ReorderedGroup, "SERVICE") == Some("AmazonEC2")
  {
  }

  /** `get_cost_and_usage_data` as the loop it is written as: after the
      request is built and sent, the buckets are walked in order and the
      records of each are appended to `data`; the first failing subscript
      ends the fetch with its error. It computes exactly
      `GetCostAndUsageData`. */
  method FetchUsageTable(client: CostAndUsageRequest -> CostAndUsageResponse,
                         startDate: string, endDate: string, granularity: string,
                         metrics: seq<string>, dimensions: seq<string>, render: Doc -> string)
    returns (r: Result<seq<UsageRecord>, LookupError>)
    ensures r == GetCostAndUsageData(client, startDate, endDate, granularity, metrics, dimensions, render)
  {
    var request := BuildRequest(startDate, endDate, granularity, metrics, dimensions);
    var response := client(request);
    if response.resultsByTime.None? {
      return Failure(KeyError("ResultsByTime"));
    }
    var buckets := response.resultsByTime.value;
    var data: seq<UsageRecord> := [];
    var i := 0;
    while i < |buckets|
      invariant i <= |buckets|
      invariant ConcatAll(ReadBucket(response, render), buckets[..i]) == Success(data)
    {
      var bucketRecords := BucketRecords(buckets[i], response, render);
      ConcatOneMore(ReadBucket(response, render), buckets, i);
      if bucketRecords.Failure? {
        ConcatStopsAtFailure(ReadBucket(response, render), buckets, i);
        return Failure(bucketRecords.error);
      }
      data := data + bucketRecords.value;
      i := i + 1;
    }
    assert buckets[..|buckets|] == buckets;
    return Success(data);
  }

  /** The inner loop for one bucket: `Groups` is subscripted, then one
      record is appended per group until a subscript fails. It computes
      exactly `FlattenBucket`. */
  method BucketRecords(bucket: ResultByTime, response: CostAndUsageResponse, render: Doc -> string)
    returns (r: Result<seq<UsageRecord>, LookupError>)
    ensures r == FlattenBucket(bucket, response, render)
  {
    if bucket.groups.None? {
      return Failure(KeyError("Groups"));
    }
    var groups := bucket.groups.value;
    var records: seq<UsageRecord> := [];
    var j := 0;
    while j < |groups|
      invariant j <= |groups|
      invariant MapAll(ReadGroup(bucket, response, render), groups[..j]) == Success(records)
    {
      var record := MakeRecord(bucket, groups[j], response, render);
      MapOneMore(ReadGroup(bucket, response, render), groups, j);
      if record.Failure? {
        MapStopsAtFailure(ReadGroup(bucket, response, render), groups, j);
        return Failure(record.error);
      }
      records := records + [record.value];
      j := j + 1;
    }
    assert groups[..|groups|] == groups;
    return Success(records);
  }
}
