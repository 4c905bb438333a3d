/** What the usage table promises about a successful flattening (where each
    record comes from and what it holds) and about the inputs that make the
    flattening fail.
 */
module UsageTableProperties {
  import opened Results
  import opened CostResponse
  import opened UsageTable
  import opened Traversal

  /** The index of the first record of bucket `i`: the number of groups in
      the buckets before it. */
  function Offset(buckets: seq<ResultByTime>, i: nat): nat
    requires i <= |buckets|
  {
    Sum(GroupsIn, buckets[..i])
  }

  /** Each bucket's run of records is as long as its group list. */
  lemma BucketsSized(buckets: seq<ResultByTime>, response: CostAndUsageResponse, render: Doc -> string)
    ensures SizedBy(ReadBucket(response, render), GroupsIn, buckets)
  {
  }

  /** The records of bucket `i` occupy the positions from `Offset(buckets, i)`
      up to `Offset(buckets, i + 1)`, and the buckets together fill the table
      from 0 to `GroupCount(buckets)`. */
  lemma OffsetLayout(buckets: seq<ResultByTime>, i: nat)
    requires i < |buckets|
    ensures Offset(buckets, 0) == 0
    ensures Offset(buckets, i + 1) == Offset(buckets, i) + GroupsIn(buckets[i])
    ensures Offset(buckets, |buckets|) == GroupCount(buckets)
  {
    SumLayout(GroupsIn, buckets, i);
  }

  /** On success the table has exactly one record per group of the
      response: no group is dropped, merged or duplicated. */
  lemma RecordCount(response: CostAndUsageResponse, render: Doc -> string, rs: seq<UsageRecord>)
    requires FlattenResponse(response, render) == Success(rs)
    ensures response.resultsByTime.Some?
    ensures |rs| == GroupCount(response.resultsByTime.value)
  {
    var buckets := response.resultsByTime.value;
    BucketsSized(buckets, response, render);
    ConcatLength(ReadBucket(response, render), GroupsIn, buckets);
  }

  /** Group `j` of bucket `i` yields the record at position
      `Offset(buckets, i) + j`: buckets keep their order, groups keep their
      order inside a bucket, and the record holds that group's data. */
  lemma RecordPosition(buckets: seq<ResultByTime>, response: CostAndUsageResponse,
                       render: Doc -> string, rs: seq<UsageRecord>, i: nat, j: nat)
    requires FlattenBuckets(buckets, response, render) == Success(rs)
    requires i < |buckets| && j < GroupsIn(buckets[i])
    ensures buckets[i].groups.Some?
    ensures Offset(buckets, i) + j < |rs|
    ensures RecordOf(buckets[i], buckets[i].groups.value[j], response, render, rs[Offset(buckets, i) + j])
  {
    BucketsSized(buckets, response, render);
    ConcatPosition(ReadBucket(response, render), GroupsIn, buckets, rs, i, j);
  }

  /** The dimension field `p` of a group's record is the group's `Keys[p]`:
      fields are assigned by position. */
  lemma FieldFromKey(buckets: seq<ResultByTime>, response: CostAndUsageResponse,
                     render: Doc -> string, rs: seq<UsageRecord>, i: nat, j: nat, p: nat)
    requires FlattenBuckets(buckets, response, render) == Success(rs)
    requires i < |buckets| && j < GroupsIn(buckets[i]) && p < DimensionFields
    ensures buckets[i].groups.Some? && buckets[i].groups.value[j].keys.Some?
    ensures p < |buckets[i].groups.value[j].keys.value|
    ensures Offset(buckets, i) + j < |rs|
    ensures DimensionField(rs[Offset(buckets, i) + j], p) == buckets[i].groups.value[j].keys.value[p]
  {
    RecordPosition(buckets, response, render, rs, i, j);
  }

  /** Every record comes from one group: record `k` is the record of group
      `j` of bucket `i`, where `k == Offset(buckets, i) + j`. Nothing is
      invented or reordered. */
  lemma RecordProvenance(buckets: seq<ResultByTime>, response: CostAndUsageResponse,
                         render: Doc -> string, rs: seq<UsageRecord>, k: nat)
    returns (i: nat, j: nat)
    requires FlattenBuckets(buckets, response, render) == Success(rs)
    requires k < |rs|
    ensures i < |buckets| && buckets[i].groups.Some? && j < |buckets[i].groups.value|
    ensures k == Offset(buckets, i) + j
    ensures RecordOf(buckets[i], buckets[i].groups.value[j], response, render, rs[k])
  {
    BucketsSized(buckets, response, render);
    i, j := ConcatProvenance(ReadBucket(response, render), GroupsIn, buckets, rs, k);
  }

  /** Distinct groups have distinct record positions: together with
      `RecordProvenance`, each record comes from exactly one group. */
  lemma OffsetsDistinct(buckets: seq<ResultByTime>, i: nat, j: nat, i2: nat, j2: nat)
    requires i < |buckets| && j < GroupsIn(buckets[i])
    requires i2 < |buckets| && j2 < GroupsIn(buckets[i2])
    requires Offset(buckets, i) + j == Offset(buckets, i2) + j2
    ensures i == i2 && j == j2
  {
    PositionsDistinct(GroupsIn, buckets, i, j, i2, j2);
  }

  /** True when the record at group `j` of bucket `i`'s position exists and
      is that group's record. */
  ghost predicate RecordAt(buckets: seq<ResultByTime>, response: CostAndUsageResponse,
                           render: Doc -> string, rs: seq<UsageRecord>, i: nat, j: nat)
    requires i < |buckets|
  {
    && buckets[i].groups.Some?
    && j < |buckets[i].groups.value|
    && Offset(buckets, i) + j < |rs|
    && RecordOf(buckets[i], buckets[i].groups.value[j], response, render, rs[Offset(buckets, i) + j])
  }

  /** On success the table holds exactly one record per group of the
      response, in bucket order and then group order. */
  lemma ResponseRecords(response: CostAndUsageResponse, render: Doc -> string, rs: seq<UsageRecord>)
    requires FlattenResponse(response, render) == Success(rs)
    ensures response.resultsByTime.Some?
    ensures |rs| == GroupCount(response.resultsByTime.value)
    ensures forall i, j :: 0 <= i < |response.resultsByTime.value| && 0 <= j < GroupsIn(response.resultsByTime.value[i]) ==>
              RecordAt(response.resultsByTime.value, response, render, rs, i, j)
  {
    RecordCount(response, render, rs);
    var buckets := response.resultsByTime.value;
    forall i, j | 0 <= i < |buckets| && 0 <= j < GroupsIn(buckets[i])
      ensures RecordAt(buckets, response, render, rs, i, j)
    {
      RecordPosition(buckets, response, render, rs, i, j);
    }
  }

  /** Every record carries the response-level currency code, so all records
      of one response agree on it. */
  lemma CurrencyUniform(response: CostAndUsageResponse, render: Doc -> string, rs: seq<UsageRecord>)
    requires FlattenResponse(response, render) == Success(rs)
    ensures |rs| > 0 ==> HasCurrency(response)
    ensures forall k :: 0 <= k < |rs| ==> HasCurrency(response) && rs[k].currency == Currency(response)
  {
    var buckets := response.resultsByTime.value;
    assert FlattenBuckets(buckets, response, render) == Success(rs);
    forall k | 0 <= k < |rs|
      ensures HasCurrency(response) && rs[k].currency == Currency(response)
    {
      var i, j := RecordProvenance(buckets, response, render, rs, k);
    }
    if |rs| > 0 {
      assert HasCurrency(response) && rs[0].currency == Currency(response);
    }
  }

  /** Every record's timestamp is the start date of some bucket of the
      response: no other value appears in that column. */
  lemma TimestampsFromBuckets(response: CostAndUsageResponse, render: Doc -> string, rs: seq<UsageRecord>)
    requires FlattenResponse(response, render) == Success(rs)
    ensures forall k :: 0 <= k < |rs| ==>
              exists i :: && 0 <= i < |response.resultsByTime.value|
                          && response.resultsByTime.value[i].timePeriod.Some?
                          && response.resultsByTime.value[i].timePeriod.value.start == Some(rs[k].timestamp)
  {
    assert FlattenBuckets(response.resultsByTime.value, response, render) == Success(rs);
    forall k | 0 <= k < |rs|
      ensures exists i :: && 0 <= i < |response.resultsByTime.value|
                          && response.resultsByTime.value[i].timePeriod.Some?
                          && response.resultsByTime.value[i].timePeriod.value.start == Some(rs[k].timestamp)
    {
      var i, j := RecordProvenance(response.resultsByTime.value, response, render, rs, k);
      assert response.resultsByTime.value[i].timePeriod.value.start == Some(rs[k].timestamp);
    }
  }

  /** A response whose buckets are all present with empty group lists
      flattens to the empty table, whatever its metadata and time periods:
      neither is read when there is no group. */
  lemma {:induction false} EmptyGroupsGiveEmptyTable(response: CostAndUsageResponse, render: Doc -> string)
    requires response.resultsByTime.Some?
    requires forall i :: 0 <= i < |response.resultsByTime.value| ==> response.resultsByTime.value[i].groups == Some([])
    ensures FlattenResponse(response, render) == Success([])
  {
    var buckets := response.resultsByTime.value;
    assert BucketsReadable(buckets, response);
    NoGroupsCount(buckets);
    BucketsSized(buckets, response, render);
    ConcatLength(ReadBucket(response, render), GroupsIn, buckets);
  }

  lemma {:induction false} NoGroupsCount(buckets: seq<ResultByTime>)
    requires forall i :: 0 <= i < |buckets| ==> GroupsIn(buckets[i]) == 0
    ensures GroupCount(buckets) == 0
  {
    if |buckets| > 0 {
      NoGroupsCount(buckets[1..]);
    }
  }

  /** Some bucket holds a group whenever the group count is positive. */
  lemma {:induction false} SomeBucketHasGroups(buckets: seq<ResultByTime>) returns (i: nat)
    requires GroupCount(buckets) > 0
    ensures i < |buckets| && buckets[i].groups.Some? && |buckets[i].groups.value| > 0
  {
    if GroupsIn(buckets[0]) > 0 {
      i := 0;
    } else {
      var i' := SomeBucketHasGroups(buckets[1..]);
      i := i' + 1;
    }
  }

  /** With at least one group, a missing currency header makes the whole
      flattening fail: the header is read for every group. */
  lemma MissingCurrencyFails(response: CostAndUsageResponse, render: Doc -> string)
    requires response.resultsByTime.Some?
    requires GroupCount(response.resultsByTime.value) > 0
    requires !HasCurrency(response)
    ensures FlattenResponse(response, render).Failure?
  {
    var buckets := response.resultsByTime.value;
    var i := SomeBucketHasGroups(buckets);
    assert !Readable(buckets[i], buckets[i].groups.value[0], response);
    assert !BucketReadable(buckets[i], response);
  }

  /** A group with fewer than five keys makes the whole flattening fail,
      even when every other group is complete; no partial table is
      produced. */
  lemma ShortKeysFail(response: CostAndUsageResponse, render: Doc -> string, i: nat, j: nat)
    requires response.resultsByTime.Some?
    requires i < |response.resultsByTime.value|
    requires j < GroupsIn(response.resultsByTime.value[i])
    requires response.resultsByTime.value[i].groups.value[j].keys.Some?
    requires |response.resultsByTime.value[i].groups.value[j].keys.value| < DimensionFields
    ensures FlattenResponse(response, render).Failure?
  {
  }

  /** A group lacking the `BlendedCost` or the `UsageQuantity` amount makes
      the whole flattening fail. */
  lemma MissingMetricFails(response: CostAndUsageResponse, render: Doc -> string, i: nat, j: nat)
    requires response.resultsByTime.Some?
    requires i < |response.resultsByTime.value|
    requires j < GroupsIn(response.resultsByTime.value[i])
    requires var metrics := response.resultsByTime.value[i].groups.value[j].metrics;
             metrics.None? || !HasAmount(metrics.value, CostMetric) || !HasAmount(metrics.value, UsageMetric)
    ensures FlattenResponse(response, render).Failure?
  {
  }

  /** An absent `Tags` or `SavingsPlansPurchaseRecommendationDetails` member
      is rendered as `[]`, the text of the empty list, never left absent. */
  lemma AbsentAnnotationsRenderEmpty(response: CostAndUsageResponse, buckets: seq<ResultByTime>,
                                     render: Doc -> string, rs: seq<UsageRecord>, i: nat, j: nat)
    requires response.resultsByTime == Some(buckets)
    requires FlattenResponse(response, render) == Success(rs)
    requires render(EmptyList) == "[]"
    requires i < |buckets| && j < GroupsIn(buckets[i])
    ensures Offset(buckets, i) + j < |rs|
    ensures buckets[i].groups.value[j].tags.None? ==> rs[Offset(buckets, i) + j].tags == "[]"
    ensures buckets[i].groups.value[j].savingsPlans.None? ==> rs[Offset(buckets, i) + j].savingsPlans == "[]"
  {
    assert FlattenBuckets(buckets, response, render) == Success(rs);
    RecordPosition(buckets, response, render, rs, i, j);
  }

  /** A failed flattening reports the error of the first group that cannot
      be read, in bucket order and then group order: the buckets before
      bucket `i` and the groups before group `j` of it are all readable, and
      the error is group `j`'s own (or the missing `Groups` of bucket `i`). */
  lemma FirstFailure(response: CostAndUsageResponse, render: Doc -> string) returns (i: nat, j: nat)
    requires response.resultsByTime.Some?
    requires FlattenResponse(response, render).Failure?
    ensures i < |response.resultsByTime.value|
    ensures forall k :: 0 <= k < i ==> BucketReadable(response.resultsByTime.value[k], response)
    ensures !BucketReadable(response.resultsByTime.value[i], response)
    ensures var bucket := response.resultsByTime.value[i];
            bucket.groups.None? ==> FlattenResponse(response, render).error == KeyError("Groups")
    ensures var bucket := response.resultsByTime.value[i];
            bucket.groups.Some? ==>
              && j < |bucket.groups.value|
              && (forall l :: 0 <= l < j ==> Readable(bucket, bucket.groups.value[l], response))
              && !Readable(bucket, bucket.groups.value[j], response)
              && MakeRecord(bucket, bucket.groups.value[j], response, render)
                 == Failure(FlattenResponse(response, render).error)
  {
    var buckets := response.resultsByTime.value;
    var err := FlattenResponse(response, render).error;
    i := ConcatFirstFailure(ReadBucket(response, render), buckets);
    assert FlattenBucket(buckets[i], response, render) == Failure(err);
    forall k | 0 <= k < i
      ensures BucketReadable(buckets[k], response)
    {
      assert FlattenBucket(buckets[k], response, render).Success?;
    }
    j := 0;
    var bucket := buckets[i];
    if bucket.groups.Some? {
      var groups := bucket.groups.value;
      assert MapAll(ReadGroup(bucket, response, render), groups) == Failure(err);
      j := MapFirstFailure(ReadGroup(bucket, response, render), groups);
      forall l | 0 <= l < j
        ensures Readable(bucket, groups[l], response)
      {
        assert MakeRecord(bucket, groups[l], response, render).Success?;
      }
    }
  }
}
