/** The Cost Explorer `GetCostAndUsage` request that the fetcher builds from
    its arguments: a time period, a granularity, the metrics to return and one
    group-by clause per requested dimension.
 */
module CostQuery {

  /** The `Type` every group-by clause built here carries. */
  const DimensionType: string := "DIMENSION"

  /** `{'Type': groupType, 'Key': key}`. */
  datatype GroupDefinition = GroupDefinition(groupType: string, key: string)

  /** `{'Start': start, 'End': end}`; the dates are ISO date strings,
      passed through without being parsed or compared. */
  datatype Period = Period(start: string, end: string)

  datatype CostAndUsageRequest = CostAndUsageRequest(
    timePeriod: Period,
    granularity: string,
    metrics: seq<string>,
    groupBy: seq<GroupDefinition>)

  /** True when every clause groups by a dimension (rather than a tag or a
      cost category). */
  predicate AllDimensions(groupBy: seq<GroupDefinition>) {
    forall i :: 0 <= i < |groupBy| ==> groupBy[i].groupType == DimensionType
  }

  /** The keys the clauses group by, in clause order. */
  function GroupedKeys(groupBy: seq<GroupDefinition>): (keys: seq<string>)
    ensures |keys| == |groupBy|
    ensures forall i :: 0 <= i < |groupBy| ==> keys[i] == groupBy[i].key
  {
    if |groupBy| == 0 then [] else [groupBy[0].key] + GroupedKeys(groupBy[1..])
  }

  /** The list comprehension `[{'Type': 'DIMENSION', 'Key': dim} for dim in dimensions]`:
      one dimension clause per requested dimension, in the requested order. */
  function GroupByDimensions(dimensions: seq<string>): (groupBy: seq<GroupDefinition>)
    ensures |groupBy| == |dimensions|
    ensures forall i :: 0 <= i < |dimensions| ==>
              groupBy[i].groupType == DimensionType && groupBy[i].key == dimensions[i]
  {
    if |dimensions| == 0 then []
    else [GroupDefinition(DimensionType, dimensions[0])] + GroupByDimensions(dimensions[1..])
  }

  /** The request dictionary: dates, granularity and metrics are passed
      through as given, and the dimensions become the group-by clauses. */
  function BuildRequest(startDate: string, endDate: string, granularity: string,
                        metrics: seq<string>, dimensions: seq<string>): (request: CostAndUsageRequest)
    ensures request.timePeriod.start == startDate && request.timePeriod.end == endDate
    ensures request.granularity == granularity
    ensures request.metrics == metrics
    ensures AllDimensions(request.groupBy)
    ensures GroupedKeys(request.groupBy) == dimensions
  {
    CostAndUsageRequest(Period(startDate, endDate), granularity, metrics, GroupByDimensions(dimensions))
  }

  /** Reading the keys back out of the built clauses gives the requested
      dimensions: nothing is dropped, added, reordered or renamed. */
  lemma GroupedKeysOfDimensions(dimensions: seq<string>)
    ensures GroupedKeys(GroupByDimensions(dimensions)) == dimensions
  {
  }

  /** Conversely, a list of dimension clauses is exactly what the builder
      produces from its keys, so the builder's outputs are precisely the
      all-dimension clause lists. */
  lemma DimensionsOfGroupedKeys(groupBy: seq<GroupDefinition>)
    requires AllDimensions(groupBy)
    ensures GroupByDimensions(GroupedKeys(groupBy)) == groupBy
  {
  }

  /** Two requests built from different dimension lists differ: the request
      determines the dimension list it was built from. */
  lemma BuildRequestInjective(startDate: string, endDate: string, granularity: string,
                              metrics: seq<string>, dimensions: seq<string>, otherDimensions: seq<string>)
    requires BuildRequest(startDate, endDate, granularity, metrics, dimensions)
          == BuildRequest(startDate, endDate, granularity, metrics, otherDimensions)
    ensures dimensions == otherDimensions
  {
  }
}
