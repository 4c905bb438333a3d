/** The `GetCostAndUsage` response as the fetcher receives it: time buckets
    (`ResultsByTime`), each holding groups with their dimension keys and
    metric amounts, plus response-level metadata carrying the currency
    header.

    The client library parses the response against the service's shapes, so
    each member has a fixed type; what varies is whether a member is present.
    Every member the fetcher subscripts is therefore an `Option`, and the
    subscript functions below turn an absent member into the error Python
    raises for it.
 */
module CostResponse {
  import opened Results

  /** The exceptions a subscript can raise: `KeyError` for a missing
      dictionary key, `IndexError` for a list position past the end. */
  datatype LookupError = KeyError(key: string) | IndexError(index: nat)

  /** A free-form value, as the optional annotations of a group are. */
  datatype Doc =
    | Null
    | Flag(b: bool)
    | Number(n: int)
    | Text(s: string)
    | Items(items: seq<Doc>)
    | Fields(fields: map<string, Doc>)

  /** `[]`, the default the fetcher uses for an absent annotation. */
  const EmptyList: Doc := Items([])

  /** `{'Start': ..., 'End': ...}` of one time bucket. */
  datatype DateInterval = DateInterval(start: Option<string>, end: Option<string>)

  /** `{'Amount': ..., 'Unit': ...}`; the amount is a decimal string. */
  datatype MetricValue = MetricValue(amount: Option<string>, unit: Option<string>)

  /** One group of a time bucket: the values of the group-by dimensions, in
      the order they were requested, and the requested metrics by name. */
  datatype Group = Group(
    keys: Option<seq<string>>,
    metrics: Option<map<string, MetricValue>>,
    tags: Option<Doc>,
    savingsPlans: Option<Doc>)

  /** One element of `ResultsByTime`. */
  datatype ResultByTime = ResultByTime(
    timePeriod: Option<DateInterval>,
    groups: Option<seq<Group>>)

  /** `ResponseMetadata`; header names are lower-case. */
  datatype ResponseMetadata = ResponseMetadata(httpHeaders: Option<map<string, string>>)

  datatype CostAndUsageResponse = CostAndUsageResponse(
    resultsByTime: Option<seq<ResultByTime>>,
    responseMetadata: Option<ResponseMetadata>)

  /** `d[key]` for a member `key` of a parsed structure. */
  function Member<T>(member: Option<T>, key: string): Result<T, LookupError> {
    match member
    case Some(v) => Success(v)
    case None => Failure(KeyError(key))
  }

  /** `m[key]` for a dictionary with arbitrary keys. */
  function Entry<T>(m: map<string, T>, key: string): Result<T, LookupError> {
    if key in m then Success(m[key]) else Failure(KeyError(key))
  }

  /** `s[i]` for a non-negative position. */
  function Position<T>(s: seq<T>, i: nat): Result<T, LookupError> {
    if i < |s| then Success(s[i]) else Failure(IndexError(i))
  }

  /** The header the currency code is read from. */
  const CurrencyHeader: string := "content-currency"

  /** True when `response['ResponseMetadata']['HTTPHeaders']['content-currency']` exists. */
  predicate HasCurrency(response: CostAndUsageResponse) {
    && response.responseMetadata.Some?
    && response.responseMetadata.value.httpHeaders.Some?
    && CurrencyHeader in response.responseMetadata.value.httpHeaders.value
  }

  /** The response-level currency code. */
  function Currency(response: CostAndUsageResponse): string
    requires HasCurrency(response)
  {
    response.responseMetadata.value.httpHeaders.value[CurrencyHeader]
  }

  /** `response['ResponseMetadata']['HTTPHeaders']['content-currency']`: the
      code when all three keys are present, otherwise a `KeyError` naming
      the first one missing. */
  function ContentCurrency(response: CostAndUsageResponse): (r: Result<string, LookupError>)
    ensures r.Success? <==> HasCurrency(response)
    ensures r.Success? ==> r.value == Currency(response)
    ensures response.responseMetadata.None? ==> r == Failure(KeyError("ResponseMetadata"))
    ensures response.responseMetadata.Some? && response.responseMetadata.value.httpHeaders.None? ==>
              r == Failure(KeyError("HTTPHeaders"))
    ensures r.Failure? && response.responseMetadata.Some? && response.responseMetadata.value.httpHeaders.Some? ==>
              r == Failure(KeyError(CurrencyHeader))
  {
    var metadata :- Member(response.responseMetadata, "ResponseMetadata");
    var headers :- Member(metadata.httpHeaders, "HTTPHeaders");
    Entry(headers, CurrencyHeader)
  }
}
