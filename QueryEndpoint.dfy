/**
 * The query-parameter map a query endpoint sends: predicates, sort
 * options, limit and offset, each only when given.
 */
module QueryEndpoint {
  import opened Wrappers

  /** A parameter is either a list of strings or an unsigned count. */
  datatype ParameterValue = StringList(items: seq<string>) | Count(n: nat)

  /**
   * `queryParameters`: "where" and "sort" appear only for non-empty lists,
   * "limit" and "offset" whenever they are given (zero included), and no
   * other key ever appears.
   */
  method QueryParameters(predicates: Option<seq<string>>, sort: Option<seq<string>>,
                         limit: Option<nat>, offset: Option<nat>)
    returns (parameters: map<string, ParameterValue>)
    ensures "where" in parameters <==> predicates.Some? && |predicates.value| > 0
    ensures "where" in parameters ==> parameters["where"] == StringList(predicates.value)
    ensures "sort" in parameters <==> sort.Some? && |sort.value| > 0
    ensures "sort" in parameters ==> parameters["sort"] == StringList(sort.value)
    ensures "limit" in parameters <==> limit.Some?
    ensures "limit" in parameters ==> parameters["limit"] == Count(limit.value)
    ensures "offset" in parameters <==> offset.Some?
    ensures "offset" in parameters ==> parameters["offset"] == Count(offset.value)
    ensures parameters.Keys <= {"where", "sort", "limit", "offset"}
    ensures
      ((predicates.None? || predicates.value == []) && (sort.None? || sort.value == []) &&
       limit.None? && offset.None?) ==> parameters == map[]
  {
    parameters := map[];
    if predicates.Some? && |predicates.value| > 0 {
      parameters := parameters["where" := StringList(predicates.value)];
    }
    if sort.Some? && |sort.value| > 0 {
      parameters := parameters["sort" := StringList(sort.value)];
    }
    if limit.Some? {
      parameters := parameters["limit" := Count(limit.value)];
    }
    if offset.Some? {
      parameters := parameters["offset" := Count(offset.value)];
    }
  }
}
