/** The account statistics request (src/client/statistics.rs). */
module Statistics {
  import opened Wrappers
  import opened Errors
  import opened Strings
  import opened BunnyClient

  /** `StatisticsParameters`: six optional filters. */
  datatype StatisticsParameters = StatisticsParameters(
    dateFrom: Option<DateTime>,
    dateTo: Option<DateTime>,
    pullZone: Option<Int64>,
    serverZoneId: Option<Int64>,
    loadErrors: Option<bool>,
    hourly: Option<bool>)

  /** The only query keys the statistics request uses. */
  const StatisticsKeys: set<string> := {"dateFrom", "dateTo", "pullZone", "serverZoneId", "loadErrors", "hourly"}

  /** How many of the six filters are given. */
  function PresentCount(p: StatisticsParameters): nat {
    (if p.dateFrom.Some? then 1 else 0) + (if p.dateTo.Some? then 1 else 0)
    + (if p.pullZone.Some? then 1 else 0) + (if p.serverZoneId.Some? then 1 else 0)
    + (if p.loadErrors.Some? then 1 else 0) + (if p.hourly.Some? then 1 else 0)
  }

  /** The query of `prepare_statistics_params`: one entry per given filter, dates in
      RFC 3339, ids in decimal and flags as "true" or "false". */
  function StatisticsQuery(params: Option<StatisticsParameters>, rfc3339: DateTime -> string): map<string, string> {
    match params
    case None => map[]
    case Some(p) =>
      var q1 := InsertSome(map[], "dateFrom", (if p.dateFrom.Some? then Some(rfc3339(p.dateFrom.value)) else None));
      var q2 := InsertSome(q1, "dateTo", (if p.dateTo.Some? then Some(rfc3339(p.dateTo.value)) else None));
      var q3 := InsertSome(q2, "pullZone", (if p.pullZone.Some? then Some(IntToDecimal(p.pullZone.value)) else None));
      var q4 := InsertSome(q3, "serverZoneId", (if p.serverZoneId.Some? then Some(IntToDecimal(p.serverZoneId.value)) else None));
      var q5 := InsertSome(q4, "loadErrors", (if p.loadErrors.Some? then Some(BoolToString(p.loadErrors.value)) else None));
      InsertSome(q5, "hourly", (if p.hourly.Some? then Some(BoolToString(p.hourly.value)) else None))
  }

  /** No parameters give no query; otherwise each of the six keys is present exactly when
      its filter is given, and no other key appears. */
  lemma StatisticsQueryKeys(params: Option<StatisticsParameters>, rfc3339: DateTime -> string)
    ensures params.None? ==> StatisticsQuery(params, rfc3339) == map[]
    ensures StatisticsQuery(params, rfc3339).Keys <= StatisticsKeys
    ensures params.Some? ==>
      var q := StatisticsQuery(params, rfc3339);
      var p := params.value;
      && ("dateFrom" in q <==> p.dateFrom.Some?)
      && ("dateTo" in q <==> p.dateTo.Some?)
      && ("pullZone" in q <==> p.pullZone.Some?)
      && ("serverZoneId" in q <==> p.serverZoneId.Some?)
      && ("loadErrors" in q <==> p.loadErrors.Some?)
      && ("hourly" in q <==> p.hourly.Some?)
  {
  }

  /** Each given filter is rendered: dates in RFC 3339, ids in decimal, flags as "true"
      or "false". */
  lemma StatisticsQueryValues(p: StatisticsParameters, rfc3339: DateTime -> string)
    ensures var q := StatisticsQuery(Some(p), rfc3339);
      && (p.dateFrom.Some? ==> q["dateFrom"] == rfc3339(p.dateFrom.value))
      && (p.dateTo.Some? ==> q["dateTo"] == rfc3339(p.dateTo.value))
      && (p.pullZone.Some? ==> q["pullZone"] == IntToDecimal(p.pullZone.value))
      && (p.serverZoneId.Some? ==> q["serverZoneId"] == IntToDecimal(p.serverZoneId.value))
      && (p.loadErrors.Some? ==> q["loadErrors"] == BoolToString(p.loadErrors.value))
      && (p.hourly.Some? ==> q["hourly"] == BoolToString(p.hourly.value))
  {
  }

  /** The query has one entry per given filter. */
  lemma StatisticsQuerySize(p: StatisticsParameters, rfc3339: DateTime -> string)
    ensures |StatisticsQuery(Some(p), rfc3339)| == PresentCount(p)
  {
  }

  /** `prepare_statistics_params`: builds the query entry by entry. */
  method PrepareStatisticsParams(params: Option<StatisticsParameters>, rfc3339: DateTime -> string)
    returns (q: map<string, string>)
    ensures q == StatisticsQuery(params, rfc3339)
  {
    q := map[];
    if params.None? {
      return q;
    }
    var p := params.value;
    if p.dateFrom.Some? {
      q := q["dateFrom" := rfc3339(p.dateFrom.value)];
    }
    assert q == InsertSome(map[], "dateFrom", (if p.dateFrom.Some? then Some(rfc3339(p.dateFrom.value)) else None));
    ghost var q1 := q;
    if p.dateTo.Some? {
      q := q["dateTo" := rfc3339(p.dateTo.value)];
    }
    assert q == InsertSome(q1, "dateTo", (if p.dateTo.Some? then Some(rfc3339(p.dateTo.value)) else None));
    ghost var q2 := q;
    if p.pullZone.Some? {
      q := q["pullZone" := IntToDecimal(p.pullZone.value)];
    }
    assert q == InsertSome(q2, "pullZone", (if p.pullZone.Some? then Some(IntToDecimal(p.pullZone.value)) else None));
    ghost var q3 := q;
    if p.serverZoneId.Some? {
      q := q["serverZoneId" := IntToDecimal(p.serverZoneId.value)];
    }
    assert q == InsertSome(q3, "serverZoneId", (if p.serverZoneId.Some? then Some(IntToDecimal(p.serverZoneId.value)) else None));
    ghost var q4 := q;
    if p.loadErrors.Some? {
      q := q["loadErrors" := BoolToString(p.loadErrors.value)];
    }
    assert q == InsertSome(q4, "loadErrors", (if p.loadErrors.Some? then Some(BoolToString(p.loadErrors.value)) else None));
    ghost var q5 := q;
    if p.hourly.Some? {
      q := q["hourly" := BoolToString(p.hourly.value)];
    }
    assert q == InsertSome(q5, "hourly", (if p.hourly.Some? then Some(BoolToString(p.hourly.value)) else None));
  }

  /** `get_statistics`: one request with the prepared query; the raw response text is
      parsed, and transport errors are passed through unchanged. */
  method GetStatistics<S>(client: Client, params: Option<StatisticsParameters>, rfc3339: DateTime -> string, parse: Parser<S>)
    returns (r: Result<S, Error>, sent: seq<Request>)
    ensures sent == [Request(Get, ApiRoot + "/statistics", client.config.apiKey, Some(StatisticsQuery(params, rfc3339)), None)]
    ensures var response := client.send(sent[0]);
      && (response.Err? ==> r == Err(response.error))
      && (response.Ok? ==> r == Rewrap(parse(response.value.rawData)))
  {
    var statisticsUrl := ApiRoot + "/statistics";
    var query := PrepareStatisticsParams(params, rfc3339);
    var request := Request(Get, statisticsUrl, client.config.apiKey, Some(query), None);
    sent := [request];
    var response := client.send(request);
    if response.Err? {
      return Err(response.error), sent;
    }
    r := Rewrap(parse(response.value.rawData));
  }
}
