/** Reading pull zones (src/client/pullzones.rs). */
module PullZones {
  import opened Wrappers
  import opened Errors
  import opened Strings
  import opened Environment
  import opened BunnyClient

  /** `PULL_ZONE_INCLUDE_CERTIFICATE_NAME`. */
  const IncludeCertificateName := "includeCertificate"

  /** `PullZonesParameters`. */
  datatype PullZonesParameters = PullZonesParameters(search: Option<string>, includeCertificate: Option<bool>)

  /** The URL of one pull zone; the id can be read back from it. */
  function PullZoneUrl(id: Int64): (u: string)
    ensures |u| > |ApiRoot + "/pullzone/"| && u[..|ApiRoot + "/pullzone/"|] == ApiRoot + "/pullzone/"
    ensures ParseInteger(u[|ApiRoot + "/pullzone/"|..], I64) == Ok(id)
  {
    var prefix := ApiRoot + "/pullzone/";
    ParseIntegerRoundTrip(id, I64);
    assert (prefix + IntToDecimal(id))[|prefix|..] == IntToDecimal(id);
    prefix + IntToDecimal(id)
  }

  /** Distinct pull zones have distinct URLs. */
  lemma PullZoneUrlInjective(id1: Int64, id2: Int64)
    requires PullZoneUrl(id1) == PullZoneUrl(id2)
    ensures id1 == id2
  {
  }

  /** The query of `get_pull_zones`: the page entries, then `search` and
      `includeCertificate` for the parameters that are given. */
  function PullZonesQuery(base: map<string, string>, params: Option<PullZonesParameters>): (q: map<string, string>)
    ensures params.None? ==> q == base
    ensures params.Some? && params.value.search.Some? ==>
      "search" in q && q["search"] == params.value.search.value
    ensures params.Some? && params.value.includeCertificate.Some? ==>
      IncludeCertificateName in q && q[IncludeCertificateName] == BoolToString(params.value.includeCertificate.value)
    ensures forall k :: k in q <==>
      || k in base
      || (k == "search" && params.Some? && params.value.search.Some?)
      || (k == IncludeCertificateName && params.Some? && params.value.includeCertificate.Some?)
    ensures forall k ::
      (k in base
        && !(k == "search" && params.Some? && params.value.search.Some?)
        && !(k == IncludeCertificateName && params.Some? && params.value.includeCertificate.Some?)
      ) ==> q[k] == base[k]
  {
    match params
    case None => base
    case Some(p) =>
      var withSearch := InsertSome(base, "search", p.search);
      InsertSome(withSearch, IncludeCertificateName, p.includeCertificate.Map(BoolToString))
  }

  /** The query of `get_pull_zone`: empty, or only the certificate flag. */
  function PullZoneQuery(includeCertificate: Option<bool>): (q: map<string, string>)
    ensures includeCertificate.None? ==> q == map[]
    ensures includeCertificate.Some? ==> q.Keys == {IncludeCertificateName}
    ensures includeCertificate.Some? ==> q[IncludeCertificateName] == BoolToString(includeCertificate.value)
  {
    InsertSome(map[], IncludeCertificateName, includeCertificate.Map(BoolToString))
  }

  /** `get_pull_zones`: one listing request; transport errors are passed through, and a
      body that does not parse gives a message-only error. */
  method GetPullZones<P>(client: Client, params: Option<PullZonesParameters>, pageParams: Option<PageParameters>, parse: Parser<seq<P>>)
    returns (r: Result<seq<P>, Error>, sent: seq<Request>)
    ensures sent == [Request(Get, ApiRoot + "/pullzone", client.config.apiKey, Some(PullZonesQuery(client.pageEntries(pageParams), params)), None)]
    ensures var response := client.send(sent[0]);
      && (response.Err? ==> r == Err(response.error))
      && (response.Ok? ==> r == Rewrap(parse(response.value.body)))
  {
    var query := client.pageEntries(pageParams);
    if params.Some? {
      if params.value.search.Some? {
        query := query["search" := params.value.search.value];
      }
      if params.value.includeCertificate.Some? {
        query := query[IncludeCertificateName := BoolToString(params.value.includeCertificate.value)];
      }
    }
    var pullZonesUrl := ApiRoot + "/pullzone";
    var request := Request(Get, pullZonesUrl, client.config.apiKey, Some(query), None);
    sent := [request];
    var response := client.send(request);
    if response.Err? {
      return Err(response.error), sent;
    }
    r := Rewrap(parse(response.value.body));
  }

  /** `get_pull_zone`: reads one pull zone, with the same error handling. */
  method GetPullZone<P>(client: Client, id: Int64, includeCertificate: Option<bool>, parse: Parser<P>)
    returns (r: Result<P, Error>, sent: seq<Request>)
    ensures sent == [Request(Get, PullZoneUrl(id), client.config.apiKey, Some(PullZoneQuery(includeCertificate)), None)]
    ensures var response := client.send(sent[0]);
      && (response.Err? ==> r == Err(response.error))
      && (response.Ok? ==> r == Rewrap(parse(response.value.body)))
  {
    var query: map<string, string> := map[];
    if includeCertificate.Some? {
      query := query[IncludeCertificateName := BoolToString(includeCertificate.value)];
    }
    var pullZoneUrl := ApiRoot + "/pullzone/" + IntToDecimal(id);
    var request := Request(Get, pullZoneUrl, client.config.apiKey, Some(query), None);
    sent := [request];
    var response := client.send(request);
    if response.Err? {
      return Err(response.error), sent;
    }
    r := Rewrap(parse(response.value.body));
  }
}
