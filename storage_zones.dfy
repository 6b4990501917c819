/** The storage-zone operations of the management API (src/client/storagezones.rs):
    listing, reading, checking a name, finding by name, adding, deleting and statistics. */
module StorageZones {
  import opened Wrappers
  import opened Errors
  import opened Strings
  import opened Environment
  import opened BunnyClient

  /** `GetStorageZoneParameters`. */
  datatype GetStorageZoneParameters = GetStorageZoneParameters(includeDeleted: Option<bool>, search: Option<string>)

  /** `StorageZoneTier`, serialised as its discriminant. */
  datatype StorageZoneTier = Standard | Edge

  /** `AddStorageZoneCommonParameters`. */
  datatype AddStorageZoneCommonParameters =
    AddStorageZoneCommonParameters(replicationRegions: Option<seq<string>>, originUrl: Option<string>)

  /** `AddStorageZoneParameters`. */
  datatype AddStorageZoneParameters = AddStorageZoneParameters(
    name: string,
    region: string,
    zoneTier: StorageZoneTier,
    common: Option<AddStorageZoneCommonParameters>)

  /** `StorageZoneStatisticsParameters`. */
  datatype StorageZoneStatisticsParameters =
    StorageZoneStatisticsParameters(dateFrom: Option<DateTime>, dateTo: Option<DateTime>)

  /** A storage zone, reduced to its name, the only field the client itself reads, and its
      id, kept as the zone's identity. */
  datatype StorageZone = StorageZone(id: Int64, name: string)

  /** The JSON parsers of the responses: the availability flag, a list of zones, one zone. */
  datatype ZoneParsers = ZoneParsers(
    availability: Parser<bool>,
    zones: Parser<seq<StorageZone>>,
    zone: Parser<StorageZone>)

  const InvalidNameMessage := "Invalid Storage Zone Name. Must not be empty"
  const InvalidRegionMessage := "Invalid Storage Zone Region. Must not be empty"

  /** `get_storage_zone_root_url`. */
  function RootUrl(): (u: string)
    ensures |u| > |ApiRoot| && u[..|ApiRoot|] == ApiRoot && u[|ApiRoot|..] == "/storagezone"
  {
    ApiRoot + "/storagezone"
  }

  /** The URL of one zone, for reading and deleting it; the id can be read back from it. */
  function ZoneUrl(id: Int64): (u: string)
    ensures |u| > |RootUrl()| + 1 && u[..|RootUrl()| + 1] == RootUrl() + "/"
    ensures ParseInteger(u[|RootUrl()| + 1..], I64) == Ok(id)
  {
    var prefix := RootUrl() + "/";
    ParseIntegerRoundTrip(id, I64);
    assert (prefix + IntToDecimal(id))[|prefix|..] == IntToDecimal(id);
    prefix + IntToDecimal(id)
  }

  /** The statistics URL of one zone: its zone URL followed by "/statistics". */
  function ZoneStatisticsUrl(id: Int64): (u: string)
    ensures |u| == |ZoneUrl(id)| + |"/statistics"|
    ensures u[..|ZoneUrl(id)|] == ZoneUrl(id) && u[|ZoneUrl(id)|..] == "/statistics"
  {
    ZoneUrl(id) + "/statistics"
  }

  /** The availability-check URL: the root URL followed by "/checkavailability". */
  function AvailabilityUrl(): (u: string)
    ensures |u| > |RootUrl()| && u[..|RootUrl()|] == RootUrl() && u[|RootUrl()|..] == "/checkavailability"
  {
    RootUrl() + "/checkavailability"
  }

  /** Distinct zones have distinct URLs: the id is recovered from the URL. */
  lemma ZoneUrlInjective(id1: Int64, id2: Int64)
    requires ZoneUrl(id1) == ZoneUrl(id2)
    ensures id1 == id2
  {
  }

  /** The query of `get_storage_zones`: the page entries, then `includeDeleted` and
      `search` for the parameters that are given. */
  function ZonesQuery(base: map<string, string>, params: Option<GetStorageZoneParameters>): (q: map<string, string>)
    ensures params.None? ==> q == base
    ensures params.Some? && params.value.includeDeleted.Some? ==>
      "includeDeleted" in q && q["includeDeleted"] == BoolToString(params.value.includeDeleted.value)
    ensures params.Some? && params.value.search.Some? ==>
      "search" in q && q["search"] == params.value.search.value
    ensures forall k :: k in q <==>
      || k in base
      || (k == "includeDeleted" && params.Some? && params.value.includeDeleted.Some?)
      || (k == "search" && params.Some? && params.value.search.Some?)
    ensures forall k ::
      (k in base
        && !(k == "includeDeleted" && params.Some? && params.value.includeDeleted.Some?)
        && !(k == "search" && params.Some? && params.value.search.Some?)
      ) ==> q[k] == base[k]
  {
    match params
    case None => base
    case Some(p) =>
      var withDeleted := InsertSome(base, "includeDeleted", if p.includeDeleted.Some? then Some(BoolToString(p.includeDeleted.value)) else None);
      InsertSome(withDeleted, "search", p.search)
  }

  /** The query of `get_storage_zone_statistics`. Both dates are written under "dateFrom",
      so the end date, when given, replaces the start date and "dateTo" is never sent. */
  function ZoneStatisticsQuery(params: Option<StorageZoneStatisticsParameters>, rfc3339: DateTime -> string): (q: map<string, string>)
    ensures "dateTo" !in q
    ensures forall k :: k in q ==> k == "dateFrom"
    ensures "dateFrom" in q <==> params.Some? && (params.value.dateFrom.Some? || params.value.dateTo.Some?)
    ensures params.Some? && params.value.dateTo.Some? ==> q["dateFrom"] == rfc3339(params.value.dateTo.value)
    ensures params.Some? && params.value.dateTo.None? && params.value.dateFrom.Some? ==>
      q["dateFrom"] == rfc3339(params.value.dateFrom.value)
  {
    match params
    case None => map[]
    case Some(p) =>
      var withFrom := InsertSome(map[], "dateFrom", if p.dateFrom.Some? then Some(rfc3339(p.dateFrom.value)) else None);
      InsertSome(withFrom, "dateFrom", if p.dateTo.Some? then Some(rfc3339(p.dateTo.value)) else None)
  }

  /** The body of an availability check: the trimmed name under "Name". */
  function AvailabilityRequest(config: Config, name: string): Request {
    Request(Post, AvailabilityUrl(), config.apiKey, None, Some(Object([("Name", String(Trim(name)))])))
  }

  /** `check_storage_zone_availability`: a blank name is refused before any request;
      otherwise the server is asked whether the trimmed name is free. Transport errors
      are re-wrapped into a message-only error. */
  function AvailabilityCall(client: Client, name: string, parse: Parser<bool>): (c: Call<bool>)
    ensures Blank(name) ==> c == Call(Err(NewFromMessage(InvalidNameMessage)), [])
    ensures !Blank(name) ==> c.sent == [AvailabilityRequest(client.config, name)]
    ensures !Blank(name) ==> var response := client.send(AvailabilityRequest(client.config, name));
      && (response.Err? ==> c.result == Err(NewFromMessage(client.display(response.error))))
      && (response.Ok? ==> c.result == Rewrap(parse(response.value.body)))
  {
    TrimSpec(name);
    if Trim(name) == [] then Call(Err(NewFromMessage(InvalidNameMessage)), [])
    else
      var request := AvailabilityRequest(client.config, name);
      var result := match client.send(request)
        case Err(e) => Err(NewFromMessage(client.display(e)))
        case Ok(response) => Rewrap(parse(response.body));
      Call(result, [request])
  }

  method CheckStorageZoneAvailability(client: Client, name: string, parse: Parser<bool>)
    returns (r: Result<bool, Error>, sent: seq<Request>)
    ensures Call(r, sent) == AvailabilityCall(client, name, parse)
  {
    var usedName := Trim(name);
    if usedName == [] {
      return Err(NewFromMessage(InvalidNameMessage)), [];
    }
    var availabilityMap: map<string, string> := map[];
    availabilityMap := availabilityMap["Name" := usedName];
    var request := Request(Post, AvailabilityUrl(), client.config.apiKey, None, Some(Object([("Name", String(availabilityMap["Name"]))])));
    sent := [request];
    var response := client.send(request);
    if response.Err? {
      return Err(NewFromMessage(client.display(response.error))), sent;
    }
    r := Rewrap(parse(response.value.body));
  }

  function ZonesRequest(client: Client, params: Option<GetStorageZoneParameters>, pageParams: Option<PageParameters>): Request {
    Request(Get, RootUrl(), client.config.apiKey, Some(ZonesQuery(client.pageEntries(pageParams), params)), None)
  }

  /** `get_storage_zones`: one listing request; transport errors are re-wrapped. */
  function ZonesCall(client: Client, params: Option<GetStorageZoneParameters>, pageParams: Option<PageParameters>, parse: Parser<seq<StorageZone>>): (c: Call<seq<StorageZone>>)
    ensures c.sent == [ZonesRequest(client, params, pageParams)]
    ensures var response := client.send(ZonesRequest(client, params, pageParams));
      && (response.Err? ==> c.result == Err(NewFromMessage(client.display(response.error))))
      && (response.Ok? ==> c.result == Rewrap(parse(response.value.body)))
  {
    var request := ZonesRequest(client, params, pageParams);
    var result := match client.send(request)
      case Err(e) => Err(NewFromMessage(client.display(e)))
      case Ok(response) => Rewrap(parse(response.body));
    Call(result, [request])
  }

  method GetStorageZones(client: Client, params: Option<GetStorageZoneParameters>, pageParams: Option<PageParameters>, parse: Parser<seq<StorageZone>>)
    returns (r: Result<seq<StorageZone>, Error>, sent: seq<Request>)
    ensures Call(r, sent) == ZonesCall(client, params, pageParams, parse)
  {
    var query := client.pageEntries(pageParams);
    if params.Some? {
      if params.value.includeDeleted.Some? {
        query := query["includeDeleted" := BoolToString(params.value.includeDeleted.value)];
      }
      if params.value.search.Some? {
        query := query["search" := params.value.search.value];
      }
    }
    var request := Request(Get, RootUrl(), client.config.apiKey, Some(query), None);
    sent := [request];
    var response := client.send(request);
    if response.Err? {
      return Err(NewFromMessage(client.display(response.error))), sent;
    }
    r := Rewrap(parse(response.value.body));
  }

  /** `get_storage_zone`: reads one zone; transport errors are re-wrapped. */
  method GetStorageZone(client: Client, id: Int64, parse: Parser<StorageZone>)
    returns (r: Result<StorageZone, Error>, sent: seq<Request>)
    ensures sent == [Request(Get, ZoneUrl(id), client.config.apiKey, None, None)]
    ensures var response := client.send(sent[0]);
      && (response.Err? ==> r == Err(NewFromMessage(client.display(response.error))))
      && (response.Ok? ==> r == Rewrap(parse(response.value.body)))
  {
    var request := Request(Get, RootUrl() + "/" + IntToDecimal(id), client.config.apiKey, None, None);
    sent := [request];
    var response := client.send(request);
    if response.Err? {
      return Err(NewFromMessage(client.display(response.error))), sent;
    }
    r := Rewrap(parse(response.value.body));
  }

  /** The comparison key of a zone name: lower-cased, then trimmed. */
  function NameKey(name: string): string {
    Trim(ToLower(name))
  }

  /** The index of the first zone that satisfies `matches`. */
  function FirstMatchIndex(zones: seq<StorageZone>, matches: StorageZone -> bool): (r: Option<nat>)
    ensures r.Some? ==> r.value < |zones| && matches(zones[r.value])
    ensures r.Some? ==> forall j :: 0 <= j < r.value ==> !matches(zones[j])
    ensures r.None? ==> forall j :: 0 <= j < |zones| ==> !matches(zones[j])
  {
    if zones == [] then None
    else if matches(zones[0]) then Some(0)
    else
      match FirstMatchIndex(zones[1..], matches)
      case None => None
      case Some(i) => Some(i + 1)
  }

  /** A listed zone is the one searched for when its name has the key of `name`. */
  function SameName(name: string): StorageZone -> bool {
    (zone: StorageZone) => NameKey(zone.name) == NameKey(name)
  }

  /** The first zone of `zones` whose name matches `name`. */
  function FirstMatch(zones: seq<StorageZone>, name: string): Option<StorageZone> {
    match FirstMatchIndex(zones, SameName(name))
    case None => None
    case Some(i) => Some(zones[i])
  }

  /** The search loop of `attempt_find_storage_zone`: the listed zones in order, returning
      the first whose key equals the key of `name`. */
  method FindByName(zones: seq<StorageZone>, name: string) returns (found: Option<StorageZone>)
    ensures found == FirstMatch(zones, name)
  {
    var nameToFind := NameKey(name);
    var i := 0;
    while i < |zones|
      invariant i <= |zones|
      invariant forall j :: 0 <= j < i ==> NameKey(zones[j].name) != nameToFind
    {
      if NameKey(zones[i].name) == nameToFind {
        assert SameName(name)(zones[i]);
        return Some(zones[i]);
      }
      i := i + 1;
    }
    assert forall j :: 0 <= j < |zones| ==> !SameName(name)(zones[j]);
    return None;
  }

  /** The listing request of a search: deleted zones are included unless the caller says
      otherwise, and the untrimmed name is the search term. */
  function SearchParameters(name: string, includeDeleted: Option<bool>): Option<GetStorageZoneParameters> {
    Some(GetStorageZoneParameters(Some(includeDeleted.GetOr(true)), Some(name)))
  }

  /** `attempt_find_storage_zone`: no zone when the name is free; otherwise the first listed
      zone whose name matches, compared lower-cased and trimmed. */
  function FindCall(client: Client, name: string, includeDeleted: Option<bool>, parsers: ZoneParsers): Call<Option<StorageZone>> {
    var check := AvailabilityCall(client, name, parsers.availability);
    if check.result.Err? then Call(Err(check.result.error), check.sent)
    else if check.result.value then Call(Ok(None), check.sent)
    else
      var listing := ZonesCall(client, SearchParameters(name, includeDeleted), None, parsers.zones);
      if listing.result.Err? then Call(Err(listing.result.error), check.sent + listing.sent)
      else
        Call(Ok(FirstMatch(listing.result.value, name)), check.sent + listing.sent)
  }

  method AttemptFindStorageZone(client: Client, name: string, includeDeleted: Option<bool>, parsers: ZoneParsers)
    returns (r: Result<Option<StorageZone>, Error>, sent: seq<Request>)
    ensures Call(r, sent) == FindCall(client, name, includeDeleted, parsers)
  {
    var available, checkSent := CheckStorageZoneAvailability(client, name, parsers.availability);
    sent := checkSent;
    if available.Err? {
      return Err(available.error), sent;
    }
    if !available.value {
      var usedIncludeDeleted := match includeDeleted
        case Some(given) => given
        case None => true;
      var params := GetStorageZoneParameters(Some(usedIncludeDeleted), Some(name));
      var zones, listingSent := GetStorageZones(client, Some(params), None, parsers.zones);
      sent := sent + listingSent;
      if zones.Err? {
        return Err(zones.error), sent;
      }
      var found := FindByName(zones.value, name);
      return Ok(found), sent;
    }
    r := Ok(None);
  }

  /** A zone tier as serialised: its discriminant. */
  function TierJson(tier: StorageZoneTier): Json {
    match tier
    case Standard => Number("0")
    case Edge => Number("1")
  }

  /** The serialised common parameters, without the absent ones. */
  function CommonJson(common: AddStorageZoneCommonParameters): Json {
    var regions := match common.replicationRegions
      case None => []
      case Some(rs) => [("ReplicationRegions", Array(seq(|rs|, i requires 0 <= i < |rs| => String(rs[i]))))];
    var origin := match common.originUrl
      case None => []
      case Some(url) => [("OriginUrl", String(url))];
    Object(regions + origin)
  }

  /** The serialised parameters of `add_storage_zone`: the name and region as given, not
      trimmed. */
  function AddBody(params: AddStorageZoneParameters): (body: Json)
    ensures body.Object? && |body.members| == 3 + (if params.common.Some? then 1 else 0)
    ensures body.members[0] == ("Name", String(params.name))
    ensures body.members[1] == ("Region", String(params.region))
    ensures body.members[2] == ("ZoneTier", TierJson(params.zoneTier))
    ensures params.common.Some? ==> body.members[3].0 == "Common"
  {
    var common := match params.common
      case None => []
      case Some(c) => [("Common", CommonJson(c))];
    Object([("Name", String(params.name)), ("Region", String(params.region)), ("ZoneTier", TierJson(params.zoneTier))] + common)
  }

  function AddRequest(config: Config, params: AddStorageZoneParameters): Request {
    Request(Post, RootUrl(), config.apiKey, None, Some(AddBody(params)))
  }

  /** `add_storage_zone`: the name and then the region must not be blank, both checked
      before any request; transport errors are re-wrapped. */
  function AddCall(client: Client, params: AddStorageZoneParameters, parse: Parser<StorageZone>): (c: Call<StorageZone>)
    ensures Blank(params.name) ==> c == Call(Err(NewFromMessage(InvalidNameMessage)), [])
    ensures !Blank(params.name) && Blank(params.region) ==> c == Call(Err(NewFromMessage(InvalidRegionMessage)), [])
    ensures !Blank(params.name) && !Blank(params.region) ==> c.sent == [AddRequest(client.config, params)]
    ensures !Blank(params.name) && !Blank(params.region) ==> var response := client.send(AddRequest(client.config, params));
      && (response.Err? ==> c.result == Err(NewFromMessage(client.display(response.error))))
      && (response.Ok? ==> c.result == Rewrap(parse(response.value.body)))
  {
    TrimSpec(params.name);
    TrimSpec(params.region);
    if Trim(params.name) == [] then Call(Err(NewFromMessage(InvalidNameMessage)), [])
    else if Trim(params.region) == [] then Call(Err(NewFromMessage(InvalidRegionMessage)), [])
    else
      var request := AddRequest(client.config, params);
      var result := match client.send(request)
        case Err(e) => Err(NewFromMessage(client.display(e)))
        case Ok(response) => Rewrap(parse(response.body));
      Call(result, [request])
  }

  method AddStorageZone(client: Client, params: AddStorageZoneParameters, parse: Parser<StorageZone>)
    returns (r: Result<StorageZone, Error>, sent: seq<Request>)
    ensures Call(r, sent) == AddCall(client, params, parse)
  {
    var usedName := Trim(params.name);
    if usedName == [] {
      return Err(NewFromMessage(InvalidNameMessage)), [];
    }
    var usedRegion := Trim(params.region);
    if usedRegion == [] {
      return Err(NewFromMessage(InvalidRegionMessage)), [];
    }
    var request := Request(Post, RootUrl(), client.config.apiKey, None, Some(AddBody(params)));
    sent := [request];
    var response := client.send(request);
    if response.Err? {
      return Err(NewFromMessage(client.display(response.error))), sent;
    }
    r := Rewrap(parse(response.value.body));
  }

  /** `add_storage_zone_exists_ok`: the zone found by name, or else a newly added one. */
  function ExistsOkCall(client: Client, params: AddStorageZoneParameters, includeDeleted: Option<bool>, parsers: ZoneParsers): Call<StorageZone> {
    var find := FindCall(client, params.name, includeDeleted, parsers);
    match find.result
    case Err(e) => Call(Err(e), find.sent)
    case Ok(Some(zone)) => Call(Ok(zone), find.sent)
    case Ok(None) =>
      var add := AddCall(client, params, parsers.zone);
      Call(add.result, find.sent + add.sent)
  }

  method AddStorageZoneExistsOk(client: Client, params: AddStorageZoneParameters, includeDeleted: Option<bool>, parsers: ZoneParsers)
    returns (r: Result<StorageZone, Error>, sent: seq<Request>)
    ensures Call(r, sent) == ExistsOkCall(client, params, includeDeleted, parsers)
  {
    var found, findSent := AttemptFindStorageZone(client, params.name, includeDeleted, parsers);
    if found.Err? {
      return Err(found.error), findSent;
    }
    if found.value.Some? {
      return Ok(found.value.value), findSent;
    }
    var added, addSent := AddStorageZone(client, params, parsers.zone);
    r, sent := added, findSent + addSent;
  }

  /** `delete_storage_zone`: one delete request whose outcome is passed through. */
  method DeleteStorageZone(client: Client, id: Int64) returns (r: Result<(), Error>, sent: seq<Request>)
    ensures sent == [Request(Delete, ZoneUrl(id), client.config.apiKey, None, None)]
    ensures client.send(sent[0]).Err? ==> r == Err(client.send(sent[0]).error)
    ensures client.send(sent[0]).Ok? ==> r == Ok(())
  {
    var request := Request(Delete, RootUrl() + "/" + IntToDecimal(id), client.config.apiKey, None, None);
    sent := [request];
    var response := client.send(request);
    if response.Err? {
      return Err(response.error), sent;
    }
    r := Ok(());
  }

  /** `get_storage_zone_statistics`: transport errors are passed through unchanged. */
  method GetStorageZoneStatistics<S>(client: Client, id: Int64, params: Option<StorageZoneStatisticsParameters>, rfc3339: DateTime -> string, parse: Parser<S>)
    returns (r: Result<S, Error>, sent: seq<Request>)
    ensures sent == [Request(Get, ZoneStatisticsUrl(id), client.config.apiKey, Some(ZoneStatisticsQuery(params, rfc3339)), None)]
    ensures var response := client.send(sent[0]);
      && (response.Err? ==> r == Err(response.error))
      && (response.Ok? ==> r == Rewrap(parse(response.value.body)))
  {
    var url := RootUrl() + "/" + IntToDecimal(id) + "/statistics";
    var query: map<string, string> := map[];
    if params.Some? {
      if params.value.dateFrom.Some? {
        query := query["dateFrom" := rfc3339(params.value.dateFrom.value)];
      }
      if params.value.dateTo.Some? {
        query := query["dateFrom" := rfc3339(params.value.dateTo.value)];
      }
    }
    var request := Request(Get, url, client.config.apiKey, Some(query), None);
    sent := [request];
    var response := client.send(request);
    if response.Err? {
      return Err(response.error), sent;
    }
    r := Rewrap(parse(response.value.body));
  }

  /** A blank name is refused by the availability check, so a search for it fails before
      any request. */
  lemma FindBlankNameSendsNothing(client: Client, name: string, includeDeleted: Option<bool>, parsers: ZoneParsers)
    requires Blank(name)
    ensures FindCall(client, name, includeDeleted, parsers) == Call(Err(NewFromMessage(InvalidNameMessage)), [])
  {
  }

  /** A name the server reports as free is not searched for: only the availability
      check is sent. A taken name is searched for with the untrimmed name as the search
      term and deleted zones included unless the caller says otherwise. */
  lemma FindRequests(client: Client, name: string, includeDeleted: Option<bool>, parsers: ZoneParsers)
    requires AvailabilityCall(client, name, parsers.availability).result.Ok?
    ensures var find := FindCall(client, name, includeDeleted, parsers);
      && find.sent[0] == AvailabilityRequest(client.config, name)
      && (AvailabilityCall(client, name, parsers.availability).result.value ==> find == Call(Ok(None), find.sent[..1]) && |find.sent| == 1)
      && (!AvailabilityCall(client, name, parsers.availability).result.value ==>
            && |find.sent| == 2
            && find.sent[1].verb == Get && find.sent[1].url == RootUrl()
            && find.sent[1].query.Some?
            && find.sent[1].query.value["includeDeleted"] == BoolToString(includeDeleted.GetOr(true))
            && find.sent[1].query.value["search"] == name)
  {
    var check := AvailabilityCall(client, name, parsers.availability);
    assert !Blank(name);
    if !check.result.value {
      var listing := ZonesCall(client, SearchParameters(name, includeDeleted), None, parsers.zones);
      assert FindCall(client, name, includeDeleted, parsers).sent == check.sent + listing.sent;
    }
  }

  /** After a successful listing, the search finds nothing exactly when no listed zone
      has the name's key, and otherwise the first zone that has it. */
  lemma FindReturnsFirstMatch(client: Client, name: string, includeDeleted: Option<bool>, parsers: ZoneParsers)
    requires AvailabilityCall(client, name, parsers.availability).result == Ok(false)
    requires ZonesCall(client, SearchParameters(name, includeDeleted), None, parsers.zones).result.Ok?
    ensures var zones := ZonesCall(client, SearchParameters(name, includeDeleted), None, parsers.zones).result.value;
      var found := FindCall(client, name, includeDeleted, parsers).result;
      && found.Ok?
      && (found.value.None? <==> forall j :: 0 <= j < |zones| ==> NameKey(zones[j].name) != NameKey(name))
      && (found.value.Some? ==>
            exists i :: 0 <= i < |zones| && zones[i] == found.value.value
              && NameKey(zones[i].name) == NameKey(name)
              && forall j :: 0 <= j < i ==> NameKey(zones[j].name) != NameKey(name))
  {
    var zones := ZonesCall(client, SearchParameters(name, includeDeleted), None, parsers.zones).result.value;
    var index := FirstMatchIndex(zones, SameName(name));
    assert forall j :: 0 <= j < |zones| ==> (SameName(name)(zones[j]) <==> NameKey(zones[j].name) == NameKey(name));
    if index.Some? {
      assert zones[index.value] == FirstMatch(zones, name).value;
    }
  }

  /** The add request is issued exactly when the search found no zone and the region is
      not blank; a found zone is returned as it is. */
  lemma ExistsOkAddsOnlyWhenMissing(client: Client, params: AddStorageZoneParameters, includeDeleted: Option<bool>, parsers: ZoneParsers)
    ensures var find := FindCall(client, params.name, includeDeleted, parsers);
      var call := ExistsOkCall(client, params, includeDeleted, parsers);
      && (AddRequest(client.config, params) in call.sent <==> find.result == Ok(None) && !Blank(params.region))
      && (find.result.Ok? && find.result.value.Some? ==> call == Call(Ok(find.result.value.value), find.sent))
  {
    var find := FindCall(client, params.name, includeDeleted, parsers);
    var add := AddRequest(client.config, params);
    var check := AvailabilityCall(client, params.name, parsers.availability);
    assert |AvailabilityUrl()| > |RootUrl()|;
    assert add !in check.sent;
    if check.result.Ok? && !check.result.value {
      var listing := ZonesCall(client, SearchParameters(params.name, includeDeleted), None, parsers.zones);
      assert add !in listing.sent;
      assert find.sent == check.sent + listing.sent || find.sent == check.sent;
    }
    assert add !in find.sent;
    if find.result == Ok(None) {
      assert !Blank(params.name);
    }
  }

  /** A failed availability check is returned unchanged, with no listing sent; after a
      name is reported taken, a failed listing is returned unchanged. */
  lemma FindPropagatesErrors(client: Client, name: string, includeDeleted: Option<bool>, parsers: ZoneParsers)
    ensures var check := AvailabilityCall(client, name, parsers.availability);
      check.result.Err? ==> FindCall(client, name, includeDeleted, parsers) == Call(Err(check.result.error), check.sent)
    ensures var check := AvailabilityCall(client, name, parsers.availability);
      var listing := ZonesCall(client, SearchParameters(name, includeDeleted), None, parsers.zones);
      check.result == Ok(false) && listing.result.Err? ==>
        FindCall(client, name, includeDeleted, parsers) == Call(Err(listing.result.error), check.sent + listing.sent)
  {
  }

  /** Find-or-add returns a failed find unchanged, without adding; when the find gives
      no zone, it returns the add's outcome after the find's requests and the add's. */
  lemma ExistsOkOutcome(client: Client, params: AddStorageZoneParameters, includeDeleted: Option<bool>, parsers: ZoneParsers)
    ensures var find := FindCall(client, params.name, includeDeleted, parsers);
      find.result.Err? ==> ExistsOkCall(client, params, includeDeleted, parsers) == Call(Err(find.result.error), find.sent)
    ensures var find := FindCall(client, params.name, includeDeleted, parsers);
      var add := AddCall(client, params, parsers.zone);
      find.result == Ok(None) ==> ExistsOkCall(client, params, includeDeleted, parsers) == Call(add.result, find.sent + add.sent)
  {
  }

  /** Adding with a blank name fails before any request, whether or not the zone
      might exist. */
  lemma ExistsOkBlankName(client: Client, params: AddStorageZoneParameters, includeDeleted: Option<bool>, parsers: ZoneParsers)
    requires Blank(params.name)
    ensures ExistsOkCall(client, params, includeDeleted, parsers) == Call(Err(NewFromMessage(InvalidNameMessage)), [])
  {
    FindBlankNameSendsNothing(client, params.name, includeDeleted, parsers);
  }
}
