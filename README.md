# bunnystorage-rs client core, modelled in Dafny

`bunnystorage-rs` is an async Rust client for the bunny.net CDN and storage REST
API. This project models the deterministic layer around its network calls:

- the registry of the nine storage endpoints and their hostnames;
- listing the files of a storage-zone directory, which decodes entries best-effort;
- the storage-zone operations: list, read, check a name, find by name, add, find-or-add, delete and statistics;
- the account statistics query;
- listing API keys, which decodes entries all-or-nothing;
- reading pull zones;
- reading and validating configuration values from the process environment.

Each network call is an oracle. A `BunnyClient.Client` carries the configuration
and three functions:

- `send`, which answers a request with a response or an error;
- `display`, the `Display` text of an error;
- `pageEntries`, the entries `add_page_parameters` writes for the given page parameters.

Every client operation (every call that talks to bunny.net) is a method. It
returns its result together with the list of requests it sent, so "fails before
any request" is stated as `sent == []`. The composed storage-zone operations
also have specification functions that return a `Call` (the result and the
requests). Their methods are proved to equal those
functions, and lemmas state the behaviour of the compositions.

Decoding JSON is left to function parameters, and so is rendering dates in
RFC 3339. A `Parser<T>` stands for `serde_json::from_str` and a `Decoder<T>` for
`serde_json::from_value`; both return the value or the error's text. The
environment is a map from variable names to values.

The modules are:

- `Wrappers`: Option and Result.
- `Errors`: the error triple.
- `Strings`: `trim`, `to_lowercase` and integer display.
- `Environment`: the getters and integer parsing.
- `StorageEndpoints`: the endpoint registry.
- `BunnyClient`: the shared request, response and decoding shapes.
- `Files`: the file listing.
- `StorageZones`: the storage-zone operations.
- `Statistics`: the account statistics request.
- `ApiKeys`: the API-key listing.
- `PullZones`: the pull-zone requests.

## Model

| member | source | states |
|---|---|---|
| Errors.NewFromMessage | src/errors.rs:13-19 | a message-only error has an empty key and an empty field, and carries the message unchanged |
| StorageEndpoints.Hostname | src/models/storageendpoint.rs:17-32 | every endpoint displays as one of the nine storage hostnames |
| StorageEndpoints.Url | src/models/storageendpoint.rs:36-38 | the URL is `https://` followed by exactly the endpoint's hostname |
| StorageEndpoints.FromStr | src/models/storageendpoint.rs:40-56 | accepts a name iff it is exactly one of the nine hostnames, with no trimming or case folding; the endpoint it returns displays as that name; any other name gives the error "Invalid Endpoint Name - Provided " followed by the name |
| StorageEndpoints.FromStrHostname | src/models/storageendpoint.rs:19-50 | for every endpoint, parsing its hostname gives the endpoint back |
| StorageEndpoints.HostnameInjective | src/models/storageendpoint.rs:20-28 | no two endpoints share a hostname |
| StorageEndpoints.FromStrExamples | src/models/storageendpoint.rs:66-89 | all nine hostnames parse, "InvalidStorageEndpoint" gives its exact error, and a padded or upper-cased hostname is refused |
| Strings.TrimSpec | src/environment.rs:16-17 | `trim` leaves no whitespace at either end, never lengthens, and leaves nothing exactly when the string is all whitespace |
| Strings.Trim | src/environment.rs:16 | `str::trim`, defined as trimming the start and then the end; TrimSpec and TrimRemovesPadding characterise it |
| Strings.TrimIdempotent | src/environment.rs:16 | trimming twice is trimming once |
| Strings.TrimRemovesPadding | src/environment.rs:16 | trimming removes exactly the whitespace padding around a string that has none at its own ends |
| Strings.ToLower | src/client/storagezones.rs:186-188 | lower-casing keeps the length and lowers each character on its own |
| Strings.NatToDecimal | src/client/statistics.rs:35-40 | the rendering of a natural number is a non-empty digit string whose place value is the number, with no leading zero |
| Strings.IntToDecimal | src/client/statistics.rs:35-40 | an integer renders as a minus sign iff it is negative, followed by the digits of its magnitude |
| Environment.Accumulate | src/environment.rs:28 | the digit loop of `parse`: a value it yields is in the type's range, and it never reports Empty |
| Environment.ParseInteger | src/environment.rs:28 | a parsed value lies in the target type's range, and the Empty error occurs exactly for the empty string |
| Environment.AccumulateValue | src/environment.rs:28 | the digit loop after a prefix succeeds iff the rest is all digits and the whole literal stays in range, and then yields the literal's value |
| Environment.ParseIntegerCorrect | src/environment.rs:26-96 | `parse` succeeds exactly on an optional sign followed by digits, where '-' is accepted only for signed types, and whose value fits the type; the result is that value |
| Environment.ParseIntegerRoundTrip | src/environment.rs:26-96 | the decimal rendering of an in-range integer parses back to it |
| Environment.GetStringFromEnv | src/environment.rs:5-12 | succeeds iff the variable is set, and returns its raw value; otherwise the error names the variable |
| Environment.GetNonEmptyStringFromEnv | src/environment.rs:14-24 | succeeds iff the variable is set and not blank, and returns the trimmed value, which is non-empty with no whitespace at either end; a missing variable and a blank one give their own errors naming the variable |
| Environment.GetIntegerFromEnv | src/environment.rs:26-96 | a missing or blank variable fails before parsing with the string getter's error; otherwise the trimmed content is parsed, a value is in the type's range, and a parse failure gives the parse error's text |
| Environment.GetIntegerFromEnvRoundTrip | src/environment.rs:26-96 | a variable holding an in-range integer's decimal rendering, padded with any whitespace, reads back as that integer |
| Environment.GetIntegerFromEnvRejects | src/environment.rs:26-96 | content that is not an in-range decimal literal of the type gives the parse error, never a value |
| Environment.GetI8FromEnv | src/environment.rs:26-33 | a value read is within i8 |
| Environment.GetI16FromEnv | src/environment.rs:35-42 | a value read is within i16 |
| Environment.GetI32FromEnv | src/environment.rs:44-51 | a value read is within i32 |
| Environment.GetI64FromEnv | src/environment.rs:53-60 | a value read is within i64 |
| Environment.GetU8FromEnv | src/environment.rs:62-69 | a value read is within u8 |
| Environment.GetU16FromEnv | src/environment.rs:71-78 | a value read is within u16 |
| Environment.GetU32FromEnv | src/environment.rs:80-87 | a value read is within u32 |
| Environment.GetU64FromEnv | src/environment.rs:89-96 | a value read is within u64 |
| BunnyClient.Rewrap | src/client/pullzones.rs:36-37 | a decoding failure becomes a message-only error with the decoder's text; a success is kept |
| BunnyClient.DecodedPrefix | src/client/files.rs:39-51 | the best-effort decoding is no longer than the input, decodes each kept element in order, and stops only at the end or at an element that fails |
| BunnyClient.DecodedPrefixUnique | src/client/files.rs:39-51 | those three properties determine the best-effort decoding uniquely |
| BunnyClient.DecodedPrefixComplete | src/client/files.rs:39-51 | the best-effort decoding keeps every element iff every element decodes |
| Files.ListingDirectory | src/client/files.rs:15-18 | a blank directory becomes "/", any other is trimmed; the result is never empty |
| Files.FilesUrl | src/client/files.rs:19-25 | the listing URL starts with the endpoint URL and always ends in '/' |
| Files.BlankDirectoryUrl | src/client/files.rs:15-25 | a blank directory lists the zone root through a URL ending in the zone name and "///", with no slashes collapsed |
| Files.DecodeFiles | src/client/files.rs:39-51 | the decoding loop with its `break` yields exactly the best-effort decoding |
| Files.GetFiles | src/client/files.rs:14-53 | sends one request with the read password and no query; a transport error passes through; text that is not JSON gives the parser's error; JSON that is not an array gives "Invalid Files Array"; an array gives Ok with its best-effort decoding, never an error for a bad element |
| Files.DecodedPrefixStopsAtFirstFailure | src/client/files.rs:46-49 | an example: of two entries that decode, one that fails and one more that decodes, only the first two are kept |
| ApiKeys.DecodeAll | src/client/apikey.rs:16-24 | all-or-nothing decoding of the page items; DecodeAllSpec states what it returns |
| ApiKeys.DecodeAllSpec | src/client/apikey.rs:16-24 | decoding succeeds iff every item decodes, and then keeps all items in order; otherwise the error is the message of the first failing item; an empty page gives Ok([]); success agrees with the best-effort decoding, and failure is where that decoding would drop items |
| ApiKeys.DecodeApiKeys | src/client/apikey.rs:16-24 | the loop with its early return computes the all-or-nothing decoding |
| ApiKeys.GetApiKeys | src/client/apikey.rs:7-25 | sends one request to API root + "/apikey" with the API key and the page entries; a transport error passes through unchanged; otherwise the page items are decoded all-or-nothing |
| PullZones.PullZoneUrlInjective | src/client/pullzones.rs:46-50 | distinct pull-zone ids give distinct URLs |
| PullZones.PullZoneUrl | src/client/pullzones.rs:46-50 | API root + "/pullzone/" followed by text that parses back to the id |
| PullZones.PullZonesQuery | src/client/pullzones.rs:17-26 | the page entries plus "search" iff a search is given, and "includeCertificate" iff the flag is given, with their values; every other page entry keeps its value, including one named "search" or "includeCertificate" when that filter is not given |
| PullZones.PullZoneQuery | src/client/pullzones.rs:42-45 | empty without a flag, otherwise exactly the key "includeCertificate" with "true" or "false" |
| PullZones.GetPullZones | src/client/pullzones.rs:16-39 | sends one request to API root + "/pullzone" with that query; a transport error passes through; the body is parsed, and a parse failure becomes a message-only error |
| PullZones.GetPullZone | src/client/pullzones.rs:41-59 | sends one request to API root + "/pullzone/" + id with the single-zone query, with the same error handling |
| Statistics.StatisticsQuery | src/client/statistics.rs:24-50 | the query as six conditional insertions; StatisticsQueryKeys, StatisticsQueryValues and StatisticsQuerySize state its keys, values and size |
| Statistics.StatisticsQueryKeys | src/client/statistics.rs:24-50 | no parameters give the empty query; the keys are among the six filter names, and each is present iff its filter is given |
| Statistics.StatisticsQueryValues | src/client/statistics.rs:29-46 | dates are rendered in RFC 3339, ids in decimal and flags as "true"/"false" |
| Statistics.StatisticsQuerySize | src/client/statistics.rs:29-46 | the query has one entry per given filter |
| Statistics.PrepareStatisticsParams | src/client/statistics.rs:24-50 | the six conditional inserts build exactly the statistics query |
| Statistics.GetStatistics | src/client/statistics.rs:54-63 | sends one request to API root + "/statistics" with the API key and the prepared query; a transport error passes through; the raw text is parsed |
| StorageZones.RootUrl | src/client/storagezones.rs:59-64 | the zone root URL is the API root followed by "/storagezone" |
| StorageZones.ZoneUrl | src/client/storagezones.rs:112-116 | a zone's URL is the root URL, a '/', and text that parses back to the id; reading and deleting use it |
| StorageZones.ZoneStatisticsUrl | src/client/storagezones.rs:275-279 | a zone's statistics URL is its zone URL followed by "/statistics" |
| StorageZones.AvailabilityUrl | src/client/storagezones.rs:136-139 | the availability URL is the root URL followed by "/checkavailability" |
| StorageZones.ZoneUrlInjective | src/client/storagezones.rs:111-116 | distinct zone ids give distinct zone URLs |
| StorageZones.ZonesQuery | src/client/storagezones.rs:67-76 | the page entries plus "includeDeleted" iff given, as "true"/"false", and "search" iff given; every other page entry keeps its value, including one named "includeDeleted" or "search" when that filter is not given |
| StorageZones.ZoneStatisticsQuery | src/client/storagezones.rs:280-288 | "dateTo" is never a key and "dateFrom" is the only one; "dateFrom" is present iff either date is given, and holds the end date whenever one is given |
| StorageZones.AvailabilityCall | src/client/storagezones.rs:131-162 | a blank name fails with "Invalid Storage Zone Name. Must not be empty" before any request; otherwise exactly one request is sent, whose body maps "Name" to the trimmed name; a transport error is re-wrapped as a message-only error of its Display text, and a response body is parsed, a parse failure re-wrapped |
| StorageZones.CheckStorageZoneAvailability | src/client/storagezones.rs:131-162 | the method computes that call, re-wrapping transport errors into message-only errors |
| StorageZones.ZonesCall | src/client/storagezones.rs:66-89 | a listing sends exactly one request, with the zone query; a transport error is re-wrapped as a message-only error of its Display text, and a response body is parsed, a parse failure re-wrapped |
| StorageZones.GetStorageZones | src/client/storagezones.rs:66-89 | the method's conditional inserts and error handling compute that call |
| StorageZones.GetStorageZone | src/client/storagezones.rs:111-127 | sends one request to the zone URL with no query; a transport error is re-wrapped; the body is parsed |
| StorageZones.NameKey | src/client/storagezones.rs:186-188 | the comparison key of a zone name: lower-cased, then trimmed; FindByName and FindReturnsFirstMatch compare names by it |
| StorageZones.FirstMatchIndex | src/client/storagezones.rs:186-192 | the index returned is of a matching zone with no match before it, and no index means no zone matches |
| StorageZones.FindByName | src/client/storagezones.rs:186-192 | the early-return loop finds the first listed zone whose lower-cased, trimmed name equals the searched one's |
| StorageZones.SearchParameters | src/client/storagezones.rs:174-181 | the listing parameters of a search: includeDeleted defaults to true, and the untrimmed name is the search term; FindRequests states the request they produce |
| StorageZones.FindCall | src/client/storagezones.rs:171-195 | the find as a function: the availability check, then a listing for a taken name only, then the first match; FindBlankNameSendsNothing, FindRequests, FindReturnsFirstMatch and FindPropagatesErrors state its behaviour |
| StorageZones.FindPropagatesErrors | src/client/storagezones.rs:172-185 | a failed availability check is returned unchanged with only its own requests; after a name is reported taken, a failed listing is returned unchanged after the check's and the listing's requests |
| StorageZones.AttemptFindStorageZone | src/client/storagezones.rs:171-195 | the method computes the find: an availability check, then a listing only for a taken name, then the first match |
| StorageZones.FindBlankNameSendsNothing | src/client/storagezones.rs:171-172 | finding a blank name fails with the name error before any request |
| StorageZones.FindRequests | src/client/storagezones.rs:172-185 | a name reported free gives Ok(None) after the single availability request; a taken name is then listed with a GET to the zone root URL, with "includeDeleted" defaulting to true and the untrimmed name as "search" |
| StorageZones.FindReturnsFirstMatch | src/client/storagezones.rs:186-194 | after a successful listing the find gives None iff no listed name matches, and otherwise the first zone whose name matches |
| StorageZones.AddBody | src/client/storagezones.rs:220 | the serialised add parameters: an object holding "Name" and "Region" exactly as given, then "ZoneTier" as the tier's `u8` discriminant (0 for Standard, 1 for Edge), then "Common" only when common parameters are given |
| StorageZones.AddCall | src/client/storagezones.rs:211-241 | a blank name fails first and then a blank region, each with its own error and before any request; otherwise exactly the add request is sent, a transport error is re-wrapped as a message-only error of its Display text, and a response body is parsed, a parse failure re-wrapped |
| StorageZones.AddStorageZone | src/client/storagezones.rs:211-241 | the method computes that call; its body carries the untrimmed name and region |
| StorageZones.ExistsOkCall | src/client/storagezones.rs:245-254 | find-or-add as a function: a found zone is returned, otherwise the zone is added; ExistsOkAddsOnlyWhenMissing, ExistsOkOutcome and ExistsOkBlankName state its behaviour |
| StorageZones.ExistsOkOutcome | src/client/storagezones.rs:246-253 | a failed find is returned unchanged with no add request; a find that gives no zone yields exactly the add's outcome, after the find's requests and then the add's |
| StorageZones.AddStorageZoneExistsOk | src/client/storagezones.rs:245-254 | the method computes the find, and adds only when nothing is found |
| StorageZones.ExistsOkAddsOnlyWhenMissing | src/client/storagezones.rs:245-254 | the add request is sent iff the find gave Ok(None) and the region is not blank; a found zone is returned as it is, after only the find's requests |
| StorageZones.ExistsOkBlankName | src/client/storagezones.rs:245-249 | find-or-add with a blank name fails with the name error before any request |
| StorageZones.DeleteStorageZone | src/client/storagezones.rs:262-272 | sends one DELETE to the zone URL, and passes the outcome through |
| StorageZones.GetStorageZoneStatistics | src/client/storagezones.rs:274-298 | sends one request to the zone URL + "/statistics" with the zone statistics query; a transport error passes through; the body is parsed |

## Left out

- The HTTP transport is an oracle. This covers `get`, `post` and `delete`, the headers (including the JSON content type), async execution, and the detection of error-shaped bodies. The responses' `raw_data`, `body` and page items are fields of the oracle's response.
- `add_page_parameters` and `BunnyCDNPageParameters` are not part of this model. The client carries the entries the helper writes as an oracle.
- The value of `BUNNY_STORAGE_API_ROOT` is not part of this model. It is a constant without a value, and every URL is proved in terms of it.
- `Error`'s `Display` is an oracle. It is used where transport errors are re-wrapped.
- JSON decoding is a parameter, and so is RFC 3339 rendering of dates.
- StorageZones.AddCall: the model assumes `serde_json::to_string` of the add parameters cannot fail. That error path is not modelled.
- StorageZones.AvailabilityCall: the model likewise assumes serialising the availability map cannot fail. The map is serialised as a one-member object.
- StorageZones.StorageZone keeps only the name and the id. The name is the only field the client itself reads (src/client/storagezones.rs:188); the id is kept as the zone's identity, and the other fields are data-transfer shape.
- Strings.ToLower lowers ASCII letters only. Full Unicode lower-casing is a table outside this model, and it can change a string's length.
- Environment.GetStringFromEnv: a value that is not valid Unicode (`VarError::NotUnicode`) cannot occur in a map of strings. Only the not-present error is modelled.
- Environment.GetI8FromEnv states only the i8 range. The missing, blank and parse cases are stated once on Environment.GetIntegerFromEnv, which it calls.
- Environment.GetI16FromEnv states only the i16 range, for the same reason.
- Environment.GetI32FromEnv states only the i32 range, for the same reason.
- Environment.GetI64FromEnv states only the i64 range, for the same reason.
- Environment.GetU8FromEnv states only the u8 range, for the same reason.
- Environment.GetU16FromEnv states only the u16 range, for the same reason.
- Environment.GetU32FromEnv states only the u32 range, for the same reason.
- Environment.GetU64FromEnv states only the u64 range, for the same reason.
- The `println!` calls are logging and are not modelled. One of them prints the read password.
- `update_storage_zone` is commented out in the source and is not modelled.
- src/client.rs (the configuration loader), src/client/regions.rs, the serde model records and the date (de)serialisers in src/models.rs are not part of this model.
- Upload, download and path resolution do not appear in the modelled files.
- The integration tests need live credentials and are not modelled. The endpoint unit test is stated as StorageEndpoints.FromStrExamples.
