/** The parts of `BunnyCDNClient` that every operation shares: its configuration, the
    requests it sends to bunny.net, the responses it gets back, and the decoding of JSON.
    The HTTP transport, the page-parameter helper and the error rendering are not part
    of this model; a `Client` carries them as functions, so every operation is a
    deterministic function of what the network answers. */
module BunnyClient {
  import opened Wrappers
  import opened Errors
  import opened StorageEndpoints

  /** `BUNNY_STORAGE_API_ROOT`: the base URL of the management API. Its value is not part
      of this model; every URL below is built on it. */
  const ApiRoot: string

  /** `BunnyCDNPageParameters`, whose fields are not part of this model. */
  type PageParameters

  /** A `chrono::DateTime<Utc>`. */
  type DateTime

  /** A signed 64-bit id (`i64`). */
  type Int64 = n: int | -0x8000_0000_0000_0000 <= n <= 0x7FFF_FFFF_FFFF_FFFF

  /** A `serde_json::Value`. */
  datatype Json =
    | Null
    | Bool(boolean: bool)
    | Number(text: string)
    | String(str: string)
    | Array(elements: seq<Json>)
    | Object(members: seq<(string, Json)>)

  /** `serde_json::from_str` into some type: the value, or the error's text. */
  type Parser<T> = string -> Result<T, string>

  /** `serde_json::from_value` into some type: the value, or the error's text. */
  type Decoder<T> = Json -> Result<T, string>

  /** The client's configuration (`BunnyCDNClientConfig`). */
  datatype Config = Config(apiKey: string, readPassword: string, storageZoneName: string, endpoint: StorageEndpoint)

  datatype Verb = Get | Post | Delete

  /** One call to the API: the verb, the URL, the `AccessKey` header, the query parameters
      and the JSON body. */
  datatype Request = Request(verb: Verb, url: string, accessKey: string, query: Option<map<string, string>>, body: Option<Json>)

  /** What a successful call returns: the raw text, the body text and the items of the
      page metadata. */
  datatype Response = Response(rawData: string, body: string, pageItems: seq<Json>)

  /** A client: its configuration and the behaviour of the code it calls but which is not
      part of this model. `send` is the network, `display` is `Error::to_string`, and
      `pageEntries` is the map `add_page_parameters` writes for the given page parameters. */
  datatype Client = Client(
    config: Config,
    send: Request -> Result<Response, Error>,
    display: Error -> string,
    pageEntries: Option<PageParameters> -> map<string, string>)

  /** The outcome of an operation together with the requests it sent, in order. */
  datatype Call<T> = Call(result: Result<T, Error>, sent: seq<Request>)

  /** `map_err(|e| Error::new_from_message(&e.to_string()))` on a decoding result. */
  function Rewrap<T>(r: Result<T, string>): (e: Result<T, Error>)
    ensures e.Ok? <==> r.Ok?
    ensures r.Ok? ==> e.value == r.value
    ensures r.Err? ==> e.error == NewFromMessage(r.error)
  {
    match r
    case Ok(v) => Ok(v)
    case Err(message) => Err(NewFromMessage(message))
  }

  /** A `HashMap::insert` of `key` when the optional value is present. */
  function InsertSome(m: map<string, string>, key: string, value: Option<string>): map<string, string>
  {
    match value
    case Some(v) => m[key := v]
    case None => m
  }

  /** The longest prefix of `items` whose elements all decode, decoded. */
  function DecodedPrefix<T(==)>(decode: Decoder<T>, items: seq<Json>): (r: seq<T>)
    ensures |r| <= |items|
    ensures forall i :: 0 <= i < |r| ==> decode(items[i]) == Ok(r[i])
    ensures |r| < |items| ==> decode(items[|r|]).Err?
  {
    if items == [] then []
    else
      match decode(items[0])
      case Err(_) => []
      case Ok(x) => [x] + DecodedPrefix(decode, items[1..])
  }

  /** The three properties of `DecodedPrefix` single it out: a sequence of decoded
      elements that stops only at the end or at an element that fails is that prefix. */
  lemma {:induction false} DecodedPrefixUnique<T>(decode: Decoder<T>, items: seq<Json>, r: seq<T>)
    requires |r| <= |items|
    requires forall i :: 0 <= i < |r| ==> decode(items[i]) == Ok(r[i])
    requires |r| < |items| ==> decode(items[|r|]).Err?
    ensures r == DecodedPrefix(decode, items)
  {
    if items != [] && r != [] {
      assert decode(items[0]) == Ok(r[0]);
      forall i | 0 <= i < |r[1..]| ensures decode(items[1..][i]) == Ok(r[1..][i]) {
        assert decode(items[i + 1]) == Ok(r[i + 1]);
      }
      if |r[1..]| < |items[1..]| {
        assert items[1..][|r[1..]|] == items[|r|];
      }
      DecodedPrefixUnique(decode, items[1..], r[1..]);
      assert r == [r[0]] + r[1..];
    }
  }

  /** Every element decodes. */
  predicate AllDecode<T>(decode: Decoder<T>, items: seq<Json>) {
    forall i :: 0 <= i < |items| ==> decode(items[i]).Ok?
  }

  /** The prefix covers the whole sequence exactly when every element decodes. */
  lemma DecodedPrefixComplete<T>(decode: Decoder<T>, items: seq<Json>)
    ensures |DecodedPrefix(decode, items)| == |items| <==> AllDecode(decode, items)
  {
    var r := DecodedPrefix(decode, items);
    if |r| == |items| {
      forall i | 0 <= i < |items| ensures decode(items[i]).Ok? {
        assert decode(items[i]) == Ok(r[i]);
      }
    }
  }
}
