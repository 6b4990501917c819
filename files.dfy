/** Listing the files of a storage zone directory (src/client/files.rs). */
module Files {
  import opened Wrappers
  import opened Errors
  import opened Strings
  import opened StorageEndpoints
  import opened BunnyClient

  /** The error for a listing whose JSON is not an array. */
  const InvalidFilesArrayMessage := "Invalid Files Array"

  /** The directory that is listed: the given one trimmed, or the root when nothing is left. */
  function ListingDirectory(directory: string): (d: string)
    ensures Blank(directory) ==> d == "/"
    ensures !Blank(directory) ==> d == Trim(directory)
    ensures d != []
  {
    TrimSpec(directory);
    var trimmed := Trim(directory);
    if trimmed == [] then "/" else trimmed
  }

  /** The listing URL: the endpoint URL, the zone name and the directory, each followed by
      a slash; slashes in the directory are kept as they are. */
  function FilesUrl(config: Config, directory: string): (u: string)
    ensures |u| > |Url(config.endpoint)| && u[..|Url(config.endpoint)|] == Url(config.endpoint)
    ensures u[|u| - 1] == '/'
  {
    Url(config.endpoint) + "/" + config.storageZoneName + "/" + ListingDirectory(directory) + "/"
  }

  /** The listing is read with the zone's read password and no query parameters. */
  function FilesRequest(config: Config, directory: string): Request {
    Request(Get, FilesUrl(config, directory), config.readPassword, None, None)
  }

  /** `get_files`: lists `directory` and decodes its entries, keeping those before the
      first entry that fails to decode. */
  method GetFiles<F(==)>(client: Client, directory: string, parse: Parser<Json>, decode: Decoder<F>)
    returns (r: Result<seq<F>, Error>, sent: seq<Request>)
    ensures sent == [FilesRequest(client.config, directory)]
    ensures var response := client.send(FilesRequest(client.config, directory));
      && (response.Err? ==> r == Err(response.error))
      && (response.Ok? ==>
            var value := parse(response.value.rawData);
            && (value.Err? ==> r == Err(NewFromMessage(value.error)))
            && (value.Ok? && !value.value.Array? ==> r == Err(NewFromMessage(InvalidFilesArrayMessage)))
            && (value.Ok? && value.value.Array? ==> r == Ok(DecodedPrefix(decode, value.value.elements))))
  {
    var usedDirectory := Trim(directory);
    if usedDirectory == [] {
      usedDirectory := "/";
    }
    assert usedDirectory == ListingDirectory(directory);
    var filesUrl := Url(client.config.endpoint) + "/" + client.config.storageZoneName + "/" + usedDirectory + "/";
    var request := Request(Get, filesUrl, client.config.readPassword, None, None);
    assert request == FilesRequest(client.config, directory);
    sent := [request];
    var response := client.send(request);
    if response.Err? {
      return Err(response.error), sent;
    }
    var value := parse(response.value.rawData);
    if value.Err? {
      return Err(NewFromMessage(value.error)), sent;
    }
    if !value.value.Array? {
      return Err(NewFromMessage(InvalidFilesArrayMessage)), sent;
    }
    var files := DecodeFiles(value.value.elements, decode);
    r := Ok(files);
  }

  /** The loop of `get_files` over the listed entries: decodes them in order and stops at
      the first that fails, keeping the ones before it. */
  method DecodeFiles<F(==)>(items: seq<Json>, decode: Decoder<F>) returns (files: seq<F>)
    ensures files == DecodedPrefix(decode, items)
  {
    files := [];
    var i := 0;
    while i < |items|
      invariant i <= |items| && |files| == i
      invariant forall j :: 0 <= j < i ==> decode(items[j]) == Ok(files[j])
    {
      var file := decode(items[i]);
      if file.Err? {
        break;
      }
      files := files + [file.value];
      i := i + 1;
    }
    DecodedPrefixUnique(decode, items, files);
  }

  /** A blank directory lists the zone's root: the URL ends in the zone name followed by
      three slashes, which are not collapsed. */
  lemma BlankDirectoryUrl(config: Config, directory: string)
    requires Blank(directory)
    ensures FilesUrl(config, directory) == Url(config.endpoint) + "/" + config.storageZoneName + "///"
  {
  }

  /** A decoder that accepts only numbers, for the example below. */
  function NumbersOnly(j: Json): Result<string, string> {
    if j.Number? then Ok(j.text) else Err("invalid type")
  }

  /** Two entries that decode, then one that does not, then one that does: the listing
      keeps the first two and drops the rest. */
  lemma DecodedPrefixStopsAtFirstFailure()
    ensures DecodedPrefix(NumbersOnly, [Number("1"), Number("2"), Null, Number("4")]) == ["1", "2"]
  {
    var items := [Number("1"), Number("2"), Null, Number("4")];
    assert items[1..] == [Number("2"), Null, Number("4")];
    assert items[1..][1..] == [Null, Number("4")];
  }
}
