/** Listing the account's API keys (src/client/apikey.rs). Unlike the file listing, one
    entry that fails to decode fails the whole call. */
module ApiKeys {
  import opened Wrappers
  import opened Errors
  import opened BunnyClient

  /** All-or-nothing decoding: every item decoded, or the error of the first item that
      fails. */
  function DecodeAll<K(==)>(decode: Decoder<K>, items: seq<Json>): Result<seq<K>, Error> {
    var prefix := DecodedPrefix(decode, items);
    if |prefix| == |items| then Ok(prefix) else Err(NewFromMessage(decode(items[|prefix|]).error))
  }

  /** Decoding succeeds exactly when every item decodes; it then keeps every item, in
      order, and otherwise reports the message of the first item that fails. An empty
      page gives an empty list. Where it succeeds it agrees with the best-effort decoding
      of the file listing; where it fails, the best-effort decoding would drop items. */
  lemma DecodeAllSpec<K>(decode: Decoder<K>, items: seq<Json>)
    ensures DecodeAll(decode, items).Ok? <==> AllDecode(decode, items)
    ensures DecodeAll(decode, items).Ok? ==>
      var keys := DecodeAll(decode, items).value;
      |keys| == |items| && forall i :: 0 <= i < |items| ==> decode(items[i]) == Ok(keys[i])
    ensures DecodeAll(decode, items).Err? ==>
      exists k :: 0 <= k < |items| && decode(items[k]).Err?
        && (forall j :: 0 <= j < k ==> decode(items[j]).Ok?)
        && DecodeAll(decode, items).error == NewFromMessage(decode(items[k]).error)
    ensures items == [] ==> DecodeAll(decode, items) == Ok([])
    ensures DecodeAll(decode, items).Ok? ==> DecodeAll(decode, items).value == DecodedPrefix(decode, items)
    ensures DecodeAll(decode, items).Err? ==> |DecodedPrefix(decode, items)| < |items|
  {
    DecodedPrefixComplete(decode, items);
    var prefix := DecodedPrefix(decode, items);
    if |prefix| < |items| {
      var k := |prefix|;
      assert forall j :: 0 <= j < k ==> decode(items[j]) == Ok(prefix[j]);
      assert decode(items[k]).Err?;
    }
  }

  /** The loop of `get_api_keys`: decodes the items in order and returns at the first
      failure. */
  method DecodeApiKeys<K(==)>(items: seq<Json>, decode: Decoder<K>) returns (r: Result<seq<K>, Error>)
    ensures r == DecodeAll(decode, items)
  {
    var keys: seq<K> := [];
    var i := 0;
    while i < |items|
      invariant i <= |items| && |keys| == i
      invariant forall j :: 0 <= j < i ==> decode(items[j]) == Ok(keys[j])
    {
      var key := decode(items[i]);
      if key.Err? {
        DecodedPrefixUnique(decode, items, keys);
        return Err(NewFromMessage(key.error));
      }
      keys := keys + [key.value];
      i := i + 1;
    }
    DecodedPrefixUnique(decode, items, keys);
    r := Ok(keys);
  }

  /** `get_api_keys`: one request with the page parameters; transport errors are passed
      through unchanged, and the page items are decoded all-or-nothing. */
  method GetApiKeys<K(==)>(client: Client, pageParams: Option<PageParameters>, decode: Decoder<K>)
    returns (r: Result<seq<K>, Error>, sent: seq<Request>)
    ensures sent == [Request(Get, ApiRoot + "/apikey", client.config.apiKey, Some(client.pageEntries(pageParams)), None)]
    ensures client.send(sent[0]).Err? ==> r == Err(client.send(sent[0]).error)
    ensures client.send(sent[0]).Ok? ==> r == DecodeAll(decode, client.send(sent[0]).value.pageItems)
  {
    var query := client.pageEntries(pageParams);
    var apiKeysUrl := ApiRoot + "/apikey";
    var request := Request(Get, apiKeysUrl, client.config.apiKey, Some(query), None);
    sent := [request];
    var response := client.send(request);
    if response.Err? {
      return Err(response.error), sent;
    }
    r := DecodeApiKeys(response.value.pageItems, decode);
  }
}
