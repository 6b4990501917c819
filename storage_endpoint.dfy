/** The storage endpoints of bunny.net (src/models/storageendpoint.rs): nine regions, each
    served from one hostname. */
module StorageEndpoints {
  import opened Wrappers
  import opened Errors

  datatype StorageEndpoint =
    | Falkenstein
    | London
    | NewYork
    | LosAngeles
    | SingaPore
    | Stockholm
    | SaoPaulo
    | Johannesburg
    | Sydney

  /** The strings `from_str` accepts: exactly the nine hostnames. */
  predicate IsHostname(name: string) {
    name in {
      "storage.bunnycdn.com", "uk.storage.bunnycdn.com", "ny.storage.bunnycdn.com",
      "la.storage.bunnycdn.com", "sg.storage.bunnycdn.com", "se.storage.bunnycdn.com",
      "br.storage.bunnycdn.com", "jh.storage.bunnycdn.com", "syd.storage.bunnycdn.com"
    }
  }

  /** The `Display` of an endpoint: the hostname of its storage API. */
  function Hostname(e: StorageEndpoint): (h: string)
    ensures IsHostname(h)
  {
    match e
    case Falkenstein => "storage.bunnycdn.com"
    case London => "uk.storage.bunnycdn.com"
    case NewYork => "ny.storage.bunnycdn.com"
    case LosAngeles => "la.storage.bunnycdn.com"
    case SingaPore => "sg.storage.bunnycdn.com"
    case Stockholm => "se.storage.bunnycdn.com"
    case SaoPaulo => "br.storage.bunnycdn.com"
    case Johannesburg => "jh.storage.bunnycdn.com"
    case Sydney => "syd.storage.bunnycdn.com"
  }

  /** `url`: the endpoint's hostname behind an `https://` scheme. */
  function Url(e: StorageEndpoint): (u: string)
    ensures |u| > |"https://"| && u[..|"https://"|] == "https://" && u[|"https://"|..] == Hostname(e)
  {
    "https://" + Hostname(e)
  }

  /** The error for a name that is not one of the hostnames. */
  function InvalidEndpointMessage(name: string): string {
    "Invalid Endpoint Name - Provided " + name
  }

  /** `from_str`: the endpoint whose hostname is exactly `name`, with no trimming or case
      folding; any other string is an error that quotes it. */
  function FromStr(name: string): (r: Result<StorageEndpoint, Error>)
    ensures r.Ok? <==> IsHostname(name)
    ensures r.Ok? ==> Hostname(r.value) == name
    ensures r.Err? ==> r.error == NewFromMessage(InvalidEndpointMessage(name))
  {
    match name
    case "storage.bunnycdn.com" => Ok(Falkenstein)
    case "uk.storage.bunnycdn.com" => Ok(London)
    case "ny.storage.bunnycdn.com" => Ok(NewYork)
    case "la.storage.bunnycdn.com" => Ok(LosAngeles)
    case "sg.storage.bunnycdn.com" => Ok(SingaPore)
    case "se.storage.bunnycdn.com" => Ok(Stockholm)
    case "br.storage.bunnycdn.com" => Ok(SaoPaulo)
    case "jh.storage.bunnycdn.com" => Ok(Johannesburg)
    case "syd.storage.bunnycdn.com" => Ok(Sydney)
    case _ => Err(NewFromMessage(InvalidEndpointMessage(name)))
  }

  /** Every endpoint's hostname parses back to the endpoint. */
  lemma FromStrHostname(e: StorageEndpoint)
    ensures FromStr(Hostname(e)) == Ok(e)
  {
  }

  /** No two endpoints share a hostname. */
  lemma HostnameInjective(e1: StorageEndpoint, e2: StorageEndpoint)
    requires Hostname(e1) == Hostname(e2)
    ensures e1 == e2
  {
    FromStrHostname(e1);
    FromStrHostname(e2);
  }

  /** The nine hostnames are accepted and "InvalidStorageEndpoint" is refused, as the
      module's unit test checks. */
  lemma FromStrExamples()
    ensures forall e: StorageEndpoint :: FromStr(Hostname(e)).Ok?
    ensures FromStr("InvalidStorageEndpoint") ==
      Err(NewFromMessage("Invalid Endpoint Name - Provided InvalidStorageEndpoint"))
    ensures FromStr(" storage.bunnycdn.com").Err? && FromStr("STORAGE.BUNNYCDN.COM").Err?
  {
    forall e: StorageEndpoint ensures FromStr(Hostname(e)).Ok? {
      FromStrHostname(e);
    }
    assert InvalidEndpointMessage("InvalidStorageEndpoint") ==
      "Invalid Endpoint Name - Provided InvalidStorageEndpoint";
  }
}
