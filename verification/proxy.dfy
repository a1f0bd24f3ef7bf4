/**
 The choice `setProxy` makes once the proxy list has been fetched and decoded:
 the first candidate is used, written as an `http://` proxy URL.
 */
module Proxy {
  import opened Wrappers

  /** One entry of the provider's `data` array. */
  datatype Candidate = Candidate(ipPort: string)

  datatype ProxyError =
    | LookupFailed   // the list could not be fetched, read or decoded
    | NoProxyFound   // the list was empty

  const Scheme: string := "http://"

  /** The proxy URL for the first candidate; an empty list is an error. */
  function SelectProxy(data: seq<Candidate>): (r: Result<string, ProxyError>)
    ensures r.Err? <==> data == []
    ensures r.Err? ==> r.error == NoProxyFound
    ensures r.Ok? ==> |r.value| >= |Scheme| && r.value[..|Scheme|] == Scheme && r.value[|Scheme|..] == data[0].ipPort
  {
    if |data| == 0 then Err(NoProxyFound) else Ok(Scheme + data[0].ipPort)
  }

  /** Candidates after the first one never affect the choice. */
  lemma SelectProxyIgnoresRest(first: Candidate, rest1: seq<Candidate>, rest2: seq<Candidate>)
    ensures SelectProxy([first] + rest1) == SelectProxy([first] + rest2)
  {
  }
}
