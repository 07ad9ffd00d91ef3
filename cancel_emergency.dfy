/** `CancelEmergency`: stop the retries of an emergency notification. */
module CancelEmergencyRequest {
  import opened Wrappers
  import opened Base

  datatype CancelEmergency = CancelEmergency(token: string, receipt: string)
  {
    function GetMethod(): (m: HttpMethod)
      ensures m == POST
    {
      POST
    }

    /** `build_url`: segments `receipts`, the receipt and `cancel.json`; the token is the whole query. */
    method BuildUrl(target: Url)
      modifies target
      ensures target.path == old(target.path) + ["receipts", receipt, "cancel.json"]
      ensures target.query == old(target.query) + [("token", token)]
    {
      target.PushSegment("receipts");
      target.PushSegment(receipt);
      target.PushSegment("cancel.json");
      target.AppendPair("token", token);
    }
  }

  /** `map`: the reply carries nothing but the request identifier. */
  function Map(raw: RawBasicResponse): (r: string)
    ensures SuccessReply(r, raw.body) == raw.(status := 1, errors := None)
  {
    raw.request
  }

  /** Sending back the success reply for a request identifier gives that identifier. */
  lemma MapRoundTrip(request: string)
    ensures Dispatch(SuccessReply(request, ()), Map) == Ok(request)
  {
  }

  /** The URL the client sends a cancellation to: `receipts/<receipt>/cancel.json?token=...`. */
  method FullUrl(token: string, receipt: string) returns (path: seq<string>, query: seq<Pair>)
    ensures path == [ApiVersion, "receipts", receipt, "cancel.json"]
    ensures query == [("token", token)]
  {
    var target := new Url.Versioned();
    CancelEmergency(token, receipt).BuildUrl(target);
    path, query := target.path, target.query;
  }
}
