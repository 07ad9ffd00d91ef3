/** `Acknowledge`: an open-client device acknowledges an emergency notification. */
module AcknowledgeRequest {
  import opened Wrappers
  import opened Base

  datatype Acknowledge = Acknowledge(secret: string, receipt: string)
  {
    function GetMethod(): (m: HttpMethod)
      ensures m == POST
    {
      POST
    }

    /** `build_url`: segments `receipts`, the receipt and `acknowledge.json`; the secret is the whole query. */
    method BuildUrl(target: Url)
      modifies target
      ensures target.path == old(target.path) + ["receipts", receipt, "acknowledge.json"]
      ensures target.query == old(target.query) + [("secret", secret)]
    {
      target.PushSegment("receipts");
      target.PushSegment(receipt);
      target.PushSegment("acknowledge.json");
      target.AppendPair("secret", secret);
    }
  }

  /** `map`: the reply carries nothing but the request identifier. */
  function Map(raw: RawBasicResponse): (r: string)
    ensures SuccessReply(r, raw.body) == raw.(status := 1, errors := None)
  {
    raw.request
  }

  /** Sending back the success reply for a request identifier gives that identifier. */
  lemma MapRoundTrip(request: string)
    ensures Dispatch(SuccessReply(request, ()), Map) == Ok(request)
  {
  }

  /** The URL the client sends an acknowledgement to: `receipts/<receipt>/acknowledge.json?secret=...`. */
  method FullUrl(secret: string, receipt: string) returns (path: seq<string>, query: seq<Pair>)
    ensures path == [ApiVersion, "receipts", receipt, "acknowledge.json"]
    ensures query == [("secret", secret)]
  {
    var target := new Url.Versioned();
    Acknowledge(secret, receipt).BuildUrl(target);
    path, query := target.path, target.query;
  }
}
