/** `CheckCredits`: how many license credits an application has left. */
module CheckCreditsRequest {
  import opened Wrappers
  import opened Decimal
  import opened Base

  datatype CheckCredits = CheckCredits(token: string)
  {
    function GetMethod(): (m: HttpMethod)
      ensures m == GET
    {
      GET
    }

    /** `build_url`: the one segment `licenses.json`; the token is the whole query. */
    method BuildUrl(target: Url)
      modifies target
      ensures target.path == old(target.path) + ["licenses.json"]
      ensures target.query == old(target.query) + [("token", token)]
    {
      target.PushSegment("licenses.json");
      target.AppendPair("token", token);
    }
  }

  /** The field of `RawCheckCreditsResponse` beyond status, request and errors. */
  datatype CreditsBody = CreditsBody(credits: Option<u16>)

  type RawCheckCreditsResponse = Raw<CreditsBody>

  /** The reply of both `CheckCredits` and `Assign`. */
  datatype CheckCreditsResponse = CheckCreditsResponse(request: string, credits: u16)

  /** `map`: the request identifier and the credits, which it unwraps. */
  function Map(raw: RawCheckCreditsResponse): (r: CheckCreditsResponse)
    requires raw.body.credits.Some?
    ensures Reply(r) == raw.(status := 1, errors := None)
  {
    CheckCreditsResponse(raw.request, raw.body.credits.value)
  }

  /** The success reply that carries a given response. */
  function Reply(resp: CheckCreditsResponse): RawCheckCreditsResponse
  {
    SuccessReply(resp.request, CreditsBody(Some(resp.credits)))
  }

  /** Sending back the reply for a response gives that response. */
  lemma MapRoundTrip(resp: CheckCreditsResponse)
    ensures Dispatch(Reply(resp), Map) == Ok(resp)
  {
  }

  /** The URL the client sends a credits request to: `licenses.json?token=...`. */
  method FullUrl(token: string) returns (path: seq<string>, query: seq<Pair>)
    ensures path == [ApiVersion, "licenses.json"]
    ensures query == [("token", token)]
  {
    var target := new Url.Versioned();
    CheckCredits(token).BuildUrl(target);
    path, query := target.path, target.query;
  }
}
