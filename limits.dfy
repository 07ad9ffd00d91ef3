/** `Limits`: how many messages an application may send per month, and how many remain. */
module LimitsRequest {
  import opened Wrappers
  import opened Decimal
  import opened Base

  /** `Limits`: just the application token. */
  datatype Limits = Limits(token: string)
  {
    function GetMethod(): (m: HttpMethod)
      ensures m == GET
    {
      GET
    }

    /** `build_url`: segments `apps` and `limits.json`; the token is the whole query. */
    method BuildUrl(target: Url)
      modifies target
      ensures target.path == old(target.path) + ["apps", "limits.json"]
      ensures target.query == old(target.query) + [("token", token)]
    {
      target.PushSegment("apps");
      target.PushSegment("limits.json");
      target.AppendPair("token", token);
    }
  }

  /** The fields of `RawLimitsResponse` beyond status, request and errors. */
  datatype LimitsBody = LimitsBody(limit: Option<u32>, remaining: Option<u32>, reset: Option<u32>)

  type RawLimitsResponse = Raw<LimitsBody>

  datatype LimitsResponse = LimitsResponse(request: string, limit: u32, remaining: u32, reset: u32)

  /** `map`: the request identifier and the three counters, each of which it unwraps. */
  function Map(raw: RawLimitsResponse): (r: LimitsResponse)
    requires raw.body.limit.Some? && raw.body.remaining.Some? && raw.body.reset.Some?
    ensures Reply(r) == raw.(status := 1, errors := None)
  {
    LimitsResponse(raw.request, raw.body.limit.value, raw.body.remaining.value, raw.body.reset.value)
  }

  /** The success reply that carries a given response. */
  function Reply(resp: LimitsResponse): RawLimitsResponse
  {
    SuccessReply(resp.request, LimitsBody(Some(resp.limit), Some(resp.remaining), Some(resp.reset)))
  }

  /** Sending back the reply for a response gives that response. */
  lemma MapRoundTrip(resp: LimitsResponse)
    ensures Dispatch(Reply(resp), Map) == Ok(resp)
  {
  }

  // ----- What the client's tests expect -----

  /**
   * The URL the client sends a limits request to: the versioned base, then what
   * `build_url` appends (`apps/limits.json?token=...`).
   */
  method FullUrl(token: string) returns (path: seq<string>, query: seq<Pair>)
    ensures path == [ApiVersion, "apps", "limits.json"]
    ensures query == [("token", token)]
  {
    var target := new Url.Versioned();
    Limits(token).BuildUrl(target);
    path, query := target.path, target.query;
  }

  /** Status 0 with two errors is returned as exactly that service error. */
  lemma ServiceErrorReply()
    ensures Dispatch(Raw(0, "request_number", Some(["Error 1", "Error 2"]), LimitsBody(None, None, None)), Map)
      == Err(PushoverError(0, ["Error 1", "Error 2"], "request_number"))
  {
  }

  /** Status 1 with all three counters is narrowed to a response with those counters. */
  lemma SuccessfulReply()
    ensures Dispatch(Raw(1, "request_number", None, LimitsBody(Some(1), Some(2), Some(3))), Map)
      == Ok(LimitsResponse("request_number", 1, 2, 3))
  {
  }
}
