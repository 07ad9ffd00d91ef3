/** `DownloadMessages`: fetch the messages waiting for an open-client device. */
module DownloadMessagesRequest {
  import opened Wrappers
  import opened Base
  import opened Types

  datatype DownloadMessages = DownloadMessages(secret: string, deviceId: string)
  {
    function GetMethod(): (m: HttpMethod)
      ensures m == GET
    {
      GET
    }

    /** `build_url`: the one segment `messages.json`; then secret and device id. */
    method BuildUrl(target: Url)
      modifies target
      ensures target.path == old(target.path) + ["messages.json"]
      ensures target.query == old(target.query) + [("secret", secret), ("device_id", deviceId)]
    {
      target.PushSegment("messages.json");
      target.AppendPair("secret", secret);
      target.AppendPair("device_id", deviceId);
    }
  }

  /** The field of `RawDownloadMessagesResponse` beyond status, request and errors. */
  datatype DownloadMessagesBody = DownloadMessagesBody(messages: Option<seq<Message>>)

  type RawDownloadMessagesResponse = Raw<DownloadMessagesBody>

  datatype DownloadMessagesResponse = DownloadMessagesResponse(request: string, messages: seq<Message>)

  /** `map`: the request identifier and the messages, which it unwraps. */
  function Map(raw: RawDownloadMessagesResponse): (r: DownloadMessagesResponse)
    requires raw.body.messages.Some?
    ensures Reply(r) == raw.(status := 1, errors := None)
  {
    DownloadMessagesResponse(raw.request, raw.body.messages.value)
  }

  /** The success reply that carries a given response. */
  function Reply(resp: DownloadMessagesResponse): RawDownloadMessagesResponse
  {
    SuccessReply(resp.request, DownloadMessagesBody(Some(resp.messages)))
  }

  /** Sending back the reply for a response gives that response. */
  lemma MapRoundTrip(resp: DownloadMessagesResponse)
    ensures Dispatch(Reply(resp), Map) == Ok(resp)
  {
  }

  /** The URL the client downloads from: `messages.json?secret=...&device_id=...`. */
  method FullUrl(secret: string, deviceId: string) returns (path: seq<string>, query: seq<Pair>)
    ensures path == [ApiVersion, "messages.json"]
    ensures query == [("secret", secret), ("device_id", deviceId)]
  {
    var target := new Url.Versioned();
    DownloadMessages(secret, deviceId).BuildUrl(target);
    path, query := target.path, target.query;
  }
}
