/** `DeleteMessages`: tell the service which message a device has seen last, deleting those up to it. */
module DeleteMessagesRequest {
  import opened Wrappers
  import opened Decimal
  import opened Base

  /** `DeleteMessages`: `new(secret, device_id, message)` stores each argument in its own field. */
  datatype DeleteMessages = DeleteMessages(secret: string, deviceId: string, message: u32)
  {
    function GetMethod(): (m: HttpMethod)
      ensures m == POST
    {
      POST
    }

    /**
     * `build_url`: segments `devices`, the device id and `update_highest_message.json`;
     * then the secret and the message id in decimal.
     */
    method BuildUrl(target: Url)
      modifies target
      ensures target.path == old(target.path) + ["devices", deviceId, "update_highest_message.json"]
      ensures target.query == old(target.query) + [("secret", secret), ("message", IntToString(message))]
    {
      target.PushSegment("devices");
      target.PushSegment(deviceId);
      target.PushSegment("update_highest_message.json");
      target.AppendPair("secret", secret);
      target.AppendPair("message", IntToString(message));
    }
  }

  /** The message id sent reads back as the id, and different ids are sent differently. */
  lemma MessageRecoverable(d: DeleteMessages, e: DeleteMessages)
    ensures ParseInt(IntToString(d.message)) == Some(d.message as int)
    ensures IntToString(d.message) == IntToString(e.message) ==> d.message == e.message
  {
    IntToStringRoundTrip(d.message);
    IntToStringInjective(d.message, e.message);
  }

  /** `map`: the reply carries nothing but the request identifier. */
  function Map(raw: RawBasicResponse): (r: string)
    ensures SuccessReply(r, raw.body) == raw.(status := 1, errors := None)
  {
    raw.request
  }

  /** Sending back the success reply for a request identifier gives that identifier. */
  lemma MapRoundTrip(request: string)
    ensures Dispatch(SuccessReply(request, ()), Map) == Ok(request)
  {
  }

  /** The URL of the source's own test: message 10 travels as `message=10`. */
  method FullUrl(secret: string, deviceId: string) returns (path: seq<string>, query: seq<Pair>)
    ensures path == [ApiVersion, "devices", deviceId, "update_highest_message.json"]
    ensures query == [("secret", secret), ("message", "10")]
  {
    var target := new Url.Versioned();
    DeleteMessages(secret, deviceId, 10).BuildUrl(target);
    SmallNumbers();
    path, query := target.path, target.query;
  }
}
