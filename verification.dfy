/** `Verification`: ask the service whether a user key (and optionally a device) is valid. */
module VerificationRequest {
  import opened Wrappers
  import opened Base

  /** The value of a `Verification` request. */
  datatype VerificationValue = VerificationValue(token: string, user: string, device: Option<string>)
  {
    /** Token and user, then the device when it is set. */
    function Query(): (q: seq<Pair>)
      ensures |q| == if device.Some? then 3 else 2
    {
      [("token", token), ("user", user)] + OptionalPair("device", device, Verbatim)
    }
  }

  /** `Verification`, whose setter overwrites its device in place. */
  class Verification {
    var token: string
    var user: string
    var device: Option<string>

    function Value(): VerificationValue
      reads this
    {
      VerificationValue(token, user, device)
    }

    /** `Verification::new`: no device. */
    constructor (token: string, user: string)
      ensures Value() == VerificationValue(token, user, None)
    {
      this.token := token;
      this.user := user;
      device := None;
    }

    /** `set_device`: only the device changes. */
    method SetDevice(device: string)
      modifies this
      ensures Value() == old(Value()).(device := Some(device))
    {
      this.device := Some(device);
    }

    function GetMethod(): (m: HttpMethod)
      ensures m == POST
    {
      POST
    }

    /** `build_url`: segments `users` and `validate.json`, then token, user and the optional device. */
    method BuildUrl(target: Url)
      modifies target
      ensures target.path == old(target.path) + ["users", "validate.json"]
      ensures target.query == old(target.query) + Value().Query()
    {
      var v := Value();
      target.PushSegment("users");
      target.PushSegment("validate.json");
      target.AppendPair("token", v.token);
      target.AppendPair("user", v.user);
      AddOptionalParam(target, "device", v.device, Verbatim);
    }
  }

  /** The query opens with token and user, in this order. */
  lemma MandatoryPairsFirst(v: VerificationValue)
    ensures |v.Query()| >= 2 && v.Query()[..2] == [("token", v.token), ("user", v.user)]
  {
  }

  /** The device is sent, as the last pair, exactly when it is set. */
  lemma DeviceSent(v: VerificationValue, d: string)
    ensures ("device", d) in v.Query() <==> v.device == Some(d)
    ensures v.device.Some? ==> |v.Query()| == 3 && v.Query()[2] == ("device", v.device.value)
    ensures v.device.None? ==> |v.Query()| == 2
  {
    assert ("device", d) !in [("token", v.token), ("user", v.user)];
  }

  /** The field of `RawVerificationResponse` beyond status, request and errors. */
  datatype VerificationBody = VerificationBody(devices: Option<seq<string>>)

  type RawVerificationResponse = Raw<VerificationBody>

  datatype VerificationResponse = VerificationResponse(devices: seq<string>, request: string)

  /** `map`: the user's devices, which it unwraps, and the request identifier. */
  function Map(raw: RawVerificationResponse): (r: VerificationResponse)
    requires raw.body.devices.Some?
    ensures Reply(r) == raw.(status := 1, errors := None)
  {
    VerificationResponse(raw.body.devices.value, raw.request)
  }

  /** The success reply that carries a given response. */
  function Reply(resp: VerificationResponse): RawVerificationResponse
  {
    SuccessReply(resp.request, VerificationBody(Some(resp.devices)))
  }

  /** Sending back the reply for a response gives that response. */
  lemma MapRoundTrip(resp: VerificationResponse)
    ensures Dispatch(Reply(resp), Map) == Ok(resp)
  {
  }

  // ----- The URLs the source's own tests expect -----

  /** With a device: token, user, device. */
  lemma AllFieldsQuery()
    ensures VerificationValue("ver_token", "ver user", Some("ver device")).Query()
      == [("token", "ver_token"), ("user", "ver user"), ("device", "ver device")]
  {
  }

  /** Without a device: token and user only. */
  lemma MandatoryOnlyQuery()
    ensures VerificationValue("ver_token", "ver user", None).Query()
      == [("token", "ver_token"), ("user", "ver user")]
  {
  }
}
