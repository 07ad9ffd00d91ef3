/** `RegisterDevice`: register an open-client desktop device under a name. */
module RegisterDeviceRequest {
  import opened Wrappers
  import opened Base

  /** The platform code `get_form_parameters` always sends: open client. */
  const OpenClientOs: string := "O"

  datatype RegisterDevice = RegisterDevice(secret: string, name: string)
  {
    function GetMethod(): (m: HttpMethod)
      ensures m == POST
    {
      POST
    }

    /** `build_url`: the one segment `devices.json`; the query stays as it was. */
    method BuildUrl(target: Url)
      modifies target
      ensures target.path == old(target.path) + ["devices.json"]
      ensures target.query == old(target.query)
    {
      target.PushSegment("devices.json");
    }

    /** `get_form_parameters`: secret, name, and the fixed platform `O`, in this order. */
    function FormParameters(): (form: Option<seq<Pair>>)
      ensures form.Some? && form.value == [("secret", secret), ("name", name), ("os", "O")]
      ensures form != DefaultFormParameters()
    {
      Some([("secret", secret), ("name", name), ("os", OpenClientOs)])
    }
  }

  /** The field of `RawRegisterDeviceResponse` beyond status, request and errors. */
  datatype RegisterDeviceBody = RegisterDeviceBody(id: Option<string>)

  type RawRegisterDeviceResponse = Raw<RegisterDeviceBody>

  datatype RegisterDeviceResponse = RegisterDeviceResponse(request: string, id: string)

  /** `map`: the request identifier and the device id, which it unwraps. */
  function Map(raw: RawRegisterDeviceResponse): (r: RegisterDeviceResponse)
    requires raw.body.id.Some?
    ensures Reply(r) == raw.(status := 1, errors := None)
  {
    RegisterDeviceResponse(raw.request, raw.body.id.value)
  }

  /** The success reply that carries a given response. */
  function Reply(resp: RegisterDeviceResponse): RawRegisterDeviceResponse
  {
    SuccessReply(resp.request, RegisterDeviceBody(Some(resp.id)))
  }

  /** Sending back the reply for a response gives that response. */
  lemma MapRoundTrip(resp: RegisterDeviceResponse)
    ensures Dispatch(Reply(resp), Map) == Ok(resp)
  {
  }

  /** The URL the client sends a registration to: `devices.json`, with no query at all. */
  method FullUrl(secret: string, name: string) returns (path: seq<string>, query: seq<Pair>)
    ensures path == [ApiVersion, "devices.json"]
    ensures query == []
  {
    var target := new Url.Versioned();
    RegisterDevice(secret, name).BuildUrl(target);
    path, query := target.path, target.query;
  }
}
