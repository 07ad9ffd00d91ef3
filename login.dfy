/** `Login`: an open-client user logs in with e-mail and password and receives a secret. */
module LoginRequest {
  import opened Wrappers
  import opened Base

  datatype Login = Login(email: string, password: string)
  {
    function GetMethod(): (m: HttpMethod)
      ensures m == POST
    {
      POST
    }

    /** `build_url`: segments `users` and `login.json`; the query stays as it was. */
    method BuildUrl(target: Url)
      modifies target
      ensures target.path == old(target.path) + ["users", "login.json"]
      ensures target.query == old(target.query)
    {
      target.PushSegment("users");
      target.PushSegment("login.json");
    }

    /** `get_form_parameters`: the credentials travel in the form body, e-mail first. */
    function FormParameters(): (form: Option<seq<Pair>>)
      ensures form.Some? && form.value == [("email", email), ("password", password)]
      ensures form != DefaultFormParameters()
    {
      Some([("email", email), ("password", password)])
    }
  }

  /** The fields of `RawLoginResponse` beyond status, request and errors. */
  datatype LoginBody = LoginBody(id: Option<string>, secret: Option<string>)

  type RawLoginResponse = Raw<LoginBody>

  datatype LoginResponse = LoginResponse(id: string, secret: string, request: string)

  /** `map`: the user id and the secret, both of which it unwraps, and the request identifier. */
  function Map(raw: RawLoginResponse): (r: LoginResponse)
    requires raw.body.id.Some? && raw.body.secret.Some?
    ensures Reply(r) == raw.(status := 1, errors := None)
  {
    LoginResponse(raw.body.id.value, raw.body.secret.value, raw.request)
  }

  /** The success reply that carries a given response. */
  function Reply(resp: LoginResponse): RawLoginResponse
  {
    SuccessReply(resp.request, LoginBody(Some(resp.id), Some(resp.secret)))
  }

  /** Sending back the reply for a response gives that response. */
  lemma MapRoundTrip(resp: LoginResponse)
    ensures Dispatch(Reply(resp), Map) == Ok(resp)
  {
  }

  /** The URL the client sends a login to: `users/login.json`, with no query at all. */
  method FullUrl(email: string, password: string) returns (path: seq<string>, query: seq<Pair>)
    ensures path == [ApiVersion, "users", "login.json"]
    ensures query == []
  {
    var target := new Url.Versioned();
    Login(email, password).BuildUrl(target);
    path, query := target.path, target.query;
  }
}
