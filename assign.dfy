/** `Assign`: give a license to a user, named by user key or by e-mail address. */
module AssignRequest {
  import opened Wrappers
  import opened Base
  import opened Types
  import opened OperatingSystems
  import CheckCreditsRequest

  /** The value of an `Assign` request. */
  datatype AssignValue = AssignValue(token: string, os: Option<OperatingSystem>, userType: UserType)
  {
    /** The token, then whom the license is for, then the platform when it is set. */
    function Query(): (q: seq<Pair>)
      ensures |q| == if os.Some? then 3 else 2
    {
      [("token", token), UserPair(userType)] + OptionalPair("os", os, OsName)
    }
  }

  /** The pair naming the user: `email` for an address, `user` for a user key. */
  function UserPair(userType: UserType): Pair
  {
    match userType
    case Email(address) => ("email", address)
    case UserKey(key) => ("user", key)
  }

  function OsName(os: OperatingSystem): string { os.Display() }

  /** `Assign`, whose setter overwrites its platform in place. */
  class Assign {
    var token: string
    var os: Option<OperatingSystem>
    var userType: UserType

    function Value(): AssignValue
      reads this
    {
      AssignValue(token, os, userType)
    }

    /** `Assign::new`: no platform. */
    constructor (token: string, userType: UserType)
      ensures Value() == AssignValue(token, None, userType)
    {
      this.token := token;
      os := None;
      this.userType := userType;
    }

    /** `set_os`: only the platform changes. */
    method SetOs(os: OperatingSystem)
      modifies this
      ensures Value() == old(Value()).(os := Some(os))
    {
      this.os := Some(os);
    }

    function GetMethod(): (m: HttpMethod)
      ensures m == POST
    {
      POST
    }

    /** `build_url`: segments `licenses` and `assign.json`, then token, the user, and the platform. */
    method BuildUrl(target: Url)
      modifies target
      ensures target.path == old(target.path) + ["licenses", "assign.json"]
      ensures target.query == old(target.query) + Value().Query()
    {
      var v := Value();
      target.PushSegment("licenses");
      target.PushSegment("assign.json");
      target.AppendPair("token", v.token);
      match v.userType {
        case Email(address) =>
          target.AppendPair("email", address);
        case UserKey(key) =>
          target.AppendPair("user", key);
      }
      AddOptionalParam(target, "os", v.os, OsName);
    }
  }

  /**
   * The user is named by `email` exactly for an address and by `user` exactly for a user
   * key, so never by both; the token comes first and the name second.
   */
  lemma UserSent(a: AssignValue, v: string)
    ensures ("email", v) in a.Query() <==> a.userType == Email(v)
    ensures ("user", v) in a.Query() <==> a.userType == UserKey(v)
    ensures a.Query()[0] == ("token", a.token)
    ensures a.Query()[1].0 == (if a.userType.Email? then "email" else "user")
  {
  }

  /** The platform is sent, by name and as the last pair, exactly when it is set. */
  lemma OsSent(a: AssignValue, v: string)
    ensures ("os", v) in a.Query() <==> a.os.Some? && v == a.os.value.Display()
    ensures a.os.Some? ==> |a.Query()| == 3 && a.Query()[2] == ("os", a.os.value.Display())
    ensures a.os.None? ==> |a.Query()| == 2
  {
  }

  /** `map`: the request identifier and the remaining credits, which it unwraps. */
  function Map(raw: CheckCreditsRequest.RawCheckCreditsResponse): (r: CheckCreditsRequest.CheckCreditsResponse)
    requires raw.body.credits.Some?
    ensures CheckCreditsRequest.Reply(r) == raw.(status := 1, errors := None)
  {
    CheckCreditsRequest.CheckCreditsResponse(raw.request, raw.body.credits.value)
  }

  /** Sending back the reply for a response gives that response. */
  lemma MapRoundTrip(resp: CheckCreditsRequest.CheckCreditsResponse)
    ensures Dispatch(CheckCreditsRequest.Reply(resp), Map) == Ok(resp)
  {
  }

  // ----- The URLs the source's own tests expect -----

  /** An address and a platform: token, email, os. */
  lemma AllFieldsQuery()
    ensures AssignValue("assign_token", Some(IOS), Email("email@email.com")).Query()
      == [("token", "assign_token"), ("email", "email@email.com"), ("os", "iOS")]
  {
  }

  /** A user key and no platform: token and user only. */
  lemma MandatoryOnlyQuery()
    ensures AssignValue("assign_token", None, UserKey("user_key")).Query()
      == [("token", "assign_token"), ("user", "user_key")]
  {
  }
}
