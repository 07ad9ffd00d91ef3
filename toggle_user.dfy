/** `ToggleUser`: enable or disable a user's membership of a delivery group. */
module ToggleUserRequest {
  import opened Wrappers
  import opened Base

  datatype ToggleUser = ToggleUser(token: string, groupKey: string, userKey: string, toggle: bool)
  {
    function GetMethod(): (m: HttpMethod)
      ensures m == POST
    {
      POST
    }

    /**
     * `build_url`: segments `groups`, the group key and the endpoint the toggle picks;
     * then token and user, whatever the toggle.
     */
    method BuildUrl(target: Url)
      modifies target
      ensures target.path == old(target.path) + ["groups", groupKey, EndpointSegment(toggle)]
      ensures target.query == old(target.query) + [("token", token), ("user", userKey)]
    {
      target.PushSegment("groups");
      target.PushSegment(groupKey);
      target.PushSegment(EndpointSegment(toggle));
      target.AppendPair("token", token);
      target.AppendPair("user", userKey);
    }
  }

  /** The last segment: `enable_user.json` to enable, `disable_user.json` to disable. */
  function EndpointSegment(toggle: bool): (segment: string)
    ensures toggle <==> segment == "enable_user.json"
    ensures !toggle <==> segment == "disable_user.json"
  {
    var endPoint := if toggle then "enable" else "disable";
    endPoint + "_user.json"
  }

  /** Enabling and disabling reach different endpoints, the ones the service names. */
  lemma EndpointSegmentDistinguishes(toggle: bool, other: bool)
    ensures EndpointSegment(toggle) == EndpointSegment(other) <==> toggle == other
    ensures EndpointSegment(true) == "enable_user.json"
    ensures EndpointSegment(false) == "disable_user.json"
  {
    assert EndpointSegment(true)[0] != EndpointSegment(false)[0];
  }

  /** `map`: the reply carries nothing but the request identifier. */
  function Map(raw: RawBasicResponse): (r: string)
    ensures SuccessReply(r, raw.body) == raw.(status := 1, errors := None)
  {
    raw.request
  }

  /** Sending back the success reply for a request identifier gives that identifier. */
  lemma MapRoundTrip(request: string)
    ensures Dispatch(SuccessReply(request, ()), Map) == Ok(request)
  {
  }

  /** The URL the client sends a toggle to: `groups/<group>/enable_user.json` or `.../disable_user.json`. */
  method FullUrl(token: string, groupKey: string, userKey: string, toggle: bool)
    returns (path: seq<string>, query: seq<Pair>)
    ensures toggle ==> path == [ApiVersion, "groups", groupKey, "enable_user.json"]
    ensures !toggle ==> path == [ApiVersion, "groups", groupKey, "disable_user.json"]
    ensures query == [("token", token), ("user", userKey)]
  {
    var target := new Url.Versioned();
    ToggleUser(token, groupKey, userKey, toggle).BuildUrl(target);
    EndpointSegmentDistinguishes(toggle, toggle);
    path, query := target.path, target.query;
  }
}
