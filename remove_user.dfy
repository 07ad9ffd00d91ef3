/** `RemoveUser`: take a user out of a delivery group. */
module RemoveUserRequest {
  import opened Wrappers
  import opened Base

  datatype RemoveUser = RemoveUser(token: string, groupKey: string, userKey: string)
  {
    function GetMethod(): (m: HttpMethod)
      ensures m == POST
    {
      POST
    }

    /** `build_url`: segments `groups`, the group key and `delete_user.json`; then token and user. */
    method BuildUrl(target: Url)
      modifies target
      ensures target.path == old(target.path) + ["groups", groupKey, "delete_user.json"]
      ensures target.query == old(target.query) + [("token", token), ("user", userKey)]
    {
      target.PushSegment("groups");
      target.PushSegment(groupKey);
      target.PushSegment("delete_user.json");
      target.AppendPair("token", token);
      target.AppendPair("user", userKey);
    }
  }

  /** `map`: the reply carries nothing but the request identifier. */
  function Map(raw: RawBasicResponse): (r: string)
    ensures SuccessReply(r, raw.body) == raw.(status := 1, errors := None)
  {
    raw.request
  }

  /** Sending back the success reply for a request identifier gives that identifier. */
  lemma MapRoundTrip(request: string)
    ensures Dispatch(SuccessReply(request, ()), Map) == Ok(request)
  {
  }

  /** The URL the client sends a removal to: `groups/<group>/delete_user.json?token=...&user=...`. */
  method FullUrl(token: string, groupKey: string, userKey: string) returns (path: seq<string>, query: seq<Pair>)
    ensures path == [ApiVersion, "groups", groupKey, "delete_user.json"]
    ensures query == [("token", token), ("user", userKey)]
  {
    var target := new Url.Versioned();
    RemoveUser(token, groupKey, userKey).BuildUrl(target);
    path, query := target.path, target.query;
  }
}
