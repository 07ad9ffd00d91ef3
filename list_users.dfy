/** `ListUsers`: the name of a delivery group and its members. */
module ListUsersRequest {
  import opened Wrappers
  import opened Base
  import opened Users

  datatype ListUsers = ListUsers(token: string, groupKey: string)
  {
    function GetMethod(): (m: HttpMethod)
      ensures m == GET
    {
      GET
    }

    /** `build_url`: segments `groups` and `<group key>.json`; the token is the whole query. */
    method BuildUrl(target: Url)
      modifies target
      ensures target.path == old(target.path) + ["groups", JsonSegment(groupKey)]
      ensures target.query == old(target.query) + [("token", token)]
    {
      target.PushSegment("groups");
      target.PushSegment(JsonSegment(groupKey));
      target.AppendPair("token", token);
    }
  }

  /** The fields of `RawListUsersResponse` beyond status, request and errors; users as decoded. */
  datatype ListUsersBody = ListUsersBody(name: Option<string>, users: Option<seq<UserRecord>>)

  type RawListUsersResponse = Raw<ListUsersBody>

  datatype ListUsersResponse = ListUsersResponse(request: string, name: string, users: seq<UserRecord>)

  /** `map`: the request identifier, the group name and its users, both of which it unwraps. */
  function Map(raw: RawListUsersResponse): (r: ListUsersResponse)
    requires raw.body.name.Some? && raw.body.users.Some?
    ensures Reply(r) == raw.(status := 1, errors := None)
  {
    ListUsersResponse(raw.request, raw.body.name.value, raw.body.users.value)
  }

  /** The success reply that carries a given response. */
  function Reply(resp: ListUsersResponse): RawListUsersResponse
  {
    SuccessReply(resp.request, ListUsersBody(Some(resp.name), Some(resp.users)))
  }

  /** Sending back the reply for a response gives that response. */
  lemma MapRoundTrip(resp: ListUsersResponse)
    ensures Dispatch(Reply(resp), Map) == Ok(resp)
  {
  }

  /** The URL the client asks for a group's users at: `groups/<group key>.json?token=...`. */
  method FullUrl(token: string, groupKey: string) returns (path: seq<string>, query: seq<Pair>)
    ensures path == [ApiVersion, "groups", groupKey + ".json"]
    ensures query == [("token", token)]
  {
    var target := new Url.Versioned();
    ListUsers(token, groupKey).BuildUrl(target);
    path, query := target.path, target.query;
  }
}
