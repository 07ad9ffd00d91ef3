/** `Rename`: give a delivery group a new name. */
module RenameRequest {
  import opened Wrappers
  import opened Base

  datatype Rename = Rename(token: string, groupKey: string, name: string)
  {
    function GetMethod(): (m: HttpMethod)
      ensures m == POST
    {
      POST
    }

    /** `build_url`: segments `groups`, the group key and `rename.json`; then token and name. */
    method BuildUrl(target: Url)
      modifies target
      ensures target.path == old(target.path) + ["groups", groupKey, "rename.json"]
      ensures target.query == old(target.query) + [("token", token), ("name", name)]
    {
      target.PushSegment("groups");
      target.PushSegment(groupKey);
      target.PushSegment("rename.json");
      target.AppendPair("token", token);
      target.AppendPair("name", name);
    }
  }

  /** `map`: the reply carries nothing but the request identifier. */
  function Map(raw: RawBasicResponse): (r: string)
    ensures SuccessReply(r, raw.body) == raw.(status := 1, errors := None)
  {
    raw.request
  }

  /** Sending back the success reply for a request identifier gives that identifier. */
  lemma MapRoundTrip(request: string)
    ensures Dispatch(SuccessReply(request, ()), Map) == Ok(request)
  {
  }

  /** The URL the client sends a rename to: `groups/<group>/rename.json?token=...&name=...`. */
  method FullUrl(token: string, groupKey: string, name: string) returns (path: seq<string>, query: seq<Pair>)
    ensures path == [ApiVersion, "groups", groupKey, "rename.json"]
    ensures query == [("token", token), ("name", name)]
  {
    var target := new Url.Versioned();
    Rename(token, groupKey, name).BuildUrl(target);
    path, query := target.path, target.query;
  }
}
