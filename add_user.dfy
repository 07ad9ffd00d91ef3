/** `AddUser`: add a user (with optional device and memo) to a delivery group. */
module AddUserRequest {
  import opened Wrappers
  import opened Base
  import opened Users

  /** `AddUser`: the application token, the group key and a copy of the user. */
  datatype AddUser = AddUser(token: string, groupKey: string, user: UserRecord)
  {
    /** Token and user key, then the user's device and memo when they are set. */
    function Query(): (q: seq<Pair>)
      ensures 2 <= |q| <= 4
      ensures |q| == 2 <==> user.device.None? && user.memo.None?
    {
      [("token", token), ("user", user.user)]
      + OptionalPair("device", user.device, Verbatim)
      + OptionalPair("memo", user.memo, Verbatim)
    }

    function GetMethod(): (m: HttpMethod)
      ensures m == POST
    {
      POST
    }

    /** `build_url`: segments `groups`, the group key and `add_user.json`, then the pairs. */
    method BuildUrl(target: Url)
      modifies target
      ensures target.path == old(target.path) + ["groups", groupKey, "add_user.json"]
      ensures target.query == old(target.query) + Query()
    {
      ghost var start := target.query;
      target.PushSegment("groups");
      target.PushSegment(groupKey);
      target.PushSegment("add_user.json");
      target.AppendPair("token", token);
      target.AppendPair("user", user.user);
      ghost var q := [("token", token), ("user", user.user)];
      assert target.query == start + q;
      AddOptionalParam(target, "device", user.device, Verbatim);
      AppendAssociative(start, q, OptionalPair("device", user.device, Verbatim));
      q := q + OptionalPair("device", user.device, Verbatim);
      AddOptionalParam(target, "memo", user.memo, Verbatim);
      AppendAssociative(start, q, OptionalPair("memo", user.memo, Verbatim));
    }
  }

  /**
   * `AddUser::new`: the request holds a copy of the user as it is now, so later changes
   * to the `User` do not reach the request.
   */
  method New(token: string, groupKey: string, user: User) returns (r: AddUser)
    ensures r.token == token && r.groupKey == groupKey && r.user == user.Value()
  {
    r := AddUser(token, groupKey, user.Value());
  }

  /** The query opens with token and user key, in this order. */
  lemma MandatoryPairsFirst(a: AddUser)
    ensures |a.Query()| >= 2 && a.Query()[..2] == [("token", a.token), ("user", a.user.user)]
  {
    var mandatory := [("token", a.token), ("user", a.user.user)];
    var q := KeepsPrefix(mandatory, mandatory, OptionalPair("device", a.user.device, Verbatim));
    q := KeepsPrefix(q, mandatory, OptionalPair("memo", a.user.memo, Verbatim));
  }

  /** The device is sent exactly when the user has one. */
  lemma DeviceSent(a: AddUser, v: string)
    ensures ("device", v) in a.Query() <==> a.user.device == Some(v)
  {
    assert ("device", v) !in [("token", a.token), ("user", a.user.user)];
  }

  /** The memo is sent exactly when the user has one. */
  lemma MemoSent(a: AddUser, v: string)
    ensures ("memo", v) in a.Query() <==> a.user.memo == Some(v)
  {
    assert ("memo", v) !in [("token", a.token), ("user", a.user.user)];
  }

  /** `map`: the reply carries nothing but the request identifier. */
  function Map(raw: RawBasicResponse): (r: string)
    ensures SuccessReply(r, raw.body) == raw.(status := 1, errors := None)
  {
    raw.request
  }

  /** Sending back the success reply for a request identifier gives that identifier. */
  lemma MapRoundTrip(request: string)
    ensures Dispatch(SuccessReply(request, ()), Map) == Ok(request)
  {
  }

  // ----- The URLs the source's own tests expect -----

  /** A user with device and memo: token, user, device, memo. */
  lemma AllFieldsQuery()
    ensures AddUser("add_token", "add_group_key",
      UserRecord("user_key", Some("device name"), Some("memo name"), false)).Query()
      == [("token", "add_token"), ("user", "user_key"), ("device", "device name"), ("memo", "memo name")]
  {
  }

  /** A new user: token and user only. */
  lemma MandatoryOnlyQuery()
    ensures AddUser("add_token", "add_group_key", UserRecord("user_key", None, None, false)).Query()
      == [("token", "add_token"), ("user", "user_key")]
  {
  }
}
