/**
 * Glances: a small status update (title, text, subtext, a count, a percentage) for a
 * user's watch or widget.
 */
module GlanceRequest {
  import opened Wrappers
  import opened Decimal
  import opened Base

  /** The value of a `Glance` request. */
  datatype GlanceValue = GlanceValue(
    token: string, userKey: string, device: Option<string>, title: Option<string>,
    text: Option<string>, subtext: Option<string>, count: Option<i32>, percent: Option<u8>)
  {
    function Path(): seq<string>
    {
      ["glances.json"]
    }

    /** Token and user, then each optional field that is set, in declaration order. */
    function Query(): (q: seq<Pair>)
      ensures 2 <= |q| <= |KeyOrder|
      ensures |q| == 2 <==> (device.None? && title.None? && text.None? && subtext.None?
                              && count.None? && percent.None?)
    {
      [("token", token), ("user", userKey)]
      + OptionalPair("device", device, Verbatim)
      + OptionalPair("title", title, Verbatim)
      + OptionalPair("text", text, Verbatim)
      + OptionalPair("subtext", subtext, Verbatim)
      + OptionalPair("count", count, CountText)
      + OptionalPair("percent", percent, PercentText)
    }
  }

  function CountText(count: i32): string { IntToString(count) }

  function PercentText(percent: u8): string { IntToString(percent) }

  /** `Glance`, whose setters overwrite its fields in place. */
  class Glance {
    var token: string
    var userKey: string
    var device: Option<string>
    var title: Option<string>
    var text: Option<string>
    var subtext: Option<string>
    var count: Option<i32>
    var percent: Option<u8>

    function Value(): GlanceValue
      reads this
    {
      GlanceValue(token, userKey, device, title, text, subtext, count, percent)
    }

    /** `Glance::new`: token and user key; every optional field absent. */
    constructor (token: string, userKey: string)
      ensures Value() == GlanceValue(token, userKey, None, None, None, None, None, None)
    {
      this.token := token;
      this.userKey := userKey;
      device := None;
      title := None;
      text := None;
      subtext := None;
      count := None;
      percent := None;
    }

    method SetDevice(device: string)
      modifies this
      ensures Value() == old(Value()).(device := Some(device))
    {
      this.device := Some(device);
    }

    method SetTitle(title: string)
      modifies this
      ensures Value() == old(Value()).(title := Some(title))
    {
      this.title := Some(title);
    }

    method SetText(text: string)
      modifies this
      ensures Value() == old(Value()).(text := Some(text))
    {
      this.text := Some(text);
    }

    method SetSubtext(subtext: string)
      modifies this
      ensures Value() == old(Value()).(subtext := Some(subtext))
    {
      this.subtext := Some(subtext);
    }

    method SetCount(count: i32)
      modifies this
      ensures Value() == old(Value()).(count := Some(count))
    {
      this.count := Some(count);
    }

    method SetPercent(percent: u8)
      modifies this
      ensures Value() == old(Value()).(percent := Some(percent))
    {
      this.percent := Some(percent);
    }

    function GetMethod(): (m: HttpMethod)
      ensures m == POST
    {
      POST
    }

    /** `build_url`: the `glances.json` segment, then the pairs one by one. */
    method BuildUrl(target: Url)
      modifies target
      ensures target.path == old(target.path) + Value().Path()
      ensures target.query == old(target.query) + Value().Query()
    {
      var v := Value();
      ghost var start := target.query;
      target.PushSegment("glances.json");
      target.AppendPair("token", v.token);
      target.AppendPair("user", v.userKey);
      ghost var q := [("token", v.token), ("user", v.userKey)];
      assert target.query == start + q;
      AddOptionalParam(target, "device", v.device, Verbatim);
      AppendAssociative(start, q, OptionalPair("device", v.device, Verbatim));
      q := q + OptionalPair("device", v.device, Verbatim);
      AddOptionalParam(target, "title", v.title, Verbatim);
      AppendAssociative(start, q, OptionalPair("title", v.title, Verbatim));
      q := q + OptionalPair("title", v.title, Verbatim);
      AddOptionalParam(target, "text", v.text, Verbatim);
      AppendAssociative(start, q, OptionalPair("text", v.text, Verbatim));
      q := q + OptionalPair("text", v.text, Verbatim);
      AddOptionalParam(target, "subtext", v.subtext, Verbatim);
      AppendAssociative(start, q, OptionalPair("subtext", v.subtext, Verbatim));
      q := q + OptionalPair("subtext", v.subtext, Verbatim);
      AddOptionalParam(target, "count", v.count, CountText);
      AppendAssociative(start, q, OptionalPair("count", v.count, CountText));
      q := q + OptionalPair("count", v.count, CountText);
      AddOptionalParam(target, "percent", v.percent, PercentText);
      AppendAssociative(start, q, OptionalPair("percent", v.percent, PercentText));
    }
  }

  /** `map`: a glance reply carries nothing but the request identifier. */
  function Map(raw: RawBasicResponse): (r: string)
    ensures SuccessReply(r, raw.body) == raw.(status := 1, errors := None)
  {
    raw.request
  }

  /** Every key the query can hold, in the order `build_url` appends them. */
  const KeyOrder: seq<string> := ["token", "user", "device", "title", "text", "subtext", "count", "percent"]

  lemma KeyOrderDistinct()
    ensures Distinct(KeyOrder)
  {
  }

  /** The query opens with token and user, in this order. */
  lemma MandatoryPairsFirst(g: GlanceValue)
    ensures |g.Query()| >= 2 && g.Query()[..2] == [("token", g.token), ("user", g.userKey)]
  {
    var mandatory := [("token", g.token), ("user", g.userKey)];
    var q := mandatory;
    q := KeepsPrefix(q, mandatory, OptionalPair("device", g.device, Verbatim));
    q := KeepsPrefix(q, mandatory, OptionalPair("title", g.title, Verbatim));
    q := KeepsPrefix(q, mandatory, OptionalPair("text", g.text, Verbatim));
    q := KeepsPrefix(q, mandatory, OptionalPair("subtext", g.subtext, Verbatim));
    q := KeepsPrefix(q, mandatory, OptionalPair("count", g.count, CountText));
    q := KeepsPrefix(q, mandatory, OptionalPair("percent", g.percent, PercentText));
  }

  /** The pairs up to the subtext keep the order of their keys. */
  lemma TextKeysInOrder(g: GlanceValue) returns (q: seq<Pair>)
    ensures q == [("token", g.token), ("user", g.userKey)]
      + OptionalPair("device", g.device, Verbatim)
      + OptionalPair("title", g.title, Verbatim)
      + OptionalPair("text", g.text, Verbatim)
      + OptionalPair("subtext", g.subtext, Verbatim)
    ensures IsSubsequence(Keys(q), KeyOrder[..6])
  {
    q := [("token", g.token), ("user", g.userKey)];
    var order := ["token", "user"];
    assert Keys(q) == order;
    SubsequenceReflexive(order);
    q, order := AppendOptional(q, order, "device", g.device, Verbatim);
    q, order := AppendOptional(q, order, "title", g.title, Verbatim);
    q, order := AppendOptional(q, order, "text", g.text, Verbatim);
    q, order := AppendOptional(q, order, "subtext", g.subtext, Verbatim);
    assert order == KeyOrder[..6];
  }

  /** The query's keys come in the order `build_url` appends them. */
  lemma QueryKeysInOrder(g: GlanceValue)
    ensures IsSubsequence(Keys(g.Query()), KeyOrder)
  {
    var q := TextKeysInOrder(g);
    var order := KeyOrder[..6];
    q, order := AppendOptional(q, order, "count", g.count, CountText);
    q, order := AppendOptional(q, order, "percent", g.percent, PercentText);
    assert q == g.Query();
    assert order == KeyOrder;
  }

  /** No key occurs twice in the query: each field is sent at most once. */
  lemma QueryKeysDistinct(g: GlanceValue)
    ensures Distinct(Keys(g.Query()))
  {
    QueryKeysInOrder(g);
    KeyOrderDistinct();
    SubsequenceDistinct(Keys(g.Query()), KeyOrder);
  }

  /** A pair with one of the optional keys is not among the mandatory pairs. */
  lemma OptionalKeyNotMandatory(g: GlanceValue, key: string, v: string)
    requires key in ["device", "title", "text", "subtext", "count", "percent"]
    ensures (key, v) !in [("token", g.token), ("user", g.userKey)]
  {
  }

  /** The device is sent exactly when it is set. */
  lemma DeviceSent(g: GlanceValue, v: string)
    ensures ("device", v) in g.Query() <==> g.device == Some(v)
  {
    OptionalKeyNotMandatory(g, "device", v);
  }

  /** The title is sent exactly when it is set. */
  lemma TitleSent(g: GlanceValue, v: string)
    ensures ("title", v) in g.Query() <==> g.title == Some(v)
  {
    OptionalKeyNotMandatory(g, "title", v);
  }

  /** The text is sent exactly when it is set. */
  lemma TextSent(g: GlanceValue, v: string)
    ensures ("text", v) in g.Query() <==> g.text == Some(v)
  {
    OptionalKeyNotMandatory(g, "text", v);
  }

  /** The subtext is sent exactly when it is set. */
  lemma SubtextSent(g: GlanceValue, v: string)
    ensures ("subtext", v) in g.Query() <==> g.subtext == Some(v)
  {
    OptionalKeyNotMandatory(g, "subtext", v);
  }

  /** The count is sent, as a decimal number that reads back as the count, exactly when it is set. */
  lemma CountSent(g: GlanceValue, v: string)
    ensures ("count", v) in g.Query() <==> g.count.Some? && v == IntToString(g.count.value)
    ensures ("count", v) in g.Query() ==> ParseInt(v) == Some(g.count.value as int)
  {
    OptionalKeyNotMandatory(g, "count", v);
    if g.count.Some? {
      IntToStringRoundTrip(g.count.value);
    }
  }

  /** The percentage is sent, as a decimal number that reads back as it, exactly when it is set. */
  lemma PercentSent(g: GlanceValue, v: string)
    ensures ("percent", v) in g.Query() <==> g.percent.Some? && v == IntToString(g.percent.value)
    ensures ("percent", v) in g.Query() ==> ParseInt(v) == Some(g.percent.value as int)
  {
    OptionalKeyNotMandatory(g, "percent", v);
    if g.percent.Some? {
      IntToStringRoundTrip(g.percent.value);
    }
  }

  /** Sending back the success reply for a request identifier gives that identifier. */
  lemma MapRoundTrip(request: string)
    ensures Dispatch(SuccessReply(request, ()), Map) == Ok(request)
  {
  }

  // ----- The URLs the source's own tests expect -----

  /** Every field set: the pairs follow the declaration order, numbers in decimal. */
  lemma AllFieldsQuery()
    ensures GlanceValue("glance_token", "glance_user_key", Some("glance device"), Some("glance title"),
      Some("glance text"), Some("glance subtext"), Some(10), Some(80)).Query()
      == [("token", "glance_token"), ("user", "glance_user_key"), ("device", "glance device"),
          ("title", "glance title"), ("text", "glance text"), ("subtext", "glance subtext"),
          ("count", "10"), ("percent", "80")]
  {
    SmallNumbers();
  }

  /** A new glance with nothing set sends just token and user. */
  lemma MandatoryOnlyQuery()
    ensures GlanceValue("glance_token", "glance_user_key", None, None, None, None, None, None).Query()
      == [("token", "glance_token"), ("user", "glance_user_key")]
  {
  }
}
