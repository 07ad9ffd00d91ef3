/**
 * Sending a message: the request with its builder, the target it writes, and the
 * narrowing of the reply.
 */
module SendMessageRequest {
  import opened Wrappers
  import opened Decimal
  import opened Text
  import opened Base
  import opened Priorities
  import Sounds

  /** The value of a `SendMessage` request. */
  datatype SendMessageValue = SendMessageValue(
    token: string, userKey: string, message: string, devices: seq<string>,
    title: Option<string>, url: Option<string>, urlTitle: Option<string>,
    priority: Option<Priority>, timestamp: Option<string>, sound: Option<Sounds.Sound>)
  {
    /** The path segments `build_url` pushes. */
    function Path(): seq<string>
    {
      ["messages.json"]
    }

    /**
     * The query pairs `build_url` appends, in order: the three mandatory fields, the
     * optional ones that are set, the comma-joined devices, then the priority and,
     * for an emergency, its extras.
     */
    function Query(): (q: seq<Pair>)
      ensures 3 <= |q| <= |KeyOrder|
      ensures |q| == 3 <==> (title.None? && url.None? && urlTitle.None? && timestamp.None?
                              && sound.None? && devices == [] && priority.None?)
    {
      HeadPairs(this) + DevicePairs(devices) + PriorityPairs(priority)
    }
  }

  function SoundName(s: Sounds.Sound): string { s.Display() }

  /** The mandatory pairs and the optional ones that are set: the query before the devices. */
  function HeadPairs(m: SendMessageValue): seq<Pair>
  {
    [("token", m.token), ("user", m.userKey), ("message", m.message)]
    + OptionalPair("title", m.title, Verbatim)
    + OptionalPair("url", m.url, Verbatim)
    + OptionalPair("url_title", m.urlTitle, Verbatim)
    + OptionalPair("timestamp", m.timestamp, Verbatim)
    + OptionalPair("sound", m.sound, SoundName)
  }

  /** The single `device` pair: all devices joined with commas, or nothing when there are none. */
  function DevicePairs(devices: seq<string>): seq<Pair>
  {
    if devices == [] then [] else [("device", Join(devices, ','))]
  }

  /** The priority pair and, only for an emergency, retry, expire and an optional callback. */
  function PriorityPairs(priority: Option<Priority>): seq<Pair>
  {
    match priority
    case None => []
    case Some(p) =>
      [("priority", p.Display())]
      + if p.Emergency? then
          [("retry", IntToString(p.retry)), ("expire", IntToString(p.expire))]
          + OptionalPair("callback", p.callbackUrl, Verbatim)
        else []
  }

  /**
   * The priority part of `build_url`: the priority's number and, for an emergency,
   * retry, expire and the callback when there is one.
   */
  method AppendPriority(target: Url, priority: Option<Priority>)
    modifies target
    ensures target.query == old(target.query) + PriorityPairs(priority)
    ensures target.path == old(target.path)
  {
    if priority.Some? {
      var p := priority.value;
      var level := p.Display();
      target.AppendPair("priority", level);
      if p.Emergency? {
        var retry := IntToString(p.retry);
        var expire := IntToString(p.expire);
        target.AppendPair("retry", retry);
        target.AppendPair("expire", expire);
        ghost var extras := [("priority", level), ("retry", retry), ("expire", expire)];
        assert target.query == old(target.query) + extras;
        AddOptionalParam(target, "callback", p.callbackUrl, Verbatim);
        AppendAssociative(old(target.query), extras, OptionalPair("callback", p.callbackUrl, Verbatim));
      }
    }
  }

  /** `SendMessage`, whose builder methods change it in place. */
  class SendMessage {
    var token: string
    var userKey: string
    var message: string
    var devices: seq<string>
    var title: Option<string>
    var url: Option<string>
    var urlTitle: Option<string>
    var priority: Option<Priority>
    var timestamp: Option<string>
    var sound: Option<Sounds.Sound>

    function Value(): SendMessageValue
      reads this
    {
      SendMessageValue(token, userKey, message, devices, title, url, urlTitle, priority, timestamp, sound)
    }

    /** `SendMessage::new`: the three mandatory fields, no devices, every option absent. */
    constructor (token: string, userKey: string, message: string)
      ensures Value() == SendMessageValue(token, userKey, message, [], None, None, None, None, None, None)
    {
      this.token := token;
      this.userKey := userKey;
      this.message := message;
      devices := [];
      title := None;
      url := None;
      urlTitle := None;
      priority := None;
      timestamp := None;
      sound := None;
    }

    /** `add_device`: one more device at the end. */
    method AddDevice(device: string)
      modifies this
      ensures Value() == old(Value()).(devices := old(devices) + [device])
    {
      devices := devices + [device];
    }

    method SetTitle(title: string)
      modifies this
      ensures Value() == old(Value()).(title := Some(title))
    {
      this.title := Some(title);
    }

    method SetUrl(url: string)
      modifies this
      ensures Value() == old(Value()).(url := Some(url))
    {
      this.url := Some(url);
    }

    method SetUrlTitle(title: string)
      modifies this
      ensures Value() == old(Value()).(urlTitle := Some(title))
    {
      urlTitle := Some(title);
    }

    method SetTimestamp(timestamp: string)
      modifies this
      ensures Value() == old(Value()).(timestamp := Some(timestamp))
    {
      this.timestamp := Some(timestamp);
    }

    method SetPriority(priority: Priority)
      modifies this
      ensures Value() == old(Value()).(priority := Some(priority))
    {
      this.priority := Some(priority);
    }

    method SetSound(sound: Sounds.Sound)
      modifies this
      ensures Value() == old(Value()).(sound := Some(sound))
    {
      this.sound := Some(sound);
    }

    function GetMethod(): (m: HttpMethod)
      ensures m == POST
    {
      POST
    }

    /** `build_url`: push the path segment, then append the query pairs one by one. */
    method BuildUrl(target: Url)
      modifies target
      ensures target.path == old(target.path) + Value().Path()
      ensures target.query == old(target.query) + Value().Query()
    {
      var v := Value();
      ghost var start := target.query;
      target.PushSegment("messages.json");
      target.AppendPair("token", v.token);
      target.AppendPair("user", v.userKey);
      target.AppendPair("message", v.message);
      ghost var head := [("token", v.token), ("user", v.userKey), ("message", v.message)];
      assert target.query == start + head;
      AddOptionalParam(target, "title", v.title, Verbatim);
      AppendAssociative(start, head, OptionalPair("title", v.title, Verbatim));
      head := head + OptionalPair("title", v.title, Verbatim);
      AddOptionalParam(target, "url", v.url, Verbatim);
      AppendAssociative(start, head, OptionalPair("url", v.url, Verbatim));
      head := head + OptionalPair("url", v.url, Verbatim);
      AddOptionalParam(target, "url_title", v.urlTitle, Verbatim);
      AppendAssociative(start, head, OptionalPair("url_title", v.urlTitle, Verbatim));
      head := head + OptionalPair("url_title", v.urlTitle, Verbatim);
      AddOptionalParam(target, "timestamp", v.timestamp, Verbatim);
      AppendAssociative(start, head, OptionalPair("timestamp", v.timestamp, Verbatim));
      head := head + OptionalPair("timestamp", v.timestamp, Verbatim);
      AddOptionalParam(target, "sound", v.sound, SoundName);
      AppendAssociative(start, head, OptionalPair("sound", v.sound, SoundName));
      head := head + OptionalPair("sound", v.sound, SoundName);
      assert head == HeadPairs(v);
      ghost var withHead := target.query;
      if v.devices != [] {
        target.AppendPair("device", Join(v.devices, ','));
      }
      assert target.query == withHead + DevicePairs(v.devices);
      ghost var withDevices := target.query;
      AppendPriority(target, v.priority);
      AppendAssociative(start, HeadPairs(v), DevicePairs(v.devices));
      AppendAssociative(start, HeadPairs(v) + DevicePairs(v.devices), PriorityPairs(v.priority));
    }
  }

  /** Every key the query can hold, in the order `build_url` appends them. */
  const KeyOrder: seq<string> :=
    ["token", "user", "message", "title", "url", "url_title", "timestamp", "sound",
     "device", "priority", "retry", "expire", "callback"]

  /** No key of the order occurs twice. */
  lemma KeyOrderDistinct()
    ensures Distinct(KeyOrder)
  {
  }

  lemma PriorityKeysInOrder(priority: Option<Priority>)
    ensures IsSubsequence(Keys(PriorityPairs(priority)), ["priority", "retry", "expire", "callback"])
  {
    match priority
    case None =>
    case Some(p) =>
      var head := [("priority", p.Display())];
      assert Keys(head) == ["priority"];
      if p.Emergency? {
        var extras := [("retry", IntToString(p.retry)), ("expire", IntToString(p.expire))];
        assert Keys(extras) == ["retry", "expire"];
        SubsequenceReflexive(["retry", "expire"]);
        OptionalPairKeys("callback", p.callbackUrl, Verbatim);
        KeysInOrderAppend(extras, ["retry", "expire"], OptionalPair("callback", p.callbackUrl, Verbatim), ["callback"]);
        SubsequenceReflexive(["priority"]);
        KeysInOrderAppend(head, ["priority"], extras + OptionalPair("callback", p.callbackUrl, Verbatim), ["retry", "expire"] + ["callback"]);
        assert ["priority"] + (["retry", "expire"] + ["callback"]) == ["priority", "retry", "expire", "callback"];
      } else {
        assert PriorityPairs(priority) == head + [];
        assert IsSubsequence(["priority"], ["priority", "retry", "expire", "callback"]);
      }
  }

  /** The pairs up to the URL title keep the order of their keys. */
  lemma LinkKeysInOrder(m: SendMessageValue) returns (q: seq<Pair>)
    ensures q == [("token", m.token), ("user", m.userKey), ("message", m.message)]
      + OptionalPair("title", m.title, Verbatim)
      + OptionalPair("url", m.url, Verbatim)
      + OptionalPair("url_title", m.urlTitle, Verbatim)
    ensures IsSubsequence(Keys(q), KeyOrder[..6])
  {
    q := [("token", m.token), ("user", m.userKey), ("message", m.message)];
    var order := ["token", "user", "message"];
    assert Keys(q) == order;
    SubsequenceReflexive(order);
    q, order := AppendOptional(q, order, "title", m.title, Verbatim);
    q, order := AppendOptional(q, order, "url", m.url, Verbatim);
    q, order := AppendOptional(q, order, "url_title", m.urlTitle, Verbatim);
    assert order == KeyOrder[..6];
  }

  lemma HeadKeysInOrder(m: SendMessageValue)
    ensures IsSubsequence(Keys(HeadPairs(m)), KeyOrder[..8])
  {
    var q := LinkKeysInOrder(m);
    var order := KeyOrder[..6];
    q, order := AppendOptional(q, order, "timestamp", m.timestamp, Verbatim);
    q, order := AppendOptional(q, order, "sound", m.sound, SoundName);
    assert q == HeadPairs(m);
    assert order == KeyOrder[..8];
  }

  /**
   * The query's keys come in the order `build_url` appends them, and none occurs twice:
   * each field is sent at most once.
   */
  lemma QueryKeysInOrder(m: SendMessageValue)
    ensures IsSubsequence(Keys(m.Query()), KeyOrder)
  {
    HeadKeysInOrder(m);
    assert IsSubsequence(Keys(DevicePairs(m.devices)), ["device"]);
    KeysInOrderAppend(HeadPairs(m), KeyOrder[..8], DevicePairs(m.devices), ["device"]);
    PriorityKeysInOrder(m.priority);
    KeysInOrderAppend(HeadPairs(m) + DevicePairs(m.devices), KeyOrder[..8] + ["device"],
                      PriorityPairs(m.priority), ["priority", "retry", "expire", "callback"]);
    assert KeyOrder[..8] + ["device"] + ["priority", "retry", "expire", "callback"] == KeyOrder;
    assert HeadPairs(m) + DevicePairs(m.devices) + PriorityPairs(m.priority) == m.Query();
  }

  /** No pair outside the optional part of the query has one of the optional keys. */
  lemma OptionalKeyOutsideFixedParts(m: SendMessageValue, key: string, v: string)
    requires key in ["title", "url", "url_title", "timestamp", "sound"]
    ensures (key, v) !in [("token", m.token), ("user", m.userKey), ("message", m.message)]
    ensures (key, v) !in DevicePairs(m.devices)
    ensures (key, v) !in PriorityPairs(m.priority)
  {
  }

  /** The query opens with the three mandatory fields, in this order. */
  lemma MandatoryPairsFirst(m: SendMessageValue)
    ensures |m.Query()| >= 3
    ensures m.Query()[..3] == [("token", m.token), ("user", m.userKey), ("message", m.message)]
  {
    var mandatory := [("token", m.token), ("user", m.userKey), ("message", m.message)];
    var q := mandatory;
    q := KeepsPrefix(q, mandatory, OptionalPair("title", m.title, Verbatim));
    q := KeepsPrefix(q, mandatory, OptionalPair("url", m.url, Verbatim));
    q := KeepsPrefix(q, mandatory, OptionalPair("url_title", m.urlTitle, Verbatim));
    q := KeepsPrefix(q, mandatory, OptionalPair("timestamp", m.timestamp, Verbatim));
    q := KeepsPrefix(q, mandatory, OptionalPair("sound", m.sound, SoundName));
    q := KeepsPrefix(q, mandatory, DevicePairs(m.devices));
    q := KeepsPrefix(q, mandatory, PriorityPairs(m.priority));
  }

  /** The title is sent, with its value, exactly when it is set. */
  lemma TitleSent(m: SendMessageValue, v: string)
    ensures ("title", v) in m.Query() <==> m.title == Some(v)
  {
    OptionalKeyOutsideFixedParts(m, "title", v);
  }

  /** The URL is sent exactly when it is set. */
  lemma UrlSent(m: SendMessageValue, v: string)
    ensures ("url", v) in m.Query() <==> m.url == Some(v)
  {
    OptionalKeyOutsideFixedParts(m, "url", v);
  }

  /** The URL title is sent exactly when it is set. */
  lemma UrlTitleSent(m: SendMessageValue, v: string)
    ensures ("url_title", v) in m.Query() <==> m.urlTitle == Some(v)
  {
    OptionalKeyOutsideFixedParts(m, "url_title", v);
  }

  /** The timestamp is sent exactly when it is set. */
  lemma TimestampSent(m: SendMessageValue, v: string)
    ensures ("timestamp", v) in m.Query() <==> m.timestamp == Some(v)
  {
    OptionalKeyOutsideFixedParts(m, "timestamp", v);
  }

  /** The sound is sent, by its name, exactly when it is set. */
  lemma SoundSent(m: SendMessageValue, v: string)
    ensures ("sound", v) in m.Query() <==> m.sound.Some? && v == m.sound.value.Display()
  {
    OptionalKeyOutsideFixedParts(m, "sound", v);
  }

  /** One `device` pair, all devices joined with commas, exactly when there is a device. */
  lemma DeviceSent(m: SendMessageValue, v: string)
    ensures ("device", v) in m.Query() <==> m.devices != [] && v == Join(m.devices, ',')
  {
    assert ("device", v) !in HeadPairs(m);
    assert ("device", v) !in PriorityPairs(m.priority);
  }

  /**
   * When no device name holds a comma, the `device` value splits back into the devices,
   * in the order they were added.
   */
  lemma DevicesRecoverable(m: SendMessageValue, v: string)
    requires ("device", v) in m.Query()
    requires forall d :: d in m.devices ==> ',' !in d
    ensures Split(v, ',') == m.devices
  {
    DeviceSent(m, v);
    forall k | 0 <= k < |m.devices|
      ensures ',' !in m.devices[k]
    {
      assert m.devices[k] in m.devices;
    }
    SplitJoin(m.devices, ',');
  }

  /** The priority is sent, by its number, exactly when it is set. */
  lemma PrioritySent(m: SendMessageValue, v: string)
    ensures ("priority", v) in m.Query() <==> m.priority.Some? && v == m.priority.value.Display()
  {
    assert ("priority", v) !in HeadPairs(m);
    assert ("priority", v) !in DevicePairs(m.devices);
  }

  /** Retry and expire are sent exactly for an emergency priority, as decimal numbers. */
  lemma RetryExpireSent(m: SendMessageValue, v: string)
    ensures ("retry", v) in m.Query() <==>
      m.priority.Some? && m.priority.value.Emergency? && v == IntToString(m.priority.value.retry)
    ensures ("expire", v) in m.Query() <==>
      m.priority.Some? && m.priority.value.Emergency? && v == IntToString(m.priority.value.expire)
  {
    assert ("retry", v) !in HeadPairs(m) && ("expire", v) !in HeadPairs(m);
    assert ("retry", v) !in DevicePairs(m.devices) && ("expire", v) !in DevicePairs(m.devices);
  }

  /** The callback is sent only for an emergency that has one; an emergency without one sends none. */
  lemma CallbackSent(m: SendMessageValue, v: string)
    ensures ("callback", v) in m.Query() <==>
      m.priority.Some? && m.priority.value.Emergency? && m.priority.value.callbackUrl == Some(v)
  {
    assert ("callback", v) !in HeadPairs(m);
    assert ("callback", v) !in DevicePairs(m.devices);
  }

  // ----- The reply -----

  /** The field of `RawSendMessageResponse` beyond status, request and errors. */
  datatype SendMessageBody = SendMessageBody(receipt: Option<string>)

  type RawSendMessageResponse = Raw<SendMessageBody>

  datatype SendMessageResponse = SendMessageResponse(receipt: Option<string>, request: string)

  /** `map`: the request identifier and the receipt, which stays optional. */
  function Map(raw: RawSendMessageResponse): (r: SendMessageResponse)
    ensures Reply(r) == raw.(status := 1, errors := None)
  {
    SendMessageResponse(raw.body.receipt, raw.request)
  }

  /** The success reply that carries a given response. */
  function Reply(resp: SendMessageResponse): RawSendMessageResponse
  {
    SuccessReply(resp.request, SendMessageBody(resp.receipt))
  }

  /** Sending back the reply for a response gives that response, receipt or not. */
  lemma MapRoundTrip(resp: SendMessageResponse)
    ensures Dispatch(Reply(resp), Map) == Ok(resp)
  {
  }

  // ----- The URLs the source's own tests expect -----

  /** Every field set, priority normal: the order is mandatory, optional, device, priority. */
  lemma AllFieldsQuery()
    ensures SendMessageValue("send_token", "send user", "send message", ["send device"],
      Some("send title"), Some("send url"), Some("send url title"), Some(Normal),
      Some("send timestamp"), Some(Sounds.Pushover)).Query()
      == [("token", "send_token"), ("user", "send user"), ("message", "send message"),
          ("title", "send title"), ("url", "send url"), ("url_title", "send url title"),
          ("timestamp", "send timestamp"), ("sound", "pushover"), ("device", "send device"),
          ("priority", "0")]
  {
  }

  /** A new request with nothing set sends just the three mandatory fields. */
  lemma MandatoryOnlyQuery()
    ensures SendMessageValue("send_token", "send user", "send message", [],
      None, None, None, None, None, None).Query()
      == [("token", "send_token"), ("user", "send user"), ("message", "send message")]
  {
  }

  /** Three devices travel as one comma-joined `device` pair. */
  lemma MultipleDevicesQuery()
    ensures SendMessageValue("send_token", "send user", "send message", ["device 1", "device 2", "device 3"],
      None, None, None, None, None, None).Query()
      == [("token", "send_token"), ("user", "send user"), ("message", "send message"),
          ("device", "device 1,device 2,device 3")]
  {
    ThreeDevicesJoined();
  }

  lemma ThreeDevicesJoined()
    ensures Join(["device 1", "device 2", "device 3"], ',') == "device 1,device 2,device 3"
  {
    assert Join(["device 3"], ',') == "device 3";
    assert Join(["device 2", "device 3"], ',') == "device 2,device 3";
  }

  /** An emergency with a callback sends retry, expire and callback after the priority. */
  lemma EmergencyWithCallbackQuery()
    ensures SendMessageValue("send_token", "send user", "send message", [],
      None, None, None, Some(Emergency(10, 20, Some("emergency url"))), None, None).Query()
      == [("token", "send_token"), ("user", "send user"), ("message", "send message"),
          ("priority", "2"), ("retry", "10"), ("expire", "20"), ("callback", "emergency url")]
  {
    SmallNumbers();
  }

  /** An emergency without a callback sends retry and expire and no callback pair. */
  lemma EmergencyWithoutCallbackQuery()
    ensures SendMessageValue("send_token", "send user", "send message", [],
      None, None, None, Some(Emergency(10, 20, None)), None, None).Query()
      == [("token", "send_token"), ("user", "send user"), ("message", "send message"),
          ("priority", "2"), ("retry", "10"), ("expire", "20")]
  {
    SmallNumbers();
  }

  /** No key occurs twice in the query: each field is sent at most once. */
  lemma QueryKeysDistinct(m: SendMessageValue)
    ensures Distinct(Keys(m.Query()))
  {
    QueryKeysInOrder(m);
    KeyOrderDistinct();
    SubsequenceDistinct(Keys(m.Query()), KeyOrder);
  }
}
