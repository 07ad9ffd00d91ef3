/**
 * The contract shared by every endpoint: the raw reply every endpoint decodes, the
 * success predicate (status 1 and nothing else), the split of a decoded reply into a
 * service error or a success, the composition the client applies after decoding, and
 * the target a request writes into: path segments and query pairs appended in order.
 */
module Base {
  import opened Wrappers
  import opened Decimal

  /** The HTTP verb an endpoint is sent with. */
  datatype HttpMethod = GET | POST

  /** One query or form pair, unescaped. */
  type Pair = (string, string)

  /** `ErrorKind::PushoverError`: the one failure shape shared by every endpoint. */
  datatype PushoverError = PushoverError(status: i32, errors: seq<string>, request: string)

  /**
   * A decoded reply: the status, the request identifier the service echoes, the
   * optional error list, and `body`, the endpoint's own (all optional) fields.
   */
  datatype Raw<B> = Raw(status: i32, request: string, errors: Option<seq<string>>, body: B)

  /** `RawBasicResponse`: a reply with no endpoint-specific fields. */
  type RawBasicResponse = Raw<()>

  /** `get_error` unwraps the error list with `expect` whenever the status is not 1. */
  predicate ErrorsPresentOnFailure<B>(raw: Raw<B>) {
    raw.status != 1 ==> raw.errors.Some?
  }

  /** `RawResponse::get_error`: status 1 is the only success; anything else is a service error. */
  function GetError<B>(raw: Raw<B>): (e: Option<PushoverError>)
    requires ErrorsPresentOnFailure(raw)
    ensures e.None? <==> raw.status == 1
    ensures e.Some? ==> e.value.status == raw.status && e.value.request == raw.request
    ensures e.Some? ==> Some(e.value.errors) == raw.errors
  {
    if raw.status != 1 then
      Some(PushoverError(raw.status, raw.errors.value, raw.request))
    else
      None
  }

  /** `Response<T>`: what decoding a reply yields. */
  datatype Response<B> = Error(error: PushoverError) | Success(raw: Raw<B>)

  /** `Response::deserialize` after the raw reply is decoded: classify it. */
  function Deserialize<B>(raw: Raw<B>): (r: Response<B>)
    requires ErrorsPresentOnFailure(raw)
    ensures r.Error? <==> GetError(raw).Some?
    ensures r.Error? ==> r.error == GetError(raw).value
    ensures r.Success? ==> r.raw == raw && raw.status == 1
  {
    match GetError(raw)
    case Some(err) => Error(err)
    case None => Success(raw)
  }

  /**
   * What the client does with a decoded reply: a service error is returned as the
   * error; a success is narrowed by the endpoint's `map` (`narrow` here).
   */
  function Dispatch<B, D>(raw: Raw<B>, narrow: Raw<B> --> D): (r: Result<D, PushoverError>)
    requires ErrorsPresentOnFailure(raw)
    requires raw.status == 1 ==> narrow.requires(raw)
    ensures r.Err? <==> raw.status != 1
    ensures r.Err? ==> r.error == PushoverError(raw.status, raw.errors.value, raw.request)
    ensures r.Ok? ==> r.value == narrow(raw)
  {
    match Deserialize(raw)
    case Success(ok) => Ok(narrow(ok))
    case Error(err) => Err(err)
  }

  /** A reply with status 0 and two errors classifies as that error, every field carried over. */
  lemma DeserializeWithError()
    ensures Deserialize(Raw(0, "example_request", Some(["error1", "error2"]), ()))
      == Error(PushoverError(0, ["error1", "error2"], "example_request"))
  {
  }

  /** A reply with status 1 and no error list classifies as a success holding the reply unchanged. */
  lemma DeserializeNoError()
    ensures Deserialize(Raw(1, "example_request", None, ())) == Success(Raw(1, "example_request", None, ()))
  {
  }

  /** The reply the service sends on success: status 1, no error list, and the given fields. */
  function SuccessReply<B>(request: string, body: B): (raw: Raw<B>)
    ensures raw.status == 1 && raw.errors.None? && raw.request == request && raw.body == body
    ensures ErrorsPresentOnFailure(raw)
  {
    Raw(1, request, None, body)
  }

  /** The request's default `get_form_parameters`: no form body. */
  function DefaultFormParameters(): (form: Option<seq<Pair>>)
    ensures form.None?
  {
    None
  }

  /** The version segment the client sets as the path before any endpoint writes into it. */
  const ApiVersion: string := "1"

  /**
   * The target URL a request writes into. The scheme and host are fixed by the
   * client and play no part here; the path is a list of segments and the query an
   * ordered list of pairs.
   */
  class Url {
    var path: seq<string>
    var query: seq<Pair>

    /** The versioned base URL the client starts from. */
    constructor Versioned()
      ensures path == [ApiVersion] && query == []
    {
      path := [ApiVersion];
      query := [];
    }

    /** `path_segments_mut().push(segment)`. */
    method PushSegment(segment: string)
      modifies this
      ensures path == old(path) + [segment]
      ensures query == old(query)
    {
      path := path + [segment];
    }

    /** `query_pairs_mut().append_pair(key, value)`. */
    method AppendPair(key: string, value: string)
      modifies this
      ensures query == old(query) + [(key, value)]
      ensures path == old(path)
    {
      query := query + [(key, value)];
    }
  }

  lemma AppendAssociative(a: seq<Pair>, b: seq<Pair>, c: seq<Pair>)
    ensures (a + b) + c == a + (b + c)
  {
  }

  /** A path segment made of a name followed by `.json`, as `format!("{}.json", name)` builds it. */
  function JsonSegment(name: string): string
  {
    name + ".json"
  }

  /** The name a `.json` segment carries, if the segment has that suffix. */
  function JsonSegmentName(segment: string): Option<string>
  {
    if |segment| >= 5 && segment[|segment| - 5..] == ".json" then Some(segment[..|segment| - 5]) else None
  }

  /** The name put into a `.json` segment can be read back out of it. */
  lemma JsonSegmentRoundTrip(name: string)
    ensures JsonSegmentName(JsonSegment(name)) == Some(name)
  {
    var segment := JsonSegment(name);
    assert segment[..|segment| - 5] == name;
    assert segment[|segment| - 5..] == ".json";
  }

  /** `Display` for a `String`: the string itself. */
  function Verbatim(s: string): string { s }

  /** The pairs `add_optional_param` appends: one when the value is present, none otherwise. */
  function OptionalPair<V>(key: string, value: Option<V>, show: V -> string): seq<Pair>
  {
    if value.Some? then [(key, show(value.value))] else []
  }

  /** `add_optional_param`: append `(key, value.to_string())` only when the value is present. */
  method AddOptionalParam<V>(url: Url, key: string, value: Option<V>, show: V -> string)
    modifies url
    ensures url.query == old(url.query) + OptionalPair(key, value, show)
    ensures url.path == old(url.path)
  {
    if value.Some? {
      url.AppendPair(key, show(value.value));
    }
  }

  lemma OptionalPairShape<V>(key: string, value: Option<V>, show: V -> string)
    ensures |OptionalPair(key, value, show)| == if value.Some? then 1 else 0
    ensures forall p :: p in OptionalPair(key, value, show) <==> value.Some? && p == (key, show(value.value))
  {
  }

  /** Appending to a query keeps what it starts with. */
  lemma KeepsPrefix(q: seq<Pair>, prefix: seq<Pair>, more: seq<Pair>) returns (q': seq<Pair>)
    requires |prefix| <= |q| && q[..|prefix|] == prefix
    ensures q' == q + more
    ensures |prefix| <= |q'| && q'[..|prefix|] == prefix
  {
    q' := q + more;
    assert q'[..|prefix|] == q[..|prefix|];
  }

  // ----- Reading a query back: its keys, their order, and that none repeats -----

  /** The keys of a query, in order. */
  function Keys(q: seq<Pair>): (ks: seq<string>)
    ensures |ks| == |q|
    ensures forall k :: 0 <= k < |q| ==> ks[k] == q[k].0
  {
    if q == [] then [] else [q[0].0] + Keys(q[1..])
  }

  lemma KeysAppend(a: seq<Pair>, b: seq<Pair>)
    ensures Keys(a + b) == Keys(a) + Keys(b)
  {
  }

  /** `a` is `b` with some elements left out, the rest kept in order. */
  predicate IsSubsequence(a: seq<string>, b: seq<string>)
  {
    a == [] || (b != [] && ((a[0] == b[0] && IsSubsequence(a[1..], b[1..])) || IsSubsequence(a, b[1..])))
  }

  /** No element occurs twice. */
  predicate Distinct(s: seq<string>)
  {
    forall i, j | 0 <= i < j < |s| :: s[i] != s[j]
  }

  lemma DistinctTail(s: seq<string>)
    requires s != [] && Distinct(s)
    ensures s[0] !in s[1..] && Distinct(s[1..])
  {
    forall k | 0 <= k < |s| - 1
      ensures s[1..][k] != s[0]
    {
      assert s[1..][k] == s[k + 1];
    }
  }

  lemma DistinctCons(x: string, s: seq<string>)
    requires x !in s && Distinct(s)
    ensures Distinct([x] + s)
  {
    forall i, j | 0 <= i < j < |s| + 1
      ensures ([x] + s)[i] != ([x] + s)[j]
    {
      assert ([x] + s)[j] == s[j - 1];
    }
  }

  lemma {:induction false} SubsequenceMembers(a: seq<string>, b: seq<string>, x: string)
    requires IsSubsequence(a, b)
    ensures x in a ==> x in b
  {
    if a != [] && b != [] {
      if a[0] == b[0] && IsSubsequence(a[1..], b[1..]) {
        SubsequenceMembers(a[1..], b[1..], x);
        assert a == [a[0]] + a[1..];
      } else {
        SubsequenceMembers(a, b[1..], x);
      }
    }
  }

  /** Leaving elements out of a list without repetitions leaves none. */
  lemma {:induction false} SubsequenceDistinct(a: seq<string>, b: seq<string>)
    requires IsSubsequence(a, b) && Distinct(b)
    ensures Distinct(a)
  {
    if a != [] {
      DistinctTail(b);
      if a[0] == b[0] && IsSubsequence(a[1..], b[1..]) {
        SubsequenceMembers(a[1..], b[1..], a[0]);
        SubsequenceDistinct(a[1..], b[1..]);
        DistinctCons(a[0], a[1..]);
        assert a == [a[0]] + a[1..];
      } else {
        SubsequenceDistinct(a, b[1..]);
      }
    }
  }

  lemma {:induction false} SubsequenceSkip(a: seq<string>, c: seq<string>, b: seq<string>)
    requires IsSubsequence(a, b)
    ensures IsSubsequence(a, c + b)
  {
    if c != [] {
      SubsequenceSkip(a, c[1..], b);
      assert (c + b)[1..] == c[1..] + b;
    } else {
      assert c + b == b;
    }
  }

  /** Subsequences of consecutive parts make a subsequence of the whole. */
  lemma {:induction false} SubsequenceAppend(a1: seq<string>, b1: seq<string>, a2: seq<string>, b2: seq<string>)
    requires IsSubsequence(a1, b1) && IsSubsequence(a2, b2)
    ensures IsSubsequence(a1 + a2, b1 + b2)
  {
    if a1 == [] {
      SubsequenceSkip(a2, b1, b2);
      assert a1 + a2 == a2;
    } else if a1[0] == b1[0] && IsSubsequence(a1[1..], b1[1..]) {
      SubsequenceAppend(a1[1..], b1[1..], a2, b2);
      assert (a1 + a2)[1..] == a1[1..] + a2;
      assert (b1 + b2)[1..] == b1[1..] + b2;
    } else {
      SubsequenceAppend(a1, b1[1..], a2, b2);
      assert (b1 + b2)[1..] == b1[1..] + b2;
    }
  }

  lemma {:induction false} SubsequenceReflexive(a: seq<string>)
    ensures IsSubsequence(a, a)
  {
    if a != [] {
      SubsequenceReflexive(a[1..]);
    }
  }

  lemma OptionalPairKeys<V>(key: string, value: Option<V>, show: V -> string)
    ensures IsSubsequence(Keys(OptionalPair(key, value, show)), [key])
  {
  }

  /**
   * One `add_optional_param` step of a query whose keys follow `order`: the keys now
   * follow `order + [key]`.
   */
  lemma AppendOptional<V>(q: seq<Pair>, order: seq<string>, key: string, value: Option<V>, show: V -> string)
    returns (q': seq<Pair>, order': seq<string>)
    requires IsSubsequence(Keys(q), order)
    ensures q' == q + OptionalPair(key, value, show) && order' == order + [key]
    ensures IsSubsequence(Keys(q'), order')
  {
    OptionalPairKeys(key, value, show);
    KeysInOrderAppend(q, order, OptionalPair(key, value, show), [key]);
    q', order' := q + OptionalPair(key, value, show), order + [key];
  }

  /** Key order is kept across consecutive parts of a query. */
  lemma KeysInOrderAppend(q1: seq<Pair>, order1: seq<string>, q2: seq<Pair>, order2: seq<string>)
    requires IsSubsequence(Keys(q1), order1) && IsSubsequence(Keys(q2), order2)
    ensures IsSubsequence(Keys(q1 + q2), order1 + order2)
  {
    KeysAppend(q1, q2);
    SubsequenceAppend(Keys(q1), order1, Keys(q2), order2);
  }
}
