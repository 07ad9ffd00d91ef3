/**
 * Message priority. On the wire it is an explicit integer string, negative values
 * included; the emergency variant carries its retry interval, expiry and optional
 * callback, none of which shows in its wire value.
 */
module Priorities {
  import opened Wrappers
  import opened Decimal

  datatype Priority = Lowest | Low | Normal | High | Emergency(retry: u32, expire: u32, callbackUrl: Option<string>)
  {
    /** `Display for Priority`: the decimal text of the level's code, `2` exactly for an emergency. */
    function Display(): (d: string)
      ensures exists code: i8 :: -2 <= code <= 2 && d == IntToString(code)
      ensures this.Emergency? <==> d == IntToString(2)
    {
      match this
      case Lowest => assert "-2" == IntToString(-2); "-2"
      case Low => assert "-1" == IntToString(-1); "-1"
      case Normal => assert "0" == IntToString(0); "0"
      case High => assert "1" == IntToString(1); "1"
      case Emergency(_, _, _) => assert "2" == IntToString(2); "2"
    }
  }

  /** `Priority::from_int`: the five codes -2..2; the emergency variant gets zero retry and expiry and no callback. */
  function FromInt(i: i8): (p: Option<Priority>)
    ensures p.Some? <==> -2 <= i <= 2
    ensures p.Some? ==> p.value.Display() == IntToString(i)
    ensures i == 2 ==> p == Some(Emergency(0, 0, None))
  {
    match i
    case -2 => Some(Lowest)
    case -1 => Some(Low)
    case 0 => Some(Normal)
    case 1 => Some(High)
    case 2 => Some(Emergency(0, 0, None))
    case _ => None
  }

  /** What decoding a priority fails with: the value found and the values expected. */
  datatype DecodeError = InvalidValue(found: int, expected: string)

  /** The `Deserialize` impl: an `i8` from the reply, accepted exactly when `from_int` accepts it. */
  function Deserialize(raw: i8): (r: Result<Priority, DecodeError>)
    ensures r.Err? <==> FromInt(raw).None?
    ensures r.Ok? ==> FromInt(raw) == Some(r.value)
    ensures r.Err? ==> r.error == InvalidValue(raw, "-2, -1, 0, 1, 2")
  {
    match FromInt(raw)
    case Some(p) => Ok(p)
    case None => Err(InvalidValue(raw, "-2, -1, 0, 1, 2"))
  }

  /**
   * The wire value of every priority is an integer string that `from_int` maps back to
   * the same level; only the emergency extras are lost, replaced by zeros and no callback.
   */
  lemma DisplayFromIntRoundTrip(p: Priority)
    ensures ParseInt(p.Display()).Some?
    ensures -2 <= ParseInt(p.Display()).value <= 2
    ensures FromInt(ParseInt(p.Display()).value) == Some(if p.Emergency? then Emergency(0, 0, None) else p)
  {
    var i: i8 := match p
      case Lowest => -2
      case Low => -1
      case Normal => 0
      case High => 1
      case Emergency(_, _, _) => 2;
    assert p.Display() == IntToString(i);
    IntToStringRoundTrip(i);
  }

  /** Two priorities share a wire value exactly when they are the same level. */
  lemma DisplayDistinguishesLevels(p: Priority, q: Priority)
    ensures p.Display() == q.Display() <==> p == q || (p.Emergency? && q.Emergency?)
  {
    DisplayFromIntRoundTrip(p);
    DisplayFromIntRoundTrip(q);
  }
}
