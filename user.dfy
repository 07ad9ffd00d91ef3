/** A member of a delivery group, as built by callers and as listed by the service. */
module Users {
  import opened Wrappers
  import Deserializers

  /** The value of a `User`: the user key, optional device and memo, and whether it is disabled. */
  datatype UserRecord = UserRecord(user: string, device: Option<string>, memo: Option<string>, disabled: bool)

  /** `User`, whose setters overwrite its fields in place. */
  class User {
    var user: string
    var device: Option<string>
    var memo: Option<string>
    var disabled: bool

    function Value(): UserRecord
      reads this
    {
      UserRecord(user, device, memo, disabled)
    }

    /** `User::new`: no device, no memo, enabled. */
    constructor (user: string)
      ensures Value() == UserRecord(user, None, None, false)
    {
      this.user := user;
      device := None;
      memo := None;
      disabled := false;
    }

    /** `set_device`: only the device changes. */
    method SetDevice(device: string)
      modifies this
      ensures Value() == old(Value()).(device := Some(device))
    {
      this.device := Some(device);
    }

    /** `set_memo`: only the memo changes. */
    method SetMemo(memo: string)
      modifies this
      ensures Value() == old(Value()).(memo := Some(memo))
    {
      this.memo := Some(memo);
    }
  }

  /**
   * Decoding a user from a reply: device and memo pass through the empty-string
   * normaliser, the other fields are taken as they are.
   */
  function Decode(wire: UserRecord): (u: UserRecord)
    ensures u.user == wire.user && u.disabled == wire.disabled
    ensures u.device != Some("") && u.memo != Some("")
    ensures wire.device != Some("") ==> u.device == wire.device
    ensures wire.memo != Some("") ==> u.memo == wire.memo
    ensures wire.device == Some("") ==> u.device == None
    ensures wire.memo == Some("") ==> u.memo == None
  {
    wire.(device := Deserializers.OptionEmptyString(wire.device),
          memo := Deserializers.OptionEmptyString(wire.memo))
  }

  lemma DecodeIdempotent(wire: UserRecord)
    ensures Decode(Decode(wire)) == Decode(wire)
  {
  }
}
