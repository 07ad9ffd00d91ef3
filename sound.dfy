/** Notification sounds and the names the service knows them by. */
module Sounds {

  datatype Sound =
    | Pushover | Bike | Bugle | CashRegister | Classical | Cosmic | Falling | Gamelan
    | Incoming | Intermission | Magic | Mechanical | PianoBar | Siren | SpaceAlarm
    | TugBoat | Alien | Climb | Persistent | Echo | UpDown | None
  {
    /** `Display for Sound`: the name the service knows the sound by, a lower-case word. */
    function Display(): (name: string)
      ensures LowercaseWord(name)
    {
      NamesLowercase1();
      NamesLowercase2();
      NamesLowercase3();
      NamesLowercase4();
      match this
      case Pushover => "pushover"
      case Bike => "bike"
      case Bugle => "bugle"
      case CashRegister => "cashregister"
      case Classical => "classical"
      case Cosmic => "cosmic"
      case Falling => "falling"
      case Gamelan => "gamelan"
      case Incoming => "incoming"
      case Intermission => "intermission"
      case Magic => "magic"
      case Mechanical => "mechanical"
      case PianoBar => "pianobar"
      case Siren => "siren"
      case SpaceAlarm => "spacealarm"
      case TugBoat => "tugboat"
      case Alien => "alien"
      case Climb => "climb"
      case Persistent => "persistent"
      case Echo => "echo"
      case UpDown => "updown"
      case None => "none"
    }
  }

  /** A non-empty word of lower-case ASCII letters. */
  predicate LowercaseWord(name: string)
  {
    |name| > 0 && forall k :: 0 <= k < |name| ==> 'a' <= name[k] <= 'z'
  }

  lemma NamesLowercase1()
    ensures LowercaseWord("pushover")
      && LowercaseWord("bike")
      && LowercaseWord("bugle")
      && LowercaseWord("cashregister")
      && LowercaseWord("classical")
      && LowercaseWord("cosmic")
  {
  }

  lemma NamesLowercase2()
    ensures LowercaseWord("falling")
      && LowercaseWord("gamelan")
      && LowercaseWord("incoming")
      && LowercaseWord("intermission")
      && LowercaseWord("magic")
      && LowercaseWord("mechanical")
  {
  }

  lemma NamesLowercase3()
    ensures LowercaseWord("pianobar")
      && LowercaseWord("siren")
      && LowercaseWord("spacealarm")
      && LowercaseWord("tugboat")
      && LowercaseWord("alien")
      && LowercaseWord("climb")
  {
  }

  lemma NamesLowercase4()
    ensures LowercaseWord("persistent")
      && LowercaseWord("echo")
      && LowercaseWord("updown")
      && LowercaseWord("none")
  {
  }

  /** Distinct sounds have distinct names, so the name sent identifies the sound. */
  lemma DisplayInjective(a: Sound, b: Sound)
    ensures a.Display() == b.Display() ==> a == b
  {
  }
}
