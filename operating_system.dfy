/** The platforms a license can be assigned for, and their wire names. */
module OperatingSystems {

  datatype OperatingSystem = Android | IOS | Desktop
  {
    /** `Display for OperatingSystem`: the platform's name, a word of ASCII letters. */
    function Display(): (name: string)
      ensures AsciiWord(name)
    {
      match this
      case Android => "Android"
      case IOS => "iOS"
      case Desktop => "Desktop"
    }
  }

  /** A non-empty word of ASCII letters, upper or lower case. */
  predicate AsciiWord(name: string)
  {
    |name| > 0 && forall k :: 0 <= k < |name| ==> 'a' <= name[k] <= 'z' || 'A' <= name[k] <= 'Z'
  }

  /** Distinct platforms have distinct names. */
  lemma DisplayInjective(a: OperatingSystem, b: OperatingSystem)
    ensures a.Display() == b.Display() ==> a == b
  {
  }
}
