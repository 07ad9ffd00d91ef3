/** Decoding helpers applied to individual reply fields. */
module Deserializers {
  import opened Wrappers

  /** `deserialize_option_empty_string`: an empty string decodes as an absent value. */
  function OptionEmptyString(decoded: Option<string>): (r: Option<string>)
    ensures r != Some("")
    ensures decoded != Some("") ==> r == decoded
    ensures decoded == Some("") ==> r == None
  {
    match decoded
    case Some(x) => if x == "" then None else decoded
    case None => None
  }

  lemma OptionEmptyStringIdempotent(decoded: Option<string>)
    ensures OptionEmptyString(OptionEmptyString(decoded)) == OptionEmptyString(decoded)
  {
  }
}
