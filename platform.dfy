/** The two platforms of a 1C installation and their textual form. */
module Platforms {
  import opened Wrappers

  datatype Platform = X64 | X32

  /** `Display for Platform`. */
  function Name(p: Platform): (s: string)
    ensures s == "x64" || s == "x32"
  {
    match p
    case X64 => "x64"
    case X32 => "x32"
  }

  /** `FromStr for Platform`: the inverse of `Name`; any other text is an error. */
  function Parse(s: string): (r: Result<Platform, string>)
    ensures r.Success? <==> s == "x64" || s == "x32"
    ensures r.Success? ==> Name(r.value) == s
    ensures r.Failure? ==> r.error == "Invalid platform: " + s
  {
    match s
    case "x64" => Success(X64)
    case "x32" => Success(X32)
    case _ => Failure("Invalid platform: " + s)
  }

  lemma NameParses(p: Platform)
    ensures Parse(Name(p)) == Success(p)
  {
  }
}
