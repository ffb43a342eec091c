/** Severity levels of an application exception: the integer levels of Python's
    `logging` module and the names the exception reports for them. */
module Severity {
  import opened Results
  import Decimal

  const NotSet: int := 0
  const Debug: int := 10
  const Info: int := 20
  const Warning: int := 30
  const Error: int := 40
  const Critical: int := 50

  /** The exception's table from level to name. */
  const SeverityLevels: map<int, string> := map[
    NotSet := "NotSet",
    Debug := "Debug",
    Info := "Information",
    Warning := "Warning",
    Error := "Error",
    Critical := "Critical"
  ]

  predicate IsLevel(level: int) {
    level == NotSet || level == Debug || level == Info
    || level == Warning || level == Error || level == Critical
  }

  const InvalidPrefix: string := "Invalid severity level: "
  const InvalidSuffix: string := ". Possible values are 0, 10, 20, 30, 40, 50."

  /** The `ValueError` raised for a level outside the table. */
  datatype SeverityError = InvalidSeverityLevel(level: int) {
    function Message(): string {
      InvalidPrefix + Decimal.FromInt(level) + InvalidSuffix
    }
  }

  /** `get_severity_str`: the name of a level, failing for any other integer. */
  function SeverityName(level: int): (r: Result<string, SeverityError>)
    ensures r.Success? <==> IsLevel(level)
    ensures r.Failure? ==> r.error == InvalidSeverityLevel(level)
    ensures level == NotSet ==> r == Success("NotSet")
    ensures level == Debug ==> r == Success("Debug")
    ensures level == Info ==> r == Success("Information")
    ensures level == Warning ==> r == Success("Warning")
    ensures level == Error ==> r == Success("Error")
    ensures level == Critical ==> r == Success("Critical")
  {
    if level in SeverityLevels then Success(SeverityLevels[level])
    else Failure(InvalidSeverityLevel(level))
  }

  /** The level a severity name stands for. */
  function LevelOfName(name: string): Option<int> {
    if name == "NotSet" then Some(NotSet)
    else if name == "Debug" then Some(Debug)
    else if name == "Information" then Some(Info)
    else if name == "Warning" then Some(Warning)
    else if name == "Error" then Some(Error)
    else if name == "Critical" then Some(Critical)
    else None
  }

  /** Names and levels are in one-to-one correspondence: the name reported for a
      level gives back that level, and only that level has that name. */
  lemma NameRoundTrip(level: int, name: string)
    ensures SeverityName(level) == Success(name) <==> LevelOfName(name) == Some(level)
  {
  }

  /** The error message carries the rejected level, readable back from it. */
  lemma InvalidMessageNamesLevel(level: int)
    ensures var m := InvalidSeverityLevel(level).Message();
      |InvalidPrefix| + |InvalidSuffix| <= |m|
      && m[..|InvalidPrefix|] == InvalidPrefix
      && Decimal.ToInt(m[|InvalidPrefix|..|m| - |InvalidSuffix|]) == Some(level)
  {
    var m := InvalidSeverityLevel(level).Message();
    assert m[|InvalidPrefix|..|m| - |InvalidSuffix|] == Decimal.FromInt(level);
    Decimal.FromIntRoundTrip(level);
  }
}
