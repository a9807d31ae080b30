/** The closed, ordered set of log severities and its two operations:
    the membership check `assert` and the display name `to_string`. */
module LogLevels {
  import opened Wrappers
  import opened Errors
  import opened JsValues

  const Debug: int := 0
  const Info: int := 1
  const Warn: int := 2
  const Error: int := 3
  const Critical: int := 4

  /** The severities in declaration order. */
  const Levels: seq<int> := [Debug, Info, Warn, Error, Critical]

  /** The table `to_string` looks names up in. */
  const Names: map<int, string> :=
    map[Debug := "DEBUG", Info := "INFO", Warn := "WARN", Error := "ERROR", Critical := "CRITICAL"]

  predicate IsLevel(v: int) {
    v in Levels
  }

  /** `LogLevel.assert`: passes exactly for the five severities. */
  function Assert(v: Json): (o: Outcome<Errors.Error>)
    ensures o.Pass? <==> v.JNum? && 0 <= v.n <= 4
    ensures o.Fail? ==> o.error == InvalidLogLevel
  {
    if v.JNum? && IsLevel(v.n) then Pass else Fail(InvalidLogLevel)
  }

  /** `LogLevel.to_string`: the upper-case name of a severity. */
  function ToString(v: int): (r: Result<string, Errors.Error>)
    ensures r.Ok? <==> 0 <= v <= 4
    ensures r.Err? ==> r.error == UnsupportedLogLevel
    ensures v == 0 ==> r == Ok("DEBUG")
    ensures v == 1 ==> r == Ok("INFO")
    ensures v == 2 ==> r == Ok("WARN")
    ensures v == 3 ==> r == Ok("ERROR")
    ensures v == 4 ==> r == Ok("CRITICAL")
  {
    if v in Names then Ok(Names[v]) else Err(UnsupportedLogLevel)
  }

  /** The severities are the integers 0 to 4 in strictly increasing order. */
  lemma LevelsAscending()
    ensures |Levels| == 5
    ensures forall i :: 0 <= i < |Levels| ==> Levels[i] == i
    ensures forall i, j :: 0 <= i < j < |Levels| ==> Levels[i] < Levels[j]
  {
  }

  /** `to_string` is defined on exactly the values `assert` accepts. */
  lemma ToStringTotalOnAccepted(v: int)
    ensures ToString(v).Ok? <==> Assert(JNum(v)).Pass?
  {
  }

  /** No two severities share a name, so a name identifies its severity. */
  lemma NamesDistinct(v: int, w: int)
    requires ToString(v).Ok? && ToString(w).Ok?
    ensures ToString(v) == ToString(w) ==> v == w
  {
  }
}
