/** The sanctioned values of the two rolling thresholds: file sizes in bytes
    (any number of at least one KiB) and file ages in seconds (a closed set). */
module RollingOptions {
  import opened Wrappers
  import opened Errors
  import opened JsValues

  const OneKB: int := 1024
  const FiveKB: int := 5 * 1024
  const TenKB: int := 10 * 1024
  const TwentyKB: int := 20 * 1024
  const FiftyKB: int := 50 * 1024
  const HundredKB: int := 100 * 1024
  const HalfMB: int := 512 * 1024
  const OneMB: int := 1024 * 1024
  const FiveMB: int := 5 * 1024 * 1024
  const TenMB: int := 10 * 1024 * 1024
  const TwentyMB: int := 20 * 1024 * 1024
  const FiftyMB: int := 50 * 1024 * 1024
  const HundredMB: int := 100 * 1024 * 1024

  /** The named sizes in declaration order. */
  const SizeOptions: seq<int> :=
    [OneKB, FiveKB, TenKB, TwentyKB, FiftyKB, HundredKB,
     HalfMB, OneMB, FiveMB, TenMB, TwentyMB, FiftyMB, HundredMB]

  const FiveSeconds: int := 5
  const Minutely: int := 60
  const Hourly: int := 60 * Minutely
  const Daily: int := 24 * Hourly
  const Weekly: int := 7 * Daily
  const Monthly: int := 30 * Daily
  const Yearly: int := 12 * Monthly

  /** The seven sanctioned periods in declaration order. */
  const TimeOptions: seq<int> := [FiveSeconds, Minutely, Hourly, Daily, Weekly, Monthly, Yearly]

  predicate StrictlyIncreasing(s: seq<int>) {
    forall i, j :: 0 <= i < j < |s| ==> s[i] < s[j]
  }

  predicate IsSize(n: int) {
    n >= OneKB
  }

  predicate IsTime(t: int) {
    t in TimeOptions
  }

  /** `RollingSizeOptions.assert`: a number of at least one KiB. */
  function AssertSize(v: Json): (o: Outcome<Error>)
    ensures o.Pass? <==> v.JNum? && v.n >= 1024
    ensures o.Fail? ==> o.error == InvalidSizeThreshold
  {
    if !v.JNum? || v.n < OneKB then Fail(InvalidSizeThreshold) else Pass
  }

  /** `RollingTimeOptions.assert`: one of the seven sanctioned periods. */
  function AssertTime(v: Json): (o: Outcome<Error>)
    ensures o.Pass? <==> v.JNum? && v.n in {5, 60, 3600, 86400, 604800, 2592000, 31104000}
    ensures o.Fail? ==> o.error == InvalidTimeThreshold
  {
    if v.JNum? && IsTime(v.n) then Pass else Fail(InvalidTimeThreshold)
  }

  /** The size constants are the stated products and grow in declaration order. */
  lemma SizeOptionsAscending()
    ensures OneKB == 1024 && FiveMB == 5_242_880 && HundredMB == 104_857_600
    ensures StrictlyIncreasing(SizeOptions)
  {
  }

  /** Every named size passes the size check. */
  lemma SizeOptionsAccepted()
    ensures forall i :: 0 <= i < |SizeOptions| ==> AssertSize(JNum(SizeOptions[i])).Pass?
  {
  }

  /** The size check's boundary sits exactly at one KiB. */
  lemma SizeBoundary()
    ensures AssertSize(JNum(1024)).Pass?
    ensures AssertSize(JNum(1023)).Fail?
    ensures AssertSize(JStr("2048")).Fail?
  {
  }

  /** Size acceptance is closed upwards. */
  lemma SizeUpwardClosed(n: int, m: int)
    requires AssertSize(JNum(n)).Pass?
    requires n <= m
    ensures AssertSize(JNum(m)).Pass?
  {
  }

  /** Each period is a multiple of the one it is derived from, and they grow in
      declaration order. */
  lemma TimeOptionsAscending()
    ensures TimeOptions == [5, 60, 3600, 86400, 604800, 2592000, 31104000]
    ensures Hourly == 60 * Minutely && Daily == 24 * Hourly && Weekly == 7 * Daily
    ensures Monthly == 30 * Daily && Yearly == 12 * Monthly
    ensures StrictlyIncreasing(TimeOptions)
  {
  }

  /** Values between the sanctioned periods are rejected. */
  lemma TimeRejectsOthers()
    ensures AssertTime(JNum(0)).Fail?
    ensures AssertTime(JNum(3599)).Fail?
    ensures AssertTime(JNum(3600)).Pass?
  {
  }
}
