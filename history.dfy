/**
 * The duration flag of the `history` and `logbook` commands (cmd/hago/cmd/history.go):
 * Go's duration syntax plus a "<N>d" form for whole days. Durations are int64
 * nanosecond counts, as Go's time.Duration.
 */
module History {

  import opened Wrappers
  import opened Strings
  import opened Errors
  import opened Scan

  const NanosPerHour: int := 3_600_000_000_000
  const NanosPerDay: int := 24 * NanosPerHour

  /** The flag default of both commands (history.go:52, logbook.go:50). */
  const DefaultDuration: string := "24h"

  /** Two's-complement wrap-around of an int64 product, as Go's `*` on time.Duration. */
  function WrapInt64(x: int): (r: int)
    ensures InInt64(r)
    ensures (r - x) % 0x1_0000_0000_0000_0000 == 0
  {
    var m := x % 0x1_0000_0000_0000_0000;
    if m <= Int64Max then m else m - 0x1_0000_0000_0000_0000
  }

  lemma WrapInt64Identity(x: int)
    requires InInt64(x)
    ensures WrapInt64(x) == x
  {
  }

  /** A flag value that takes the days branch: longer than one character and ending in 'd'. */
  predicate IsDaysForm(s: string) {
    |s| > 1 && s[|s| - 1] == 'd'
  }

  /**
   * parseDuration. A days-form string is read with Sscanf(s, "%dd") and multiplied out
   * to nanoseconds; every other string goes unchanged to `parseStd`, which stands for
   * time.ParseDuration.
   */
  function ParseDuration(s: string, parseStd: string -> Result<int, Error>): (r: Result<int, Error>)
    ensures !IsDaysForm(s) ==> r == parseStd(s)
    ensures IsDaysForm(s) ==>
      (r.Success? <==> ScanIntThen(s, 'd').Success?)
    ensures IsDaysForm(s) && r.Success? ==>
      r.value == WrapInt64(ScanIntThen(s, 'd').value * NanosPerDay)
  {
    if IsDaysForm(s) then
      match ScanIntThen(s, 'd')
      case Success(days) => Success(WrapInt64(days * NanosPerDay))
      case Failure(f) => Failure(Library(FailureText(f)))
    else parseStd(s)
  }

  /** "<N>d" is N days, for every N an int can hold (with Go's wrap-around on overflow). */
  lemma DaysRoundTrip(n: int, parseStd: string -> Result<int, Error>)
    requires InInt64(n)
    ensures ParseDuration(IntToString(n) + "d", parseStd) == Success(WrapInt64(n * NanosPerDay))
  {
    var s := IntToString(n) + "d";
    ScanIntOfDecimal(n, "d");
    assert s[|IntToString(n)|] == 'd';
  }

  /** Up to 106751 days the product fits in an int64, so "<N>d" is exactly N * 24 hours. */
  lemma DaysWithoutOverflow(n: int, parseStd: string -> Result<int, Error>)
    requires -106751 <= n <= 106751
    ensures ParseDuration(IntToString(n) + "d", parseStd) == Success(n * 24 * NanosPerHour)
  {
    DaysRoundTrip(n, parseStd);
    DayProductFits(n);
    WrapInt64Identity(n * NanosPerDay);
  }

  lemma DayProductFits(n: int)
    requires -106751 <= n <= 106751
    ensures InInt64(n * NanosPerDay) && n * NanosPerDay == n * 24 * NanosPerHour
  {
    MulMonotone(n, 106751, NanosPerDay);
    MulMonotone(-106751, n, NanosPerDay);
    assert n * 24 * NanosPerHour == n * (24 * NanosPerHour);
  }

  lemma MulMonotone(a: int, b: int, c: int)
    requires a <= b && 0 <= c
    ensures a * c <= b * c
  {
  }

  /** In the days branch, a string with no leading integer is an error, never a duration. */
  lemma NoLeadingIntegerFails(s: string, parseStd: string -> Result<int, Error>)
    requires IsDaysForm(s)
    requires ScanInt(s).Failure?
    ensures ParseDuration(s, parseStd).Failure?
  {
  }

  /** The single character "d" and the default "24h" are left to the standard parser. */
  lemma StandardBranch(parseStd: string -> Result<int, Error>)
    ensures ParseDuration("d", parseStd) == parseStd("d")
    ensures ParseDuration(DefaultDuration, parseStd) == parseStd(DefaultDuration)
  {
  }
}
