/**
 * The part of fmt.Sscanf the command-line tool uses: the `%d` verb at the start of the
 * input into a 64-bit `int`, optionally followed by one literal character of the format.
 *
 * `%d` first skips fmt's spaces (a newline is an error for Sscanf, not a space), then
 * needs input, takes an optional sign, at least one decimal digit and then every further
 * digit, and the value must fit in 64 bits. Characters after the scanned token are never
 * looked at unless the format has more to match.
 */
module Scan {

  import opened Wrappers
  import opened Strings

  const Int64Min: int := -0x8000_0000_0000_0000
  const Int64Max: int := 0x7fff_ffff_ffff_ffff

  predicate InInt64(v: int) {
    Int64Min <= v <= Int64Max
  }

  /** Why a scan stopped; the texts fmt gives these are not part of the model. */
  datatype ScanFailure =
    | UnexpectedNewline
    | EndOfInput
    | ExpectedInteger
    | OutOfRange(token: string)
    | InputMismatch

  /** The error text fmt reports for each failure (end of input is reported as "unexpected EOF"). */
  function FailureText(f: ScanFailure): string {
    match f
    case UnexpectedNewline => "unexpected newline"
    case EndOfInput => "unexpected EOF"
    case ExpectedInteger => "expected integer"
    case OutOfRange(token) => "strconv.ParseInt: parsing \"" + token + "\": value out of range"
    case InputMismatch => "input does not match format"
  }

  /** fmt's table of space characters, without the newline, which Sscanf treats apart. */
  predicate IsScanSpace(c: char) {
    || ('\t' <= c <= '\r' && c != '\n')
    || c == ' ' || c == '\U{0085}' || c == '\U{00A0}' || c == '\U{1680}'
    || ('\U{2000}' <= c <= '\U{200A}') || c == '\U{2028}' || c == '\U{2029}'
    || c == '\U{202F}' || c == '\U{205F}' || c == '\U{3000}'
  }

  /** Skips spaces from index `i`; a newline among them fails the scan. */
  function SkipSpace(s: string, i: nat): (r: Result<nat, ScanFailure>)
    requires i <= |s|
    ensures r.Success? ==> i <= r.value <= |s|
    ensures r.Success? ==> forall k :: i <= k < r.value ==> IsScanSpace(s[k])
    ensures r.Success? && r.value < |s| ==> !IsScanSpace(s[r.value]) && s[r.value] != '\n'
    ensures r.Failure? ==> r.error == UnexpectedNewline
    decreases |s| - i
  {
    if i == |s| then Success(i)
    else if s[i] == '\n' then Failure(UnexpectedNewline)
    else if IsScanSpace(s[i]) then SkipSpace(s, i + 1)
    else Success(i)
  }

  /** The end of the run of decimal digits that starts at `i`. */
  function DigitsEnd(s: string, i: nat): (j: nat)
    requires i <= |s|
    ensures i <= j <= |s|
    ensures forall k :: i <= k < j ==> IsDigit(s[k])
    ensures j < |s| ==> !IsDigit(s[j])
    decreases |s| - i
  {
    if i < |s| && IsDigit(s[i]) then DigitsEnd(s, i + 1) else i
  }

  /**
   * Sscanf's `%d` at the start of `s`: the value scanned and the index just after its token.
   */
  function ScanInt(s: string): (r: Result<(int, nat), ScanFailure>)
    ensures r.Success? ==> InInt64(r.value.0) && 0 < r.value.1 <= |s|
    ensures r.Success? ==> IsDigit(s[r.value.1 - 1])
    ensures r.Success? && r.value.1 < |s| ==> !IsDigit(s[r.value.1])
  {
    match SkipSpace(s, 0)
    case Failure(f) => Failure(f)
    case Success(i) =>
      if i == |s| then Failure(EndOfInput)
      else
        var signed := s[i] == '+' || s[i] == '-';
        var j := if signed then i + 1 else i;
        if j == |s| then Failure(EndOfInput)
        else if !IsDigit(s[j]) then Failure(ExpectedInteger)
        else
          var k := DigitsEnd(s, j);
          var magnitude: int := DigitsValue(s[j..k]);
          var v := if s[i] == '-' then -magnitude else magnitude;
          if InInt64(v) then Success((v, k)) else Failure(OutOfRange(s[i..k]))
  }

  /**
   * Sscanf(s, "%d" + [lit]): `%d` and then the literal `lit`, which must be the very next
   * character of the input.
   */
  function ScanIntThen(s: string, lit: char): (r: Result<int, ScanFailure>)
    ensures r.Success? <==> ScanInt(s).Success? && ScanInt(s).value.1 < |s| && s[ScanInt(s).value.1] == lit
    ensures r.Success? ==> r.value == ScanInt(s).value.0
  {
    var (v, k) :- ScanInt(s);
    if k == |s| then Failure(EndOfInput)
    else if s[k] != lit then Failure(InputMismatch)
    else Success(v)
  }

  /** What `%d` reads from the start of the decimal text of `n` is `n`, whatever non-digit follows. */
  lemma {:induction false} ScanIntOfDecimal(n: int, rest: string)
    requires InInt64(n)
    requires rest == [] || !IsDigit(rest[0])
    ensures ScanInt(IntToString(n) + rest) == Success((n, |IntToString(n)|))
  {
    var d := IntToString(n);
    var s := d + rest;
    var digits := NatToString(if n < 0 then -n else n);
    var j := if n < 0 then 1 else 0;
    assert s[0] == d[0];
    assert SkipSpace(s, 0) == Success(0);
    assert s[j..|d|] == digits;
    assert DigitsEnd(s, j) == |d| by {
      DigitsEndOfRun(s, j, |d|);
    }
    NatToStringRoundTrip(if n < 0 then -n else n);
  }

  lemma {:induction false} DigitsEndOfRun(s: string, i: nat, j: nat)
    requires i <= j <= |s|
    requires forall k :: i <= k < j ==> IsDigit(s[k])
    requires j == |s| || !IsDigit(s[j])
    ensures DigitsEnd(s, i) == j
    decreases j - i
  {
    if i < j {
      DigitsEndOfRun(s, i + 1, j);
    }
  }
}
