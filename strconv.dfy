/**
 * Go's `strconv.ParseInt(s, 36, 64)`, the routine the quote service uses to
 * read a postcode as a base-36 number, together with its inverse
 * `strconv.FormatInt(n, 36)`.
 *
 * The unsigned part (`ParseUint`) walks the digits left to right and stops at
 * the first failure: a byte that is not a base-36 digit is a syntax error, an
 * accumulated value that no longer fits in 64 unsigned bits is a range error.
 * `ParseInt` strips one optional sign, calls `ParseUint` and then checks the
 * signed 64-bit range. Every error carries the whole input string.
 */
module Strconv {
  import opened Wrappers

  /** `strconv.ErrSyntax` and `strconv.ErrRange`. */
  datatype NumErrorKind = ErrSyntax | ErrRange

  /** `*strconv.NumError` as returned by `ParseInt`: the input and the reason. */
  datatype NumError = NumError(num: string, err: NumErrorKind)

  const Base: nat := 36
  const MaxUint64: nat := 0xFFFF_FFFF_FFFF_FFFF
  /** The smallest number n with n * 36 > MaxUint64, as `ParseUint` computes it. */
  const Cutoff: nat := MaxUint64 / Base + 1
  /** 1 << 63: int64 holds -Int64Cutoff .. Int64Cutoff - 1. */
  const Int64Cutoff: nat := 0x8000_0000_0000_0000

  predicate InInt64(n: int) {
    -(Int64Cutoff as int) <= n < Int64Cutoff
  }

  /** Base-36 digits: 0-9, then the letters in either case. */
  predicate IsDigit(c: char) {
    '0' <= c <= '9' || 'a' <= c <= 'z' || 'A' <= c <= 'Z'
  }

  function DigitValue(c: char): (d: nat)
    requires IsDigit(c)
    ensures d < Base
  {
    if '0' <= c <= '9' then c as int - '0' as int
    else if 'a' <= c <= 'z' then c as int - 'a' as int + 10
    else c as int - 'A' as int + 10
  }

  /** The digit `FormatInt` writes for d: 0-9, then lower-case letters. */
  function DigitChar(d: nat): (c: char)
    requires d < Base
    ensures IsDigit(c) && DigitValue(c) == d
  {
    if d < 10 then ('0' as int + d) as char else ('a' as int + d - 10) as char
  }

  predicate AllDigits(s: string) {
    forall i :: 0 <= i < |s| ==> IsDigit(s[i])
  }

  /** The number of leading base-36 digits of s. */
  function DigitPrefixLength(s: string): (k: nat)
    ensures k <= |s| && AllDigits(s[..k]) && (k < |s| ==> !IsDigit(s[k]))
  {
    if s == [] || !IsDigit(s[0]) then 0
    else
      var k := 1 + DigitPrefixLength(s[1..]);
      assert s[..k] == [s[0]] + s[1..][..k - 1];
      k
  }

  /** Mathematical base-36 value of the digits s, read after the value n. */
  function Fold(n: nat, s: string): nat
    requires AllDigits(s)
    decreases s
  {
    if s == [] then n else Fold(n * Base + DigitValue(s[0]), s[1..])
  }

  /** The mathematical value of a string of base-36 digits. */
  function Value(s: string): nat
    requires AllDigits(s)
  {
    Fold(0, s)
  }

  /** `ParseUint`'s loop from the point where it has accumulated n. */
  function ParseUintFrom(s: string, n: nat): (r: Result<nat, NumErrorKind>)
    requires n <= MaxUint64
    ensures r.Ok? ==> n <= r.value <= MaxUint64
  {
    if s == [] then Ok(n)
    else if !IsDigit(s[0]) then Err(ErrSyntax)
    else if n >= Cutoff then Err(ErrRange)                               // n * 36 overflows
    else if n * Base + DigitValue(s[0]) > MaxUint64 then Err(ErrRange)  // n + d overflows
    else ParseUintFrom(s[1..], n * Base + DigitValue(s[0]))
  }

  /** `strconv.ParseUint(s, 36, 64)`; only the error kind is kept. */
  function ParseUint(s: string): (r: Result<nat, NumErrorKind>)
    ensures r.Ok? ==> s != [] && r.value <= MaxUint64
  {
    if s == [] then Err(ErrSyntax) else ParseUintFrom(s, 0)
  }

  /** `strconv.ParseInt(s, 36, 64)`. */
  function ParseInt(s: string): (r: Result<int, NumError>)
    ensures r.Ok? ==> InInt64(r.value)
    ensures r.Err? ==> r.error.num == s
  {
    if s == [] then Err(NumError(s, ErrSyntax))
    else
      var neg := s[0] == '-';
      var digits := if s[0] == '+' || s[0] == '-' then s[1..] else s;
      match ParseUint(digits)
      case Err(ErrSyntax) => Err(NumError(s, ErrSyntax))
      case Err(ErrRange) => Err(NumError(s, ErrRange))
      case Ok(un) =>
        if !neg && un >= Int64Cutoff then Err(NumError(s, ErrRange))
        else if neg && un > Int64Cutoff then Err(NumError(s, ErrRange))
        else Ok(if neg then -(un as int) else un)
  }

  /** `strconv.FormatUint(n, 36)`. */
  function FormatUint(n: nat): (s: string)
    ensures s != [] && AllDigits(s)
  {
    if n < Base then [DigitChar(n)] else FormatUint(n / Base) + [DigitChar(n % Base)]
  }

  /** `strconv.FormatInt(n, 36)`. */
  function FormatInt(n: int): string {
    if n < 0 then "-" + FormatUint(-n) else FormatUint(n)
  }

  // ---------------------------------------------------------------------------
  // Properties

  lemma {:induction false} FoldAtLeast(n: nat, s: string)
    requires AllDigits(s)
    ensures Fold(n, s) >= n
    ensures s != [] ==> Fold(n, s) >= n * Base + DigitValue(s[0])
    decreases s
  {
    if s != [] {
      FoldAtLeast(n * Base + DigitValue(s[0]), s[1..]);
    }
  }

  lemma {:induction false} FoldSnoc(n: nat, s: string, c: char)
    requires AllDigits(s) && IsDigit(c)
    ensures AllDigits(s + [c]) && Fold(n, s + [c]) == Fold(n, s) * Base + DigitValue(c)
    decreases s
  {
    assert AllDigits(s + [c]);
    if s != [] {
      assert (s + [c])[1..] == s[1..] + [c];
      FoldSnoc(n * Base + DigitValue(s[0]), s[1..], c);
    }
  }

  /** The loop from n agrees with the reference reading: range error when the
      value of the digit prefix exceeds 64 bits, else syntax error when a
      non-digit follows, else the value of the whole string. */
  lemma {:induction false} ParseUintFromSpec(s: string, n: nat)
    requires n <= MaxUint64
    ensures var k := DigitPrefixLength(s);
      ParseUintFrom(s, n) ==
        if Fold(n, s[..k]) > MaxUint64 then Err(ErrRange)
        else if k < |s| then Err(ErrSyntax)
        else Ok(Fold(n, s))
  {
    var k := DigitPrefixLength(s);
    if s == [] {
    } else if !IsDigit(s[0]) {
      assert s[..k] == [];
    } else {
      var d := DigitValue(s[0]);
      assert s[..k][0] == s[0];
      assert s[..k][1..] == s[1..][..k - 1];
      FoldAtLeast(n, s[..k]);
      if n < Cutoff && n * Base + d <= MaxUint64 {
        ParseUintFromSpec(s[1..], n * Base + d);
        assert s[..k] != [];
      } else {
        assert n * Base + d > MaxUint64;
      }
    }
  }

  /** `ParseUint` in terms of the mathematical value of the input. */
  lemma ParseUintSpec(s: string)
    ensures var k := DigitPrefixLength(s);
      ParseUint(s) ==
        if s == [] then Err(ErrSyntax)
        else if Value(s[..k]) > MaxUint64 then Err(ErrRange)
        else if k < |s| then Err(ErrSyntax)
        else Ok(Value(s))
  {
    if s != [] {
      ParseUintFromSpec(s, 0);
    }
  }

  /** The digits of s after an optional leading sign. */
  function Unsigned(s: string): string {
    if s != [] && (s[0] == '+' || s[0] == '-') then s[1..] else s
  }

  /** s is an optional sign followed by one or more base-36 digits. */
  predicate WellFormed(s: string) {
    Unsigned(s) != [] && AllDigits(Unsigned(s))
  }

  /** The signed value of a well-formed string. */
  function SignedValue(s: string): int
    requires WellFormed(s)
  {
    if s[0] == '-' then -(Value(Unsigned(s)) as int) else Value(Unsigned(s))
  }

  /** `ParseInt` succeeds exactly on a sign and digits whose value fits in
      int64, and then returns that value; otherwise it reports the input. */
  lemma ParseIntSpec(s: string)
    ensures ParseInt(s).Ok? <==> WellFormed(s) && InInt64(SignedValue(s))
    ensures ParseInt(s).Ok? ==> ParseInt(s).value == SignedValue(s)
    ensures ParseInt(s).Err? ==> ParseInt(s).error.num == s
  {
    if s != [] {
      var u := Unsigned(s);
      ParseUintSpec(u);
      if AllDigits(u) {
        assert u[..DigitPrefixLength(u)] == u;
      }
    }
  }

  lemma {:induction false} FormatUintValue(n: nat)
    ensures Value(FormatUint(n)) == n
  {
    if n < Base {
      var s := [DigitChar(n)];
      assert s[1..] == [];
      assert Fold(0, s) == Fold(DigitValue(s[0]), s[1..]);
    } else {
      FormatUintValue(n / Base);
      FoldSnoc(0, FormatUint(n / Base), DigitChar(n % Base));
    }
  }

  /** Reading what `FormatUint` writes gives the number back. */
  lemma ParseFormatUint(n: nat)
    requires n <= MaxUint64
    ensures ParseUint(FormatUint(n)) == Ok(n)
  {
    var s := FormatUint(n);
    FormatUintValue(n);
    ParseUintSpec(s);
    assert s[..DigitPrefixLength(s)] == s;
  }

  /** Reading what `FormatInt` writes gives every int64 back. */
  lemma FormatParseInt(n: int)
    requires InInt64(n)
    ensures ParseInt(FormatInt(n)) == Ok(n)
  {
    var s := FormatInt(n);
    if n < 0 {
      assert s[1..] == FormatUint(-n);
      ParseFormatUint(-n);
    } else {
      ParseFormatUint(n);
    }
  }
}
