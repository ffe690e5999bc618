/**
 * The argument checks at the top of `main`: at least three argv entries,
 * then `atoi(argv[1])` must be neither 0 nor above 65535. `atoi` follows
 * the C library: skip leading white space, accept one optional sign, read
 * decimal digits up to the first non-digit; no digits read means 0.
 * Integers are unbounded here (C leaves `atoi` overflow undefined).
 */
module Startup {
  import opened Common

  /** Why `main` exits with EXIT_FAILURE before opening a socket. */
  datatype StartupError = Usage | InvalidPort

  /** The listener settings taken from the command line. */
  datatype Config = Config(port: int, websiteDirectory: string)

  /** `isspace` in the C locale: ' ', '\t', '\n', '\v', '\f', '\r'. */
  predicate IsSpace(c: char)
  {
    c == ' ' || '\t' <= c <= '\r'
  }

  predicate IsDigit(c: char)
  {
    '0' <= c <= '9'
  }

  predicate AllDigits(s: string)
  {
    forall i :: 0 <= i < |s| ==> IsDigit(s[i])
  }

  function DigitValue(c: char): nat
    requires IsDigit(c)
  {
    (c - '0') as nat
  }

  /** Drops the leading white space. */
  function SkipSpaces(s: string): string
  {
    if |s| > 0 && IsSpace(s[0]) then SkipSpaces(s[1..]) else s
  }

  /** The longest prefix made of decimal digits. */
  function LeadingDigits(s: string): (ds: string)
    ensures AllDigits(ds)
  {
    if |s| > 0 && IsDigit(s[0]) then [s[0]] + LeadingDigits(s[1..]) else []
  }

  /** The value of a digit string, most significant digit first. */
  function DecimalValue(ds: string): nat
    requires AllDigits(ds)
  {
    if |ds| == 0 then 0
    else DecimalValue(ds[..|ds| - 1]) * 10 + DigitValue(ds[|ds| - 1])
  }

  /** The value of the leading run of digits; 0 when there is none. */
  function ReadUnsigned(t: string): nat
  {
    DecimalValue(LeadingDigits(t))
  }

  /** One optional sign, then the leading digits. */
  function ReadSigned(t: string): int
  {
    if |t| > 0 && t[0] == '-' then -(ReadUnsigned(t[1..]) as int)
    else if |t| > 0 && t[0] == '+' then ReadUnsigned(t[1..])
    else ReadUnsigned(t)
  }

  /** `atoi` on mathematical integers: a non-zero result needs a digit in the text. */
  function Atoi(s: string): (r: int)
    ensures r != 0 ==> exists i :: 0 <= i < |s| && IsDigit(s[i])
  {
    var t := SkipSpaces(s);
    SkipSpacesSpec(s);
    var u := if |t| > 0 && (t[0] == '-' || t[0] == '+') then t[1..] else t;
    LeadingDigitsSpec(u);
    assert ReadSigned(t) != 0 ==> IsDigit(u[0]) && u[0] == s[|s| - |u|];
    ReadSigned(t)
  }

  /** What `SkipSpaces` drops is white space, and what it keeps does not start with white space. */
  lemma {:induction false} SkipSpacesSpec(s: string)
    ensures |SkipSpaces(s)| <= |s|
    ensures SkipSpaces(s) == s[|s| - |SkipSpaces(s)|..]
    ensures forall i :: 0 <= i < |s| - |SkipSpaces(s)| ==> IsSpace(s[i])
    ensures SkipSpaces(s) == [] || !IsSpace(SkipSpaces(s)[0])
  {
    if |s| > 0 && IsSpace(s[0]) {
      var tail := s[1..];
      SkipSpacesSpec(tail);
      var r := SkipSpaces(tail);
      assert SkipSpaces(s) == r;
      assert tail[|tail| - |r|..] == s[|s| - |r|..];
      forall i | 0 < i < |s| - |r|
        ensures IsSpace(s[i])
      {
        assert s[i] == tail[i - 1];
      }
    }
  }

  /** `LeadingDigits` is a prefix and stops at the end or at the first non-digit. */
  lemma {:induction false} LeadingDigitsSpec(s: string)
    ensures LeadingDigits(s) <= s
    ensures |LeadingDigits(s)| == |s| || !IsDigit(s[|LeadingDigits(s)|])
  {
    if |s| > 0 && IsDigit(s[0]) {
      LeadingDigitsSpec(s[1..]);
    }
  }

  /** Leading digits stop exactly where a digit run ends. */
  lemma {:induction false} LeadingDigitsOfDigitRun(ds: string, rest: string)
    requires AllDigits(ds)
    requires rest == [] || !IsDigit(rest[0])
    ensures LeadingDigits(ds + rest) == ds
  {
    if |ds| > 0 {
      assert (ds + rest)[1..] == ds[1..] + rest;
      LeadingDigitsOfDigitRun(ds[1..], rest);
    } else {
      assert ds + rest == rest;
    }
  }

  /** Leading white space is skipped and nothing after it is. */
  lemma {:induction false} SkipSpacesOverSpaces(ws: string, s: string)
    requires forall i :: 0 <= i < |ws| ==> IsSpace(ws[i])
    requires s == [] || !IsSpace(s[0])
    ensures SkipSpaces(ws + s) == s
  {
    if |ws| > 0 {
      assert (ws + s)[1..] == ws[1..] + s;
      SkipSpacesOverSpaces(ws[1..], s);
    } else {
      assert ws + s == s;
    }
  }

  /** `atoi` ignores leading white space. */
  lemma AtoiSkipsLeadingSpace(ws: string, t: string)
    requires forall i :: 0 <= i < |ws| ==> IsSpace(ws[i])
    requires t == [] || !IsSpace(t[0])
    ensures Atoi(ws + t) == Atoi(t)
  {
    SkipSpacesOverSpaces(ws, t);
  }

  /** `atoi` of a digit run followed by a non-digit is the value of the run, negated after a '-'. */
  lemma AtoiOfDigitRun(ds: string, rest: string)
    requires |ds| > 0 && AllDigits(ds)
    requires rest == [] || !IsDigit(rest[0])
    ensures Atoi(ds + rest) == DecimalValue(ds)
    ensures Atoi("+" + (ds + rest)) == DecimalValue(ds)
    ensures Atoi("-" + (ds + rest)) == -(DecimalValue(ds) as int)
  {
    var u := ds + rest;
    LeadingDigitsOfDigitRun(ds, rest);
    assert ReadUnsigned(u) == DecimalValue(ds);
    assert u[0] == ds[0];
    assert !IsSpace(u[0]) && u[0] != '-' && u[0] != '+';
    assert SkipSpaces(u) == u;
    assert ReadSigned(u) == ReadUnsigned(u);
    var plus, minus := "+" + u, "-" + u;
    assert plus[1..] == u && minus[1..] == u;
    assert SkipSpaces(plus) == plus;
    assert SkipSpaces(minus) == minus;
    assert ReadSigned(plus) == ReadUnsigned(u);
    assert ReadSigned(minus) == -(ReadUnsigned(u) as int);
  }

  /** Text that starts with neither white space, a sign nor a digit reads as 0. */
  lemma NonNumericReadsAsZero(s: string)
    requires |s| > 0 && !IsSpace(s[0]) && !IsDigit(s[0]) && s[0] != '-' && s[0] != '+'
    ensures Atoi(s) == 0
  {
  }

  /** A sign not directly followed by a digit reads as 0: `atoi("+ 80")` is 0. */
  lemma SignWithoutDigitReadsAsZero(s: string)
    requires |s| > 0 && (s[0] == '-' || s[0] == '+')
    requires |s| == 1 || !IsDigit(s[1])
    ensures Atoi(s) == 0
  {
    assert SkipSpaces(s) == s;
  }

  /** The canonical decimal spelling of a natural number. */
  function Decimal(n: nat): (s: string)
    ensures |s| > 0 && AllDigits(s)
  {
    if n < 10 then [('0' as int + n) as char]
    else Decimal(n / 10) + [('0' as int + n % 10) as char]
  }

  /** Reading back a decimal spelling gives the number. */
  lemma {:induction false} DecimalValueOfDecimal(n: nat)
    ensures DecimalValue(Decimal(n)) == n
  {
    if n >= 10 {
      var s := Decimal(n);
      assert s[..|s| - 1] == Decimal(n / 10);
      DecimalValueOfDecimal(n / 10);
    }
  }

  /** `atoi` inverts the decimal spelling, with or without a sign. */
  lemma AtoiOfDecimal(n: nat)
    ensures Atoi(Decimal(n)) == n
    ensures Atoi("+" + Decimal(n)) == n
    ensures Atoi("-" + Decimal(n)) == -(n as int)
  {
    var d := Decimal(n);
    DecimalValueOfDecimal(n);
    AtoiOfDigitRun(d, "");
    assert d + "" == d;
  }

  /**
   * The checks of `main` as written: fewer than three argv entries is a
   * usage error; a port `atoi` reads as 0 or above 65535 is invalid.
   */
  function CheckArgs(argv: seq<string>): (r: Result<Config, StartupError>)
    ensures r == Failure(Usage) <==> |argv| < 3
    ensures r.Success? ==> r.value == Config(Atoi(argv[1]), argv[2])
    ensures r.Success? ==> r.value.port != 0 && r.value.port <= 65535
    ensures |argv| >= 3 ==> (r.Success? <==> Atoi(argv[1]) != 0 && Atoi(argv[1]) <= 65535)
  {
    if |argv| < 3 then Failure(Usage)
    else
      var port := Atoi(argv[1]);
      if port == 0 || port > 65535 then Failure(InvalidPort)
      else Success(Config(port, argv[2]))
  }

  /** The port check as intended: only 1..65535 is a port. */
  function CheckArgsIntended(argv: seq<string>): (r: Result<Config, StartupError>)
    ensures r == Failure(Usage) <==> |argv| < 3
    ensures r.Success? ==> r.value == Config(Atoi(argv[1]), argv[2])
    ensures r.Success? ==> 1 <= r.value.port <= 65535
    ensures |argv| >= 3 ==> (r.Success? <==> 1 <= Atoi(argv[1]) <= 65535)
  {
    if |argv| < 3 then Failure(Usage)
    else
      var port := Atoi(argv[1]);
      if port < 1 || port > 65535 then Failure(InvalidPort)
      else Success(Config(port, argv[2]))
  }

  /** Every decimal port in 1..65535 is accepted, by both versions of the check. */
  lemma ValidPortAccepted(argv: seq<string>, n: nat)
    requires |argv| >= 3 && argv[1] == Decimal(n) && 1 <= n <= 65535
    ensures CheckArgs(argv) == Success(Config(n, argv[2]))
    ensures CheckArgsIntended(argv) == Success(Config(n, argv[2]))
  {
    AtoiOfDecimal(n);
  }

  /** A decimal port above 65535 that still fits a C `int` is rejected. */
  lemma LargePortRejected(argv: seq<string>, n: nat)
    requires |argv| >= 3 && argv[1] == Decimal(n) && 65535 < n <= 2147483647
    ensures CheckArgs(argv) == Failure(InvalidPort)
  {
    AtoiOfDecimal(n);
  }

  /** Non-numeric text such as "http" reads as port 0 and is rejected. */
  lemma NonNumericPortRejected(argv: seq<string>)
    requires |argv| >= 3 && |argv[1]| > 0
    requires !IsSpace(argv[1][0]) && !IsDigit(argv[1][0]) && argv[1][0] != '-' && argv[1][0] != '+'
    ensures CheckArgs(argv) == Failure(InvalidPort)
  {
    NonNumericReadsAsZero(argv[1]);
  }

  /**
   * As written, every negative decimal port that fits a C `int` passes the
   * check of `main`: "-1" is accepted.
   */
  lemma NegativePortAccepted(argv: seq<string>, n: nat)
    requires |argv| >= 3 && argv[1] == "-" + Decimal(n) && 0 < n <= 2147483648
    ensures CheckArgs(argv) == Success(Config(-(n as int), argv[2]))
    ensures CheckArgsIntended(argv) == Failure(InvalidPort)
  {
    AtoiOfDecimal(n);
  }

  /** The two checks disagree exactly on the ports that read as negative. */
  lemma ChecksDifferOnlyOnNegativePorts(argv: seq<string>)
    ensures CheckArgs(argv) != CheckArgsIntended(argv) <==> |argv| >= 3 && Atoi(argv[1]) < 0
  {
  }
}
