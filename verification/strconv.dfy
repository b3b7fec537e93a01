/** The conversions of Go's strconv package the core uses: Itoa, Atoi (base 10) and the
    Quote that Atoi's errors put around their input. */
module Strconv {
  import opened Outcomes

  const MinInt64: int := -0x8000_0000_0000_0000
  const MaxInt64: int := 0x7fff_ffff_ffff_ffff

  predicate IsDigit(c: char) { '0' <= c <= '9' }

  function DigitChar(d: nat): char
    requires d < 10
  {
    "0123456789"[d]
  }

  function DigitValue(c: char): nat
    requires IsDigit(c)
  {
    (c as int - '0' as int) as nat
  }

  /** The decimal digits of a natural number, without leading zeros. */
  function Digits(n: nat): (s: string)
    ensures |s| > 0
    ensures forall i :: 0 <= i < |s| ==> IsDigit(s[i])
    decreases n
  {
    if n < 10 then [DigitChar(n)] else Digits(n / 10) + [DigitChar(n % 10)]
  }

  /** strconv.Itoa: the decimal form of an int, with a leading '-' when negative. */
  function Itoa(n: int): (s: string)
    ensures |s| > 0 && (IsDigit(s[0]) || s[0] == '-')
  {
    if n < 0 then "-" + Digits(-n) else Digits(n)
  }

  /** The value of a non-empty string of decimal digits. */
  function DigitsValue(s: string): nat
    requires forall i :: 0 <= i < |s| ==> IsDigit(s[i])
    decreases |s|
  {
    if |s| == 0 then 0 else DigitsValue(s[..|s| - 1]) * 10 + DigitValue(s[|s| - 1])
  }

  predicate AllDigits(s: string) {
    |s| > 0 && forall i :: 0 <= i < |s| ==> IsDigit(s[i])
  }

  /** The integer a string spells in base 10 (an optional sign then at least one digit),
      before Atoi's 64-bit range check. */
  function ParseInt(s: string): Option<int>
  {
    if |s| > 0 && (s[0] == '-' || s[0] == '+') then
      if AllDigits(s[1..]) then
        Some(if s[0] == '-' then -(DigitsValue(s[1..]) as int) else DigitsValue(s[1..]))
      else None
    else if AllDigits(s) then Some(DigitsValue(s))
    else None
  }

  /** A character Quote writes as it is: printable ASCII other than the quote and the
      backslash, and every character beyond ASCII. */
  predicate KeptByQuote(c: char) {
    c != '"' && c != '\\' && (0x20 <= c as int < 0x7f || 0x80 <= c as int)
  }

  predicate PrintableASCII(s: string) {
    forall i :: 0 <= i < |s| ==> 0x20 <= s[i] as int < 0x7f
  }

  /** What follows the backslash for an ASCII control character: the letter of one of the
      seven C escapes, or x and two lower-case hex digits. */
  function ControlEscape(n: nat): (s: string)
    requires n < 0x20 || n == 0x7f
    ensures 1 <= |s| && PrintableASCII(s) && '"' !in s
  {
    if n == 0x07 then "a"
    else if n == 0x08 then "b"
    else if n == 0x0c then "f"
    else if n == 0x0a then "n"
    else if n == 0x0d then "r"
    else if n == 0x09 then "t"
    else if n == 0x0b then "v"
    else "x" + ["0123456789abcdef"[n / 16], "0123456789abcdef"[n % 16]]
  }

  /** How strconv.Quote writes one character between the quotes: the quote and the backslash
      behind a backslash, an ASCII control character as a backslash escape. */
  function QuoteChar(c: char): (s: string)
    ensures KeptByQuote(c) <==> s == [c]
    ensures !KeptByQuote(c) ==> 2 <= |s| && s[0] == '\\' && PrintableASCII(s)
    ensures c as int < 0x80 ==> PrintableASCII(s)
    ensures forall i :: 0 <= i < |s| && s[i] == '"' ==> i == 1 && s[0] == '\\'
  {
    if c == '"' || c == '\\' then ['\\', c]
    else if KeptByQuote(c) then [c]
    else ['\\'] + ControlEscape(c as int)
  }

  /** The characters of a string as Quote writes them, one after the other. */
  function Escape(s: string): (r: string)
    ensures |r| >= |s|
    decreases |s|
  {
    if s == [] then [] else QuoteChar(s[0]) + Escape(s[1..])
  }

  /** strconv.Quote: the string between double quotes, escaped character by character. */
  function Quote(s: string): (r: string)
    ensures |r| >= |s| + 2 && r[0] == '"' && r[|r| - 1] == '"'
  {
    "\"" + Escape(s) + "\""
  }

  /** A string of characters Quote keeps appears between the quotes unchanged. */
  lemma {:induction false} QuoteKeeps(s: string)
    requires forall i :: 0 <= i < |s| ==> KeptByQuote(s[i])
    ensures Escape(s) == s
    ensures Quote(s) == "\"" + s + "\""
    decreases |s|
  {
    if s != [] {
      QuoteKeeps(s[1..]);
      assert s == [s[0]] + s[1..];
    }
  }

  /** Escaping works character by character, so the escaped text of a concatenation is the
      concatenation of the escaped texts. */
  lemma {:induction false} EscapeAppend(a: string, b: string)
    ensures Escape(a + b) == Escape(a) + Escape(b)
    decreases |a|
  {
    if a == [] {
      assert a + b == b;
    } else {
      assert (a + b)[0] == a[0] && (a + b)[1..] == a[1..] + b;
      EscapeAppend(a[1..], b);
    }
  }

  lemma PrintableAppend(a: string, b: string)
    requires PrintableASCII(a) && PrintableASCII(b)
    ensures PrintableASCII(a + b)
  {
    assert forall i :: 0 <= i < |a + b| ==> (a + b)[i] == if i < |a| then a[i] else b[i - |a|];
  }

  /** An ASCII string, control characters and quotes included, is quoted as printable ASCII. */
  lemma {:induction false} QuoteASCIIPrintable(s: string)
    requires forall i :: 0 <= i < |s| ==> s[i] as int < 0x80
    ensures PrintableASCII(Escape(s))
    ensures PrintableASCII(Quote(s))
    decreases |s|
  {
    if s != [] {
      QuoteASCIIPrintable(s[1..]);
      PrintableAppend(QuoteChar(s[0]), Escape(s[1..]));
    }
    PrintableAppend("\"", Escape(s));
    PrintableAppend("\"" + Escape(s), "\"");
  }

  /** strconv.Atoi on a 64-bit platform: a syntax error for anything but an optionally signed
      run of decimal digits, a range error for a value outside int64. */
  function Atoi(s: string): (r: Result<int>)
    ensures r.Success? ==> MinInt64 <= r.value <= MaxInt64
    ensures r.Success? <==> ParseInt(s).Some? && MinInt64 <= ParseInt(s).value <= MaxInt64
  {
    match ParseInt(s)
    case None => Failure("strconv.Atoi: parsing " + Quote(s) + ": invalid syntax")
    case Some(v) =>
      if MinInt64 <= v <= MaxInt64 then Success(v)
      else Failure("strconv.Atoi: parsing " + Quote(s) + ": value out of range")
  }

  lemma QuotedMessage(s: string, e: string)
    requires forall i :: 0 <= i < |s| ==> KeptByQuote(s[i])
    ensures "strconv.Atoi: parsing " + Quote(s) + e == "strconv.Atoi: parsing \"" + s + "\"" + e
  {
    QuoteKeeps(s);
  }

  /** Atoi's errors quote the input: a string of characters Quote keeps appears between
      double quotes as it is, as in parsing "12a": invalid syntax. */
  lemma AtoiErrorQuotes(s: string)
    requires forall i :: 0 <= i < |s| ==> KeptByQuote(s[i])
    ensures ParseInt(s).None? ==>
              Atoi(s) == Failure("strconv.Atoi: parsing \"" + s + "\"" + ": invalid syntax")
    ensures ParseInt(s).Some? && !(MinInt64 <= ParseInt(s).value <= MaxInt64) ==>
              Atoi(s) == Failure("strconv.Atoi: parsing \"" + s + "\"" + ": value out of range")
  {
    QuotedMessage(s, ": invalid syntax");
    QuotedMessage(s, ": value out of range");
  }

  lemma {:induction false} DigitsRoundTrip(n: nat)
    ensures DigitsValue(Digits(n)) == n
    decreases n
  {
    if n >= 10 {
      var s := Digits(n);
      DigitsRoundTrip(n / 10);
      assert s[..|s| - 1] == Digits(n / 10);
    }
  }

  /** Reading back what Itoa wrote gives the same number. */
  lemma ParseItoa(n: int)
    ensures ParseInt(Itoa(n)) == Some(n)
  {
    var s := Itoa(n);
    if n < 0 {
      var d := Digits(-n);
      DigitsRoundTrip(-n);
      assert s == "-" + d;
      assert s[0] == '-' && s[1..] == d && AllDigits(d);
    } else {
      var d := Digits(n);
      DigitsRoundTrip(n);
      assert s == d && AllDigits(d) && IsDigit(s[0]);
    }
  }

  /** Atoi inverts Itoa on every 64-bit integer. */
  lemma AtoiItoa(n: int)
    requires MinInt64 <= n <= MaxInt64
    ensures Atoi(Itoa(n)) == Success(n)
  {
    ParseItoa(n);
  }

  /** Distinct integers have distinct decimal forms. */
  lemma ItoaInjective(a: int, b: int)
    ensures Itoa(a) == Itoa(b) ==> a == b
  {
    ParseItoa(a);
    ParseItoa(b);
  }
}
