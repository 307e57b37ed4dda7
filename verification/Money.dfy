// formatUSD: the amount text of the notification log line, with Go's int64 arithmetic.
module Money {
  import opened Integers
  import opened Text

  newtype int64 = x: int | MIN_INT64 <= x <= MAX_INT64

  /** Negation on int64: the minimum has no positive counterpart and wraps around to itself. */
  function Negate(x: int64): int64 {
    if x as int == MIN_INT64 then x else -x
  }

  /** Go divides toward zero; the remainder takes the dividend's sign. */
  function Quo(x: int, y: int): int
    requires y > 0
  {
    if x >= 0 then x / y else -(-x / y)
  }

  function Rem(x: int, y: int): int
    requires y > 0
  {
    x - Quo(x, y) * y
  }

  function Digit(d: int): char
    requires 0 <= d < 10
  {
    '0' + d as char
  }

  predicate IsDigit(c: char) {
    '0' <= c <= '9'
  }

  /** Decimal digits of a natural number, as %d prints them. */
  function Digits(n: nat): (r: string)
    ensures r != "" && forall i :: 0 <= i < |r| ==> IsDigit(r[i])
  {
    if n < 10 then [Digit(n)] else Digits(n / 10) + [Digit(n % 10)]
  }

  /** %d */
  function Signed(x: int): string {
    if x < 0 then "-" + Digits(-x) else Digits(x)
  }

  /** %02d: zero padding counts the sign. */
  function Signed02(x: int): string {
    var t := Signed(x);
    if |t| >= 2 then t else "0" + t
  }

  /** $%d.%02d */
  function FormatMagnitude(magnitude: int): (text: string)
    ensures text != "" && text[0] == '$'
  {
    "$" + Signed(Quo(magnitude, 100)) + "." + Signed02(Rem(magnitude, 100))
  }

  function FormatUSD(cents: int64): string {
    if cents < 0 then "-" + FormatMagnitude(Negate(cents) as int)
    else FormatMagnitude(cents as int)
  }

  /** The value of a digit string; None when it is empty or holds another character. */
  function ParseDigits(s: string): Option<int> {
    if s == "" || !IsDigit(s[|s| - 1]) then None
    else
      var d := s[|s| - 1] as int - '0' as int;
      if |s| == 1 then Some(d)
      else match ParseDigits(s[..|s| - 1])
        case None => None
        case Some(n) => Some(10 * n + d)
  }

  /** Reads '$', a digit string, '.', and exactly two digits. */
  function ParseMagnitude(body: string): Option<int> {
    if |body| < 5 || body[0] != '$' || body[|body| - 3] != '.' then None
    else
      match (ParseDigits(body[1..|body| - 3]), ParseDigits(body[|body| - 2..]))
      case (Some(dollars), Some(cents)) => Some(100 * dollars + cents)
      case _ => None
  }

  /** Reads an optional '-' before the magnitude. */
  function ParseUSD(s: string): Option<int> {
    if s != "" && s[0] == '-' then
      match ParseMagnitude(s[1..])
      case Some(m) => Some(-m)
      case None => None
    else ParseMagnitude(s)
  }

  lemma {:induction false} ParseUndoesDigits(n: nat)
    ensures ParseDigits(Digits(n)) == Some(n)
  {
    if n >= 10 {
      ParseUndoesDigits(n / 10);
      var r := Digits(n);
      assert r[..|r| - 1] == Digits(n / 10);
    }
  }

  lemma TwoDigits(c: nat)
    requires c < 100
    ensures |Signed02(c)| == 2 && ParseDigits(Signed02(c)) == Some(c)
  {
    var t := Signed(c);
    if c >= 10 {
      assert Digits(c / 10) == [Digit(c / 10)];
      assert t == [Digit(c / 10), Digit(c % 10)];
      assert t[..1] == [Digit(c / 10)];
    } else {
      var r := Signed02(c);
      assert r == ['0', Digit(c)];
      assert r[..1] == ['0'];
    }
  }

  lemma SplitsAtTheDot(dollars: string, cents: string, text: string)
    requires |cents| == 2 && dollars != ""
    requires text == "$" + dollars + "." + cents
    ensures |text| >= 5 && text[0] == '$' && text[|text| - 3] == '.'
    ensures text[1..|text| - 3] == dollars && text[|text| - 2..] == cents
  {
  }

  lemma {:induction false} ParseNeedsDigits(s: string)
    requires s != "" && !IsDigit(s[0])
    ensures ParseDigits(s) == None
  {
    if |s| > 1 {
      ParseNeedsDigits(s[..|s| - 1]);
    }
  }

  /** The minimum prints with its sign still on the dollars and on the cents: "-$-92233720368547758.-8". */
  lemma MinimumDoesNotParse()
    ensures ParseUSD(FormatUSD(MIN_INT64 as int64)) == None
  {
    var dollars, cents := "-" + Digits(92233720368547758), "-" + Digits(8);
    assert cents == "-8";
    var text := FormatUSD(MIN_INT64 as int64);
    SplitsAtTheDot(dollars, cents, text[1..]);
    ParseNeedsDigits(dollars);
  }

  /** A text cut at its dot is read as its two parts are. */
  lemma PartsParse(dollars: string, cents: string, text: string, a: int, b: int)
    requires |cents| == 2 && dollars != "" && text == "$" + dollars + "." + cents
    requires ParseDigits(dollars) == Some(a) && ParseDigits(cents) == Some(b)
    ensures ParseMagnitude(text) == Some(100 * a + b)
  {
    hide ParseDigits;
    SplitsAtTheDot(dollars, cents, text);
  }

  lemma MagnitudeParses(magnitude: nat)
    ensures ParseMagnitude(FormatMagnitude(magnitude)) == Some(magnitude)
  {
    var dollars, cents := magnitude / 100, magnitude % 100;
    TwoDigits(cents);
    ParseUndoesDigits(dollars);
    assert Signed(dollars) == Digits(dollars) && Digits(dollars) != "";
    hide ParseDigits, ParseMagnitude, Digits, Signed, Signed02;
    PartsParse(Signed(dollars), Signed02(cents), FormatMagnitude(magnitude), dollars, cents);
  }

  lemma FormatUSDParses(cents: int64)
    requires cents as int != MIN_INT64
    ensures ParseUSD(FormatUSD(cents)) == Some(cents as int)
  {
    var magnitude: nat := if cents < 0 then -(cents as int) else cents as int;
    MagnitudeParses(magnitude);
    var text := FormatMagnitude(magnitude);
    if cents < 0 {
      assert ("-" + text)[1..] == text;
    }
  }

  lemma CentsShape(cents: nat)
    requires cents < 100
    ensures Signed02(cents) == [Digit(cents / 10), Digit(cents % 10)]
  {
    if cents >= 10 {
      assert Digits(cents / 10) == [Digit(cents / 10)];
    }
  }

  lemma Split(dollars: nat, cents: nat)
    requires cents < 100
    ensures Quo(100 * dollars + cents, 100) == dollars && Rem(100 * dollars + cents, 100) == cents
  {
  }

  lemma MagnitudeShape(dollars: nat, cents: nat)
    requires cents < 100
    ensures FormatMagnitude(100 * dollars + cents) == "$" + Digits(dollars) + "." + [Digit(cents / 10), Digit(cents % 10)]
  {
    hide Digits, Digit, Quo, Rem, Signed02;
    Split(dollars, cents);
    CentsShape(cents);
  }

  /** A dollar sign, the dollars without leading zeros, a dot and two digits of cents, and a minus sign before a negative amount. */
  lemma FormatUSDShape(dollars: nat, cents: nat)
    requires cents < 100 && 100 * dollars + cents <= 0x7FFF_FFFF_FFFF_FFFF
    ensures var text := "$" + Digits(dollars) + "." + [Digit(cents / 10), Digit(cents % 10)];
      FormatUSD((100 * dollars + cents) as int64) == text &&
      (dollars > 0 || cents > 0 ==> FormatUSD(-(100 * dollars + cents) as int64) == "-" + text)
  {
    hide FormatMagnitude;
    MagnitudeShape(dollars, cents);
  }

  /** The printed amount can be read back for every int64 except the minimum, whose negation wraps around. */
  lemma FormatUSDRoundTrip(cents: int64)
    ensures ParseUSD(FormatUSD(cents)) == if cents as int == -0x8000_0000_0000_0000 then None else Some(cents as int)
  {
    if cents as int == MIN_INT64 {
      MinimumDoesNotParse();
    } else {
      FormatUSDParses(cents);
    }
  }

  /** Distinct amounts print differently, the minimum included. */
  lemma FormatUSDInjective(a: int64, b: int64)
    requires FormatUSD(a) == FormatUSD(b)
    ensures a == b
  {
    FormatUSDRoundTrip(a);
    FormatUSDRoundTrip(b);
  }
}
