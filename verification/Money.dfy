/** Exact fixed-point money: decimal text to integer nano-USD and back, with no rounding anywhere. */
module Money {
  datatype Result<+T> = Ok(value: T) | Refused(why: Why)

  datatype Why = NotANumber | NotFinite | Negative | NotDecimal | ExponentOutOfRange | OverPrecise | TooLarge

  const NANO_PER_USD := 1_000_000_000
  const MAX_NANO := 1_000_000_000 * NANO_PER_USD
  const MAX_ABS_EXP := 40

  predicate IsDigit(c: char) { '0' <= c <= '9' }

  predicate IsNumeral(s: string) { forall i :: 0 <= i < |s| ==> IsDigit(s[i]) }

  function DigitValue(c: char): nat
    requires IsDigit(c)
  {
    c as int - '0' as int
  }

  function DigitChar(d: nat): (c: char)
    requires d < 10
    ensures IsDigit(c) && DigitValue(c) == d
  {
    ('0' as int + d) as char
  }

  /** The integer a numeral names; leading zeros are allowed. */
  function Numeral(s: string): nat
    requires IsNumeral(s)
  {
    if s == "" then 0 else 10 * Numeral(s[..|s| - 1]) + DigitValue(s[|s| - 1])
  }

  // ---- the durable form ----

  function FormatNano(n: nat): (s: string)
    ensures s != "" && IsNumeral(s)
  {
    if n < 10 then [DigitChar(n)] else FormatNano(n / 10) + [DigitChar(n % 10)]
  }

  function ParseNano(s: string): Result<nat> {
    if s == "" || !IsNumeral(s) then Refused(NotDecimal)
    else if Numeral(s) > MAX_NANO then Refused(TooLarge)
    else Ok(Numeral(s))
  }

  lemma {:induction false} FormatNames(n: nat)
    ensures Numeral(FormatNano(n)) == n
    ensures n > 0 ==> FormatNano(n)[0] != '0'
  {
    if n < 10 {
      assert [DigitChar(n)][..0] == "";
    } else {
      FormatNames(n / 10);
      var s := FormatNano(n);
      assert s[..|s| - 1] == FormatNano(n / 10);
    }
  }

  /** Reading back what was written is the identity up to the maximum, and refused exactly above it. */
  lemma ParseAfterFormat(n: nat)
    ensures ParseNano(FormatNano(n)) == if n <= MAX_NANO then Ok(n) else Refused(TooLarge)
  {
    FormatNames(n);
  }

  /** The other composition is not an identity: leading zeros are read and not written back. */
  lemma FormatAfterParseDropsZeros()
    ensures ParseNano("007") == Ok(7) && FormatNano(7) == "7"
  {
    assert "007"[..2] == "00" && "00"[..1] == "0" && "0"[..0] == "";
    assert DigitValue('7') == 7 && DigitValue('0') == 0;
    FormatNames(7);
    assert FormatNano(7) == [DigitChar(7)];
    assert DigitChar(7) == '7';
  }

  // ---- decimal text ----

  datatype Sign = Plus | Minus | Unsigned

  datatype Exponent = NoExponent | Exponent(mark: char, sign: Sign, digits: string) {
    predicate WellFormed() {
      Exponent? ==> (mark == 'e' || mark == 'E') && digits != "" && IsNumeral(digits)
    }
    function Value(): int
      requires WellFormed()
    {
      if NoExponent? then 0
      else
        var n: int := Numeral(digits);
        if sign == Minus then -n else n
    }
    function Text(): string {
      if NoExponent? then ""
      else [mark] + (match sign case Plus => "+" case Minus => "-" case Unsigned => "") + digits
    }
  }

  /** An amount as written: whole digits, fraction digits (empty when there is no point), exponent. */
  datatype Decimal = Decimal(whole: string, frac: string, exp: Exponent) {
    predicate WellFormed() {
      whole != "" && IsNumeral(whole) && IsNumeral(frac) && exp.WellFormed()
    }
    function Text(): string {
      whole + (if frac == "" then "" else "." + frac) + exp.Text()
    }
    /** The value that is written, as a real number. */
    function Usd(): real
      requires WellFormed()
    {
      Numeral(whole + frac) as real * Pow10(exp.Value() - |frac|)
    }
  }

  function Pow10(k: int): real
    decreases if k < 0 then -k else k
  {
    if k == 0 then 1.0 else if k > 0 then 10.0 * Pow10(k - 1) else Pow10(k + 1) / 10.0
  }

  function TenTo(k: nat): (r: nat)
    ensures r > 0
  {
    if k == 0 then 1 else 10 * TenTo(k - 1)
  }

  function DigitRun(s: string): (k: nat)
    ensures k <= |s| && IsNumeral(s[..k]) && (k < |s| ==> !IsDigit(s[k]))
  {
    if s == "" || !IsDigit(s[0]) then 0
    else
      var k := 1 + DigitRun(s[1..]);
      assert s[..k] == [s[0]] + s[1..][..k - 1];
      k
  }

  function ParseExponent(s: string): (r: Result<Exponent>)
    ensures r.Ok? ==> r.value.WellFormed() && r.value.Text() == s
  {
    if s == "" then Ok(NoExponent)
    else if s[0] != 'e' && s[0] != 'E' then Refused(NotDecimal)
    else
      var sign := if |s| > 1 && s[1] == '+' then Plus else if |s| > 1 && s[1] == '-' then Minus else Unsigned;
      var digits := if sign == Unsigned then s[1..] else s[2..];
      if digits == "" || DigitRun(digits) != |digits| then Refused(NotDecimal)
      else
        assert digits[..|digits|] == digits;
        Ok(Exponent(s[0], sign, digits))
  }

  lemma Associate(a: string, b: string, c: string)
    ensures a + b + c == a + (b + c)
  {
  }

  /** The optional point and fraction digits, and what follows them. */
  function ParseFraction(s: string): (r: Result<(string, string)>)
    ensures r.Ok? ==> IsNumeral(r.value.0) && s == (if r.value.0 == "" then "" else "." + r.value.0) + r.value.1
  {
    if s == "" || s[0] != '.' then Ok(("", s))
    else
      var m := DigitRun(s[1..]);
      if m == 0 then Refused(NotDecimal) else Ok((s[1..][..m], s[1..][m..]))
  }

  /** The grammar of an amount: digits, an optional point and digits, an optional exponent, nothing else. */
  function ParseDecimal(s: string): (r: Result<Decimal>)
    ensures r.Ok? ==> r.value.WellFormed()
  {
    var k := DigitRun(s);
    if k == 0 then Refused(NotDecimal)
    else
      match ParseFraction(s[k..]) {
        case Refused(why) => Refused(why)
        case Ok((frac, rest)) =>
          match ParseExponent(rest) {
            case Refused(why) => Refused(why)
            case Ok(exp) =>
              Ok(Decimal(s[..k], frac, exp))
          }
      }
  }

  /** Exact conversion: scale by 10^9 in integers, and refuse whatever does not divide. */
  function NanoOf(d: Decimal): Result<nat>
    requires d.WellFormed()
  {
    var exp := d.exp.Value();
    if exp > MAX_ABS_EXP || exp < -MAX_ABS_EXP then Refused(ExponentOutOfRange)
    else
      var n := Numeral(d.whole + d.frac);
      var scale := 9 + exp - |d.frac|;
      if scale >= 0 then Ok(n * TenTo(scale))
      else if n % TenTo(-scale) != 0 then Refused(OverPrecise)
      else Ok(n / TenTo(-scale))
  }

  function DecimalToNano(s: string): Result<nat> {
    match ParseDecimal(s)
    case Refused(why) => Refused(why)
    case Ok(d) => NanoOf(d)
  }

  lemma DigitRunOf(digits: string, rest: string)
    requires IsNumeral(digits) && (rest != "" ==> !IsDigit(rest[0]))
    ensures DigitRun(digits + rest) == |digits|
  {
    var s := digits + rest;
    if digits != "" {
      assert s[1..] == digits[1..] + rest;
      DigitRunOf(digits[1..], rest);
    }
  }

  lemma ExponentReadsBack(e: Exponent)
    requires e.WellFormed()
    ensures ParseExponent(e.Text()) == Ok(e)
    ensures e.Text() != "" ==> !IsDigit(e.Text()[0]) && e.Text()[0] != '.'
  {
    if e.Exponent? {
      var s := e.Text();
      assert e.digits + "" == e.digits;
      DigitRunOf(e.digits, "");
      if e.sign == Unsigned {
        assert s == [e.mark] + e.digits && s[1..] == e.digits && IsDigit(s[1]);
      } else {
        assert s[2..] == e.digits;
      }
    }
  }

  /** An accepted text is exactly the amount read from it, written out. */
  lemma ParsedIsWritten(s: string)
    requires ParseDecimal(s).Ok?
    ensures ParseDecimal(s).value.Text() == s
  {
    var k := DigitRun(s);
    var (frac, rest) := ParseFraction(s[k..]).value;
    var exp := ParseExponent(rest).value;
    Associate(s[..k], if frac == "" then "" else "." + frac, rest);
    assert s[..k] + s[k..] == s;
  }

  /** The grammar accepts every well-formed amount and reads back exactly what was written; with the lemma
      above, parsing and printing amounts are mutual inverses. */
  lemma DecimalReadsBack(d: Decimal)
    requires d.WellFormed()
    ensures ParseDecimal(d.Text()) == Ok(d)
  {
    hide ParseExponent, ParseFraction, IsDigit;
    ExponentReadsBack(d.exp);
    var rest := (if d.frac == "" then "" else "." + d.frac) + d.exp.Text();
    FractionReadsBack(d.frac, d.exp.Text());
    assert d.Text() == d.whole + rest;
    DigitRunOf(d.whole, rest);
  }

  lemma FractionReadsBack(frac: string, rest: string)
    requires IsNumeral(frac) && (rest != "" ==> !IsDigit(rest[0]) && rest[0] != '.')
    ensures var s := (if frac == "" then "" else "." + frac) + rest;
            ParseFraction(s) == Ok((frac, rest)) && (s != "" ==> !IsDigit(s[0]))
  {
    if frac == "" {
      assert "" + rest == rest;
    } else {
      var s := "." + frac + rest;
      assert s[1..] == frac + rest;
      DigitRunOf(frac, rest);
    }
  }

  // ---- powers of ten ----

  lemma {:induction false} Pow10Step(k: int)
    ensures Pow10(k + 1) == 10.0 * Pow10(k) && Pow10(k) > 0.0
    decreases if k < 0 then -k else k
  {
    if k < 0 {
      assert Pow10(k) == Pow10(k + 1) / 10.0;
      Pow10Step(k + 1);
    } else if k > 0 {
      Pow10Step(k - 1);
    }
  }

  lemma {:induction false} Pow10Plus(j: int, k: nat)
    ensures Pow10(j + k) == Pow10(j) * TenTo(k) as real
  {
    if k > 0 {
      Pow10Plus(j, k - 1);
      Pow10Step(j + k - 1);
      var a, b := Pow10(j), TenTo(k - 1) as real;
      assert 10.0 * (a * b) == a * (10.0 * b);
    }
  }

  /** Scaling an integer by a power of ten hits an integer exactly when the integer arithmetic says so. */
  lemma ScaledUp(n: nat, scale: nat, m: nat)
    ensures m as real == n as real * Pow10(scale) <==> m == n * TenTo(scale)
  {
    hide TenTo;
    Pow10Plus(0, scale);
    ProductAsReal(n, TenTo(scale));
  }

  lemma ProductAsReal(a: nat, b: nat)
    ensures (a * b) as real == a as real * b as real
  {
  }

  lemma ScaledDown(n: nat, scale: int, m: nat)
    requires scale < 0
    ensures m as real == n as real * Pow10(scale) <==> n % TenTo(-scale) == 0 && m == n / TenTo(-scale)
  {
    var div := TenTo(-scale);
    Pow10Plus(scale, -scale);
    DivideThrough(n as real, m as real, Pow10(scale), div as real);
    ProductAsReal(m, div);
    DividesExactly(n, m, div);
  }

  lemma DivideThrough(n: real, m: real, p: real, d: real)
    requires p * d == 1.0
    ensures m == n * p <==> m * d == n
  {
    if m == n * p { assert m * d == n * (p * d); }
    if m * d == n { assert n * p == m * (p * d); }
  }

  lemma DividesExactly(n: nat, m: nat, div: nat)
    requires div > 0
    ensures m * div == n <==> n % div == 0 && m == n / div
  {
    var q, r := n / div, n % div;
    assert n == q * div + r;
    if m * div == n {
      assert (m - q) * div == r;
      if m - q >= 1 { AtLeastOnce(m - q, div); }
      if m - q <= -1 { AtLeastOnce(q - m, div); }
    }
  }

  lemma AtLeastOnce(a: int, d: nat)
    requires a >= 1
    ensures a * d >= d
  {
  }

  /** The text writes an amount whose exponent is within the accepted range. */
  ghost predicate Writes(s: string, d: Decimal) {
    d.WellFormed() && d.Text() == s && -MAX_ABS_EXP <= d.exp.Value() <= MAX_ABS_EXP
  }

  /** Main result. Conversion answers n exactly when the text writes an amount whose value times 10^9 is the
      integer n; every other text is refused, and none is rounded. */
  lemma ConversionIsExact(s: string, n: nat)
    ensures DecimalToNano(s) == Ok(n) <==> exists d :: Writes(s, d) && n as real == d.Usd() * 1000000000.0
  {
    hide ParseDecimal, NanoOf;
    forall d: Decimal | d.WellFormed() && d.Text() == s ensures ParseDecimal(s) == Ok(d) { DecimalReadsBack(d); }
    var r := ParseDecimal(s);
    if r.Ok? {
      ParsedIsWritten(s);
      NanoIsExact(r.value, n);
    }
  }

  lemma NanoIsExact(d: Decimal, n: nat)
    requires d.WellFormed()
    ensures NanoOf(d) == Ok(n) <==>
            -MAX_ABS_EXP <= d.exp.Value() <= MAX_ABS_EXP && n as real == d.Usd() * 1000000000.0
  {
    hide Pow10, TenTo, Numeral;
    var k := d.exp.Value() - |d.frac|;
    var digits := Numeral(d.whole + d.frac);
    NanoScale(k);
    Regroup(digits as real, Pow10(k), 1000000000.0);
    if k + 9 >= 0 { ScaledUp(digits, k + 9, n); } else { ScaledDown(digits, k + 9, n); }
  }

  lemma Regroup(a: real, b: real, c: real)
    ensures a * b * c == a * (b * c)
  {
  }

  lemma NanoScale(k: int)
    ensures Pow10(k + 9) == Pow10(k) * 1000000000.0
  {
    Pow10Plus(k, 9);
    assert TenTo(9) == 1000000000 by {
      assert TenTo(3) == 1000;
      assert TenTo(6) == 1000000;
    }
  }

  /** Two spellings of one value convert alike: to the same amount, or both are refused as too fine. */
  lemma SpellingsAgree(s: string, t: string, d: Decimal, e: Decimal)
    requires Writes(s, d) && Writes(t, e) && d.Usd() == e.Usd()
    ensures DecimalToNano(s) == DecimalToNano(t)
  {
    hide ParseDecimal, NanoOf;
    DecimalReadsBack(d);
    DecimalReadsBack(e);
    RefusedAsTooFine(d);
    RefusedAsTooFine(e);
    var r, q := DecimalToNano(s), DecimalToNano(t);
    if r.Ok? { OneSpelling(s, t, d, e, r.value); }
    if q.Ok? { OneSpelling(t, s, e, d, q.value); }
  }

  lemma RefusedAsTooFine(d: Decimal)
    requires d.WellFormed() && -MAX_ABS_EXP <= d.exp.Value() <= MAX_ABS_EXP
    ensures NanoOf(d).Refused? ==> NanoOf(d) == Refused(OverPrecise)
  {
  }

  lemma OneSpelling(s: string, t: string, d: Decimal, e: Decimal, n: nat)
    requires Writes(s, d) && Writes(t, e) && d.Usd() == e.Usd() && DecimalToNano(s) == Ok(n)
    ensures DecimalToNano(t) == Ok(n)
  {
    hide ParseDecimal, NanoOf;
    DecimalReadsBack(d);
    DecimalReadsBack(e);
    NanoIsExact(d, n);
    NanoIsExact(e, n);
  }

  // ---- numbers from the caller ----

  /** A JavaScript value offered as an amount; a finite non-negative number is its own shortest text. */
  datatype JsValue = NotNumber | NaN | Infinite | NegativeNumber | NegativeZero | Number(text: string)

  function UsdToNano(v: JsValue): (r: Result<nat>)
    ensures r.Ok? ==> r.value <= MAX_NANO
  {
    match v
    case NotNumber => Refused(NotANumber)
    case NaN => Refused(NotFinite)
    case Infinite => Refused(NotFinite)
    case NegativeNumber => Refused(Negative)
    case NegativeZero => Ok(0)
    case Number(text) =>
      match DecimalToNano(text)
      case Refused(why) => Refused(why)
      case Ok(n) => if n > MAX_NANO then Refused(TooLarge) else Ok(n)
  }

  /** An amount converts exactly when it is a finite, non-negative number of whole nano-USD within the maximum. */
  lemma UsdIsExact(v: JsValue, n: nat)
    ensures UsdToNano(v) == Ok(n) <==>
            && n <= MAX_NANO
            && ((v.NegativeZero? && n == 0)
                || (v.Number? && exists d :: Writes(v.text, d) && n as real == d.Usd() * 1000000000.0))
  {
    hide DecimalToNano, Writes, Pow10;
    if v.Number? { ConversionIsExact(v.text, n); }
  }
}
