/** internal/domain/money: an amount in minor units with a currency, its checked arithmetic and its decimal spelling. */
module MoneyDomain {
  import opened Prelude
  import opened Int64

  predicate ValidCurrency(c: string) {
    |c| == 3 && forall i :: 0 <= i < 3 ==> 'A' <= c[i] <= 'Z'
  }

  datatype MoneyValue = Money(minorUnits: int64, currency: string)

  /** Every constructor checks the currency, so every value carries a valid one. */
  type Money = m: MoneyValue | ValidCurrency(m.currency) witness Money(0, "BRL")

  type MoneyResult = Result<Money, Error>

  function FromMinorUnits(minorUnits: int64, currency: string): MoneyResult {
    if ValidCurrency(currency) then Ok(Money(minorUnits, currency)) else Err(InvalidCurrency)
  }

  function Checked(units: Option<int64>, currency: string): MoneyResult
    requires ValidCurrency(currency)
  {
    match units
    case Some(n) => Ok(Money(n, currency))
    case None => Err(Overflow)
  }

  function Add(m: Money, other: Money): MoneyResult {
    if m.currency != other.currency then Err(MoneyCurrencyMismatch)
    else Checked(CheckedAdd(m.minorUnits, other.minorUnits), m.currency)
  }

  function Negate(m: Money): MoneyResult {
    Checked(CheckedNegate(m.minorUnits), m.currency)
  }

  function Subtract(m: Money, other: Money): MoneyResult {
    if m.currency != other.currency then Err(MoneyCurrencyMismatch)
    else
      match CheckedNegate(other.minorUnits)
      case None => Err(Overflow)
      case Some(neg) => Checked(CheckedAdd(m.minorUnits, neg), m.currency)
  }

  /** Addition fails exactly on a currency mismatch or a sum outside int64. */
  lemma AddIsExact(m: Money, other: Money)
    ensures m.currency != other.currency ==> Add(m, other) == Err(MoneyCurrencyMismatch)
    ensures m.currency == other.currency ==>
              var sum := m.minorUnits as int + other.minorUnits;
              Add(m, other) == if Fits(sum) then Ok(Money(sum, m.currency)) else Err(Overflow)
  {
    CheckedAddIsExact(m.minorUnits, other.minorUnits);
  }

  /** Subtraction fails exactly on a currency mismatch, a MIN operand or a difference outside int64. */
  lemma SubtractIsExact(m: Money, other: Money)
    ensures m.currency != other.currency ==> Subtract(m, other) == Err(MoneyCurrencyMismatch)
    ensures m.currency == other.currency ==>
              var difference := m.minorUnits as int - other.minorUnits;
              Subtract(m, other) ==
              if other.minorUnits != MIN && Fits(difference) then Ok(Money(difference, m.currency)) else Err(Overflow)
  {
    CheckedNegateIsExact(other.minorUnits);
    if other.minorUnits != MIN {
      CheckedAddIsExact(m.minorUnits, 0 - other.minorUnits);
    }
  }

  // ---- Decimal spelling ----

  predicate IsDigit(c: char) {
    '0' <= c <= '9'
  }

  predicate AllDigits(s: string) {
    forall i :: 0 <= i < |s| ==> IsDigit(s[i])
  }

  function DigitChar(d: nat): char
    requires d < 10
  {
    '0' + d as char
  }

  /** The number a run of decimal digits denotes. */
  function ValueOf(s: string): nat
    requires AllDigits(s)
  {
    if s == "" then 0 else 10 * ValueOf(s[..|s| - 1]) + (s[|s| - 1] as int - '0' as int)
  }

  /** fmt's %d for a non-negative number. */
  function Digits(n: nat): string {
    if n < 10 then [DigitChar(n)] else Digits(n / 10) + [DigitChar(n % 10)]
  }

  /** fmt's %02d for a number below 100. */
  function TwoDigits(n: nat): string
    requires n < 100
  {
    [DigitChar(n / 10), DigitChar(n % 10)]
  }

  function SignOf(negative: bool): string {
    if negative then "-" else ""
  }

  datatype Parts = Parts(negative: bool, whole: string, cents: string)

  predicate WellFormed(p: Parts) {
    AllDigits(p.whole) && |p.whole| >= 1 && AllDigits(p.cents) && |p.cents| == 2
  }

  function Spelling(p: Parts): string {
    SignOf(p.negative) + p.whole + "." + p.cents
  }

  function Denotation(p: Parts): int
    requires WellFormed(p)
  {
    var magnitude := ValueOf(p.whole) * 100 + ValueOf(p.cents);
    if p.negative then 0 - magnitude else magnitude
  }

  /** The submatches of the amount pattern: an optional minus, digits, a dot and two digits. */
  function MatchAmount(s: string): Option<Parts> {
    var negative := |s| > 0 && s[0] == '-';
    var rest := if negative then s[1..] else s;
    if |rest| < 4 || rest[|rest| - 3] != '.' then None
    else
      var p := Parts(negative, rest[..|rest| - 3], rest[|rest| - 2..]);
      if AllDigits(p.whole) && AllDigits(p.cents) then Some(p) else None
  }

  /** strconv.ParseInt(s, 10, 64) on a run of digits. */
  function ParseInt(s: string): Option<int64>
    requires AllDigits(s)
  {
    Exact(ValueOf(s))
  }

  function Parse(amount: string, currency: string): MoneyResult {
    if !ValidCurrency(currency) then Err(InvalidCurrency)
    else if amount == "" then Err(EmptyAmount)
    else
      match MatchAmount(amount)
      case None => Err(InvalidFormat)
      case Some(p) =>
        match ParseInt(p.whole)
        case None => Err(Overflow)
        case Some(whole) =>
          match ParseInt(p.cents)
          case None => Err(InvalidFormat)
          case Some(cents) =>
            match CheckedMul(whole, 100)
            case None => Err(Overflow)
            case Some(major) =>
              match CheckedAdd(major, cents)
              case None => Err(Overflow)
              case Some(units) => Checked(if p.negative then CheckedNegate(units) else Some(units), currency)
  }

  function ParseExternalAmount(amount: string, currency: string): MoneyResult {
    match Parse(amount, currency)
    case Err(e) => Err(e)
    case Ok(m) => if m.minorUnits < 0 then Err(NegativeAmount) else Ok(m)
  }

  /** Money.String, with its own branch for MIN, whose absolute value has no int64. */
  function String(m: Money): string {
    var units: int := m.minorUnits;
    if units == MIN then "-" + Digits(0 - Quot(MIN, 100)) + "." + TwoDigits(0 - Rem(MIN, 100))
    else
      var magnitude := Abs(units);
      SignOf(units < 0) + Digits(magnitude / 100) + "." + TwoDigits(magnitude % 100)
  }

  /** What the amount text means: some well-formed sign, whole and cents spell it, with value v. */
  ghost predicate Denotes(s: string, v: int) {
    exists p :: WellFormed(p) && Spelling(p) == s && Denotation(p) == v
  }

  lemma {:induction false} DigitsRoundTrip(n: nat)
    ensures |Digits(n)| >= 1 && AllDigits(Digits(n)) && ValueOf(Digits(n)) == n
  {
    if n >= 10 {
      DigitsRoundTrip(n / 10);
      var s := Digits(n);
      assert s[..|s| - 1] == Digits(n / 10);
    } else {
      var s := Digits(n);
      assert s[..0] == "";
    }
  }

  lemma TwoDigitsRoundTrip(n: nat)
    requires n < 100
    ensures |TwoDigits(n)| == 2 && AllDigits(TwoDigits(n)) && ValueOf(TwoDigits(n)) == n
  {
    var s := TwoDigits(n);
    assert s[..1] == [DigitChar(n / 10)];
    assert s[..1][..0] == "";
    assert ValueOf(s[..1]) == n / 10;
  }

  lemma TwoDigitsBound(s: string)
    requires AllDigits(s) && |s| == 2
    ensures ValueOf(s) < 100
  {
    assert s[..1][..0] == "";
    assert ValueOf(s[..1]) < 10;
  }

  /** The pattern recovers exactly the parts that spell the text, so a text has at most one reading. */
  lemma MatchInvertsSpelling(p: Parts)
    requires WellFormed(p)
    ensures MatchAmount(Spelling(p)) == Some(p)
  {
    var s := Spelling(p);
    var rest := p.whole + "." + p.cents;
    DotSplits(p.whole, p.cents);
    assert IsDigit(p.whole[0]) && rest[0] == p.whole[0];
    hide AllDigits;
    if p.negative {
      assert s == "-" + rest && s[1..] == rest;
    } else {
      assert s == rest;
    }
  }

  lemma DotSplits(whole: string, cents: string)
    requires |cents| == 2
    ensures var rest := whole + "." + cents;
            |rest| == |whole| + 3 && rest[|rest| - 3] == '.'
            && rest[..|rest| - 3] == whole && rest[|rest| - 2..] == cents
  {
  }

  lemma MatchIsASpelling(s: string)
    requires MatchAmount(s).Some?
    ensures WellFormed(MatchAmount(s).value) && Spelling(MatchAmount(s).value) == s
  {
    var p := MatchAmount(s).value;
    var rest := if p.negative then s[1..] else s;
    assert rest == p.whole + "." + p.cents;
  }

  /** Parsing a well-formed text yields its value when the magnitude fits, and Overflow otherwise. */
  lemma ParseOfSpelling(p: Parts, currency: string)
    requires WellFormed(p) && ValidCurrency(currency)
    ensures Parse(Spelling(p), currency) ==
            if Abs(Denotation(p)) <= MAX then Ok(Money(Denotation(p), currency)) else Err(Overflow)
  {
    MatchInvertsSpelling(p);
    TwoDigitsBound(p.cents);
    var whole: int, cents: int := ValueOf(p.whole), ValueOf(p.cents);
    if Fits(whole) {
      CheckedMulIsExact(whole, 100);
      if Fits(whole * 100) {
        CheckedAddIsExact(whole * 100, cents);
        if Fits(whole * 100 + cents) {
          CheckedNegateIsExact(whole * 100 + cents);
        }
      }
    }
  }

  /**
   * Parse accepts exactly the texts `-?digits.dd` under a valid currency whose magnitude is at most MAX minor
   * units, and returns the value they denote.
   */
  lemma ParseAcceptsExactly(s: string, currency: string, v: int)
    ensures Fits(v) && Parse(s, currency) == Ok(Money(v, currency))
            <==> ValidCurrency(currency) && Denotes(s, v) && Abs(v) <= MAX
    ensures Parse(s, currency).Ok? ==> Parse(s, currency).value.currency == currency
  {
    if ValidCurrency(currency) {
      if MatchAmount(s).Some? {
        var p := MatchAmount(s).value;
        MatchIsASpelling(s);
        ParseOfSpelling(p, currency);
      }
      if Denotes(s, v) {
        var p :| WellFormed(p) && Spelling(p) == s && Denotation(p) == v;
        MatchInvertsSpelling(p);
        ParseOfSpelling(p, currency);
      }
    }
  }

  /** Which error a refused text gets; only a text that denotes something can overflow. */
  lemma ParseErrsExactly(s: string, currency: string)
    requires Parse(s, currency).Err?
    ensures Parse(s, currency).error ==
            if !ValidCurrency(currency) then InvalidCurrency
            else if s == "" then EmptyAmount
            else if exists v :: Denotes(s, v) then Overflow else InvalidFormat
  {
    if ValidCurrency(currency) && s != "" {
      if MatchAmount(s).Some? {
        var p := MatchAmount(s).value;
        MatchIsASpelling(s);
        ParseOfSpelling(p, currency);
        assert Denotes(s, Denotation(p));
      } else if exists v :: Denotes(s, v) {
        var v :| Denotes(s, v);
        var p :| WellFormed(p) && Spelling(p) == s && Denotation(p) == v;
        MatchInvertsSpelling(p);
      }
    }
  }

  function PartsOf(m: Money): Parts {
    var magnitude := Abs(m.minorUnits);
    Parts(m.minorUnits < 0, Digits(magnitude / 100), TwoDigits(magnitude % 100))
  }

  /** Both branches of String print the sign, the whole units and the cents of the same number. */
  lemma StringSpells(m: Money)
    ensures WellFormed(PartsOf(m)) && Spelling(PartsOf(m)) == String(m) && Denotation(PartsOf(m)) == m.minorUnits
  {
    hide Quot, Rem, Digits, TwoDigits, ValueOf, AllDigits;
    var magnitude := Abs(m.minorUnits);
    DigitsRoundTrip(magnitude / 100);
    TwoDigitsRoundTrip(magnitude % 100);
    SmallestSplits();
  }

  lemma SmallestSplits()
    ensures Quot(MIN, 100) == -92233720368547758 && Rem(MIN, 100) == -8
  {
  }

  /** Printing then parsing gives the amount back for every amount but MIN, which overflows. */
  lemma PrintParseRoundTrip(m: Money)
    ensures Parse(String(m), m.currency) == if m.minorUnits == MIN then Err(Overflow) else Ok(m)
  {
    StringSpells(m);
    ParseOfSpelling(PartsOf(m), m.currency);
  }

  /** Two accepted spellings have the same canonical text exactly when they denote the same value. */
  lemma CanonicalSpelling(s1: string, s2: string, currency: string, v1: int, v2: int)
    requires Parse(s1, currency).Ok? && Denotes(s1, v1)
    requires Parse(s2, currency).Ok? && Denotes(s2, v2)
    ensures String(Parse(s1, currency).value) == String(Parse(s2, currency).value) <==> v1 == v2
  {
    ReadingIsUnique(s1, currency, v1);
    ReadingIsUnique(s2, currency, v2);
    StringInjective(Parse(s1, currency).value, Parse(s2, currency).value);
  }

  lemma ReadingIsUnique(s: string, currency: string, v: int)
    requires Parse(s, currency).Ok? && Denotes(s, v)
    ensures Fits(v) && Parse(s, currency) == Ok(Money(v, currency))
  {
    var p :| WellFormed(p) && Spelling(p) == s && Denotation(p) == v;
    ParseOfSpelling(p, currency);
  }

  /** Distinct amounts never print alike, so hashing the text loses nothing. */
  lemma StringInjective(m1: Money, m2: Money)
    ensures String(m1) == String(m2) <==> m1.minorUnits == m2.minorUnits
  {
    StringSpells(m1);
    StringSpells(m2);
    MatchInvertsSpelling(PartsOf(m1));
    MatchInvertsSpelling(PartsOf(m2));
    if m1.minorUnits == m2.minorUnits {
      assert PartsOf(m1) == PartsOf(m2);
    }
  }

  /** Input from a provider is additionally never negative; "-0.00" is zero and passes. */
  lemma ExternalAmountAccepts(s: string, currency: string, v: int)
    ensures Fits(v) && ParseExternalAmount(s, currency) == Ok(Money(v, currency))
            <==> ValidCurrency(currency) && Denotes(s, v) && 0 <= v <= MAX
    ensures ParseExternalAmount(s, currency).Err? ==>
              ParseExternalAmount(s, currency).error
              == if Parse(s, currency).Err? then Parse(s, currency).error else NegativeAmount
  {
    ParseAcceptsExactly(s, currency, v);
  }
}
