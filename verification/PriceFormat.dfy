/** The price line of the JSX and HTML exports. Go's `%.2f` prints the exact binary value
    rounded half-to-even at the second decimal. */
module PriceFormat {
  import opened Wrappers
  import opened Domain
  import opened Binary64
  import opened Decimals

  const EURO_SIGN: string := "\U{20AC}"
  const POUND_SIGN: string := "\U{A3}"

  /** `currencySymbols`, falling back to the ISO code and a space. */
  function Symbol(currency: string): string {
    if currency == "USD" then "$"
    else if currency == "EUR" then EURO_SIGN
    else if currency == "GBP" then POUND_SIGN
    else if currency == "BRL" then "R$"
    else currency + " "
  }

  /** float64(a)/100, for a non-negative amount. */
  function MajorUnits(a: nat): (x: real)
    ensures x >= 0.0
  {
    Double(Double(a as real) / 100.0)
  }

  /** The hundredths that `%.2f` prints. */
  function Hundredths(x: real): (h: nat)
    requires x >= 0.0
  {
    RoundHalfEven(x * 100.0)
  }

  function Fixed2(h: nat): string {
    Decimal(h / 100) + "." + TwoDigits(h % 100)
  }

  /** The float path. */
  function FractionText(a: nat): string {
    Fixed2(Hundredths(MajorUnits(a)))
  }

  function UnsignedText(a: nat): string {
    if a % 100 == 0 then Decimal(a / 100) else FractionText(a)
  }

  function AmountText(a: int): string {
    if a < 0 then "-" + UnsignedText(-a) else UnsignedText(a)
  }

  function Suffix(interval: string): string {
    if interval == MONTHLY then "/month"
    else if interval == YEARLY then "/year"
    else ""
  }

  /** `formatPrice`. */
  function FormatPrice(p: Price): string {
    if p.customLabel != "" then p.customLabel
    else Symbol(p.currency) + AmountText(p.amount) + Suffix(p.interval)
  }

  /** A label is shown as it is, whatever the rest of the price reads. */
  lemma LabelIsShown(p: Price)
    requires p.customLabel != ""
    ensures FormatPrice(p) == p.customLabel
  {
  }

  // ---------- how far the float path is exact ----------

  /** The amount as it should read: major units, and cents if there are any. */
  function ExactText(a: nat): string {
    if a % 100 == 0 then Decimal(a / 100) else Fixed2(a)
  }

  /** 100 * 2^46: from here on, neighbouring doubles are more than a cent apart. */
  const FLOAT_LIMIT := 7036874417766400

  lemma ShiftByConstant(x: real)
    ensures Shift(x, -7) == x / 128.0 && Shift(x, -6) == x / 64.0 && Shift(x, 6) == 64.0 * x
  {
    assert Shift(x, -1) == x / 2.0 && Shift(x, -2) == x / 4.0;
    assert Shift(x, -3) == x / 8.0 && Shift(x, -4) == x / 16.0;
    assert Shift(x, -5) == x / 32.0 && Shift(x, -6) == x / 64.0;
    assert Shift(x, 1) == 2.0 * x && Shift(x, 2) == 4.0 * x && Shift(x, 3) == 8.0 * x;
    assert Shift(x, 4) == 16.0 * x && Shift(x, 5) == 32.0 * x;
  }

  /** Below the limit the quotient is off by at most 2^-8. */
  lemma QuotientErrorIsSmall(a: nat)
    requires a < FLOAT_LIMIT
    ensures Distance(MajorUnits(a), a as real / 100.0) <= 1.0 / 256.0
  {
    SmallIntegersAreExact(a);
    var q := a as real / 100.0;
    NearestMultiple(q, 0);
    ShiftByConstant(SIGNIFICAND as real);
    ShiftByConstant(0.5);
    var e := Exponent(q);
    if e > -7 {
      ShiftGrows(SIGNIFICAND as real, -7, e - 1);
    }
    ShiftGrows(0.5, e, -7);
  }

  lemma FloatPathIsExact(a: nat)
    requires a < FLOAT_LIMIT
    ensures FractionText(a) == Fixed2(a)
  {
    QuotientErrorIsSmall(a);
    assert Hundredths(MajorUnits(a)) == a;
  }

  /** One cent past the limit, the nearest double prints as two cents past it. */
  lemma FirstWrongAmount()
    ensures Hundredths(MajorUnits(FLOAT_LIMIT + 1)) == FLOAT_LIMIT + 2
  {
    SmallIntegersAreExact(FLOAT_LIMIT + 1);
    var q := (FLOAT_LIMIT + 1) as real / 100.0;
    ShiftByConstant(SIGNIFICAND as real);
    ExponentIs(q, -6);
    ShiftByConstant(q);
    assert RoundHalfEven(Shift(q, 6)) == 4503599627370497;
    ShiftByConstant(4503599627370497.0);
  }

  lemma FirstWrongText()
    ensures AmountText(FLOAT_LIMIT + 1) != ExactText(FLOAT_LIMIT + 1)
  {
    var a := FLOAT_LIMIT + 1;
    FirstWrongAmount();
    LastDigit(a);
    LastDigit(a + 1);
  }

  lemma LastDigit(h: nat)
    ensures Fixed2(h) != "" && Fixed2(h)[|Fixed2(h)| - 1] == Digit(h % 10)
  {
    assert h % 100 % 10 == h % 10;
  }

  lemma AmountPrintsExactly(a: nat)
    requires a <= FLOAT_LIMIT
    ensures AmountText(a) == ExactText(a)
  {
    if a % 100 != 0 {
      FloatPathIsExact(a);
    }
  }

  ghost predicate ExactBelow(bound: nat) {
    forall a: nat :: a < bound ==> AmountText(a) == ExactText(a)
  }

  /** Every amount below a bound prints exactly just when the bound is at most one past
      100 * 2^46: the limit itself is whole, so it takes the integer path. */
  lemma AmountsPrintExactlyBelow(bound: nat)
    ensures ExactBelow(bound) <==> bound <= FLOAT_LIMIT + 1
  {
    if bound <= FLOAT_LIMIT + 1 {
      forall a: nat | a < bound
        ensures AmountText(a) == ExactText(a)
      {
        AmountPrintsExactly(a);
      }
    } else {
      FirstWrongText();
    }
  }

  // ---------- reading a price back ----------

  predicate AmountChar(c: char) { IsDigit(c) || c == '.' }

  /** The number of leading amount characters. */
  function AmountLength(s: string): (n: nat)
    ensures n <= |s|
  {
    if s == "" || !AmountChar(s[0]) then 0 else 1 + AmountLength(s[1..])
  }

  lemma {:induction false} AmountLengthOf(amount: string, rest: string)
    requires forall i :: 0 <= i < |amount| ==> AmountChar(amount[i])
    requires rest == "" || !AmountChar(rest[0])
    ensures AmountLength(amount + rest) == |amount|
  {
    if amount == "" {
      assert amount + rest == rest;
    } else {
      assert (amount + rest)[1..] == amount[1..] + rest;
      AmountLengthOf(amount[1..], rest);
    }
  }

  /** Minor units: two decimals after a point, or digits alone for whole major units. */
  function ParseAmount(s: string): Option<nat> {
    if |s| > 3 && s[|s| - 3] == '.' then MinorUnits(s[..|s| - 3], s[|s| - 2..])
    else MinorUnits(s, "00")
  }

  function MinorUnits(whole: string, cents: string): Option<nat> {
    if IsNumeral(whole) && IsNumeral(cents) then Some(100 * Value(whole) + Value(cents)) else None
  }

  lemma ValueOfTwoDigits(n: nat)
    requires n < 100
    ensures IsNumeral(TwoDigits(n)) && Value(TwoDigits(n)) == n
  {
    var cents := TwoDigits(n);
    assert cents[..1] == [cents[0]] && cents[..1][..0] == "";
    assert Value(cents[..1]) == DigitValue(cents[0]);
  }

  lemma ParsePointText(whole: string, cents: string)
    requires whole != "" && |cents| == 2
    ensures ParseAmount(whole + "." + cents) == MinorUnits(whole, cents)
  {
    var s := whole + "." + cents;
    assert s[|s| - 3] == '.' && s[..|s| - 3] == whole && s[|s| - 2..] == cents;
  }

  lemma ParseExactText(a: nat)
    ensures ParseAmount(ExactText(a)) == Some(a)
  {
    ValueOfDecimal(a / 100);
    ValueOfTwoDigits(a % 100);
    if a % 100 == 0 {
      assert TwoDigits(0) == "00";
    } else {
      ParsePointText(Decimal(a / 100), TwoDigits(a % 100));
    }
  }

  /** Where the last space is, or the length of the text if it has none. */
  function LastSpace(s: string): (n: nat)
    ensures n <= |s|
  {
    if ' ' !in s then |s|
    else if s[|s| - 1] == ' ' then |s| - 1
    else LastSpace(s[..|s| - 1])
  }

  lemma {:induction false} LastSpaceOf(before: string, after: string)
    requires ' ' !in after
    ensures LastSpace(before + " " + after) == |before|
    decreases |after|
  {
    var s := before + " " + after;
    assert s[|before|] == ' ';
    if after == "" {
    } else {
      var n := |after| - 1;
      assert s[..|s| - 1] == before + " " + after[..n];
      assert s[|s| - 1] == after[n];
      LastSpaceOf(before, after[..n]);
    }
  }

  /** The currency, and the length of what stood for it: an amount and a suffix have no space,
      so a space can only come from the fallback. */
  function ReadSymbol(s: string): (r: Option<(string, nat)>)
    ensures r.Some? ==> r.value.1 <= |s|
  {
    if ' ' in s then SpacedCurrency(s, LastSpace(s))
    else if StartsWith(s, "R$") then Some(("BRL", 2))
    else if StartsWith(s, "$") then Some(("USD", 1))
    else if StartsWith(s, EURO_SIGN) then Some(("EUR", 1))
    else if StartsWith(s, POUND_SIGN) then Some(("GBP", 1))
    else None
  }

  function SpacedCurrency(s: string, n: nat): (r: Option<(string, nat)>)
    ensures r.Some? ==> r.value.1 <= |s|
  {
    if n < |s| then Some((s[..n], n + 1)) else None
  }

  function ReadSuffix(s: string): Option<string> {
    if s == "/month" then Some(MONTHLY)
    else if s == "/year" then Some(YEARLY)
    else if s == "" then Some(ONE_TIME)
    else None
  }

  function ParsePrice(s: string): Option<Price> {
    match ReadSymbol(s)
    case None => None
    case Some((currency, skip)) =>
      var t := s[skip..];
      var n := AmountLength(t);
      match (ParseAmount(t[..n]), ReadSuffix(t[n..]))
      case (Some(amount), Some(interval)) => Some(Price(amount, currency, interval, ""))
      case _ => None
  }

  predicate HasSymbol(currency: string) {
    currency == "USD" || currency == "EUR" || currency == "GBP" || currency == "BRL"
  }

  lemma ReadSymbolOf(currency: string, rest: string)
    requires ' ' !in rest
    ensures ReadSymbol(Symbol(currency) + rest) == Some((currency, |Symbol(currency)|))
  {
    if HasSymbol(currency) {
      ReadSign(currency, rest);
    } else {
      var s := currency + " " + rest;
      LastSpaceOf(currency, rest);
      assert s[|currency|] == ' ' && s[..|currency|] == currency;
    }
  }

  lemma ReadSign(currency: string, rest: string)
    requires HasSymbol(currency) && ' ' !in rest
    ensures ReadSymbol(Symbol(currency) + rest) == Some((currency, |Symbol(currency)|))
  {
    var sym := Symbol(currency);
    var s := sym + rest;
    assert ' ' !in s by {
      forall i | 0 <= i < |s| ensures s[i] != ' ' {
        assert i >= |sym| ==> s[i] == rest[i - |sym|];
      }
    }
    assert s[..|sym|] == sym && s[0] == sym[0];
    assert |s| >= 2 ==> s[..2][0] == s[0];
    assert s[..1][0] == s[0];
  }

  lemma NoSpaceAfterSymbol(a: nat, interval: string)
    ensures ' ' !in ExactText(a) + Suffix(interval)
  {
    var amount, suffix := ExactText(a), Suffix(interval);
    assert ' ' !in suffix;
    assert forall i :: 0 <= i < |amount| ==> AmountChar(amount[i]);
  }

  /** The inverse of `formatPrice`, on every label-free price up to the float limit with an
      interval the domain knows, whatever its currency reads: the integer and the float path,
      the four symbols and the fallback never run into each other. */
  lemma PriceRoundTrip(p: Price)
    requires p.customLabel == "" && ValidInterval(p.interval) && 0 <= p.amount <= FLOAT_LIMIT
    ensures ParsePrice(FormatPrice(p)) == Some(p)
  {
    AmountPrintsExactly(p.amount);
    var sym, amount, suffix := Symbol(p.currency), ExactText(p.amount), Suffix(p.interval);
    var t := amount + suffix;
    assert FormatPrice(p) == sym + t;
    NoSpaceAfterSymbol(p.amount, p.interval);
    ReadSymbolOf(p.currency, t);
    assert (sym + t)[|sym|..] == t;
    AmountLengthOf(amount, suffix);
    assert t[..|amount|] == amount && t[|amount|..] == suffix;
    ParseExactText(p.amount);
  }

  /** Hence the line shown to a visitor identifies the price. */
  lemma PriceTextIdentifiesPrice(p: Price, q: Price)
    requires p.customLabel == "" && ValidInterval(p.interval) && 0 <= p.amount <= FLOAT_LIMIT
    requires q.customLabel == "" && ValidInterval(q.interval) && 0 <= q.amount <= FLOAT_LIMIT
    ensures FormatPrice(p) == FormatPrice(q) <==> p == q
  {
    PriceRoundTrip(p);
    PriceRoundTrip(q);
  }

  /** A negative amount, which the domain never accepts, is the positive one after a minus. */
  lemma NegativeAmounts(a: nat)
    requires a > 0
    ensures AmountText(0 - a) == "-" + AmountText(a)
  {
  }

  /** Past the limit too, what is printed is the hundredth nearest to the double nearest to a
      hundredth of the double nearest to the amount: no double is nearer in either rounding. */
  lemma FractionIsRoundedTwice(a: nat, m: nat, e: int, n: nat, f: int)
    requires a % 100 != 0
    requires m < SIGNIFICAND && e >= MIN_EXPONENT && n < SIGNIFICAND && f >= MIN_EXPONENT
    ensures var x := Double(a as real);
            var y := Double(x / 100.0);
            && Representable(x) && Distance(x, a as real) <= Distance(Shift(m as real, e), a as real)
            && Representable(y) && Distance(y, x / 100.0) <= Distance(Shift(n as real, f), x / 100.0)
            && PrintsHundredthsOf(a, y)
  {
    var x := Double(a as real);
    DoubleIsRepresentable(a as real);
    DoubleIsNearest(a as real, Shift(m as real, e), m, e);
    DoubleIsRepresentable(x / 100.0);
    DoubleIsNearest(x / 100.0, Shift(n as real, f), n, f);
    HundredthsAreNearest(a, Double(x / 100.0));
  }

  /** The amount is printed as the hundredth nearest to y. */
  ghost predicate PrintsHundredthsOf(a: nat, y: real) {
    exists h: nat :: Distance(h as real, 100.0 * y) <= 0.5 && AmountText(a) == Fixed2(h)
  }

  lemma HundredthsAreNearest(a: nat, y: real)
    requires a % 100 != 0 && y == MajorUnits(a)
    ensures PrintsHundredthsOf(a, y)
  {
    var h := Hundredths(y);
    assert Distance(h as real, 100.0 * y) <= 0.5;
    assert AmountText(a) == Fixed2(h);
  }

  lemma WholeAmount(a: nat, text: string)
    requires a % 100 == 0 && Decimal(a / 100) == text
    ensures AmountText(a) == text
  {
  }

  lemma SmallNumerals()
    ensures Decimal(0) == "0" && Decimal(5) == "5" && Decimal(10) == "10"
    ensures Decimal(29) == "29" && Decimal(99) == "99" && Decimal(299) == "299"
  {
    assert Decimal(1) == "1" && Decimal(2) == "2" && Decimal(9) == "9";
    assert Decimal(29) == Decimal(2) + "9" == "29";
    assert Decimal(299) == Decimal(29) + "9";
  }

  lemma Shown(p: Price, sign: string, amount: string, suffix: string)
    requires p.customLabel == ""
    requires Symbol(p.currency) == sign && AmountText(p.amount) == amount && Suffix(p.interval) == suffix
    ensures FormatPrice(p) == sign + amount + suffix
  {
  }

  /** The documented examples (internal/usecase/export_price_test.go), and one of each symbol. */
  lemma DollarExamples()
    ensures FormatPrice(Price(2900, "USD", "monthly", "")) == "$" + "29" + "/month"
    ensures FormatPrice(Price(29900, "USD", "yearly", "")) == "$" + "299" + "/year"
    ensures FormatPrice(Price(9900, "USD", "one_time", "")) == "$" + "99" + ""
    ensures FormatPrice(Price(0, "USD", "monthly", "")) == "$" + "0" + "/month"
  {
    SmallNumerals();
    WholeAmount(2900, "29");
    WholeAmount(29900, "299");
    WholeAmount(9900, "99");
    WholeAmount(0, "0");
    Shown(Price(2900, "USD", "monthly", ""), "$", "29", "/month");
    Shown(Price(29900, "USD", "yearly", ""), "$", "299", "/year");
    Shown(Price(9900, "USD", "one_time", ""), "$", "99", "");
    Shown(Price(0, "USD", "monthly", ""), "$", "0", "/month");
  }

  lemma CentsExample()
    ensures FormatPrice(Price(2950, "USD", "monthly", "")) == "$" + ("29" + "." + "50") + "/month"
  {
    SmallNumerals();
    AmountPrintsExactly(2950);
    FiftyCents();
    Shown(Price(2950, "USD", "monthly", ""), "$", "29" + "." + "50", "/month");
  }

  lemma FiftyCents()
    ensures ExactText(2950) == "29" + "." + "50"
  {
    SmallNumerals();
    assert TwoDigits(50) == "50";
  }

  lemma SymbolExamples()
    ensures FormatPrice(Price(1000, "CHF", "monthly", "")) == "CHF " + "10" + "/month"
    ensures FormatPrice(Price(500, "EUR", "one_time", "")) == "\U{20AC}" + "5" + ""
    ensures FormatPrice(Price(500, "GBP", "one_time", "")) == "\U{A3}" + "5" + ""
    ensures FormatPrice(Price(500, "BRL", "one_time", "")) == "R$" + "5" + ""
  {
    SmallNumerals();
    WholeAmount(1000, "10");
    WholeAmount(500, "5");
    assert "CHF" + " " == "CHF ";
    Shown(Price(1000, "CHF", "monthly", ""), "CHF ", "10", "/month");
    Shown(Price(500, "EUR", "one_time", ""), "\U{20AC}", "5", "");
    Shown(Price(500, "GBP", "one_time", ""), "\U{A3}", "5", "");
    Shown(Price(500, "BRL", "one_time", ""), "R$", "5", "");
  }
}
