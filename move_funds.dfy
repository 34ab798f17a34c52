/**
 * The amount-entry screen of the move-funds flow: the input filter
 * `^\d*\.?\d{0,2}$`, `parseFloat` of what it lets through, the validity
 * gate against the hard-coded pension balance, and the screen's navigation.
 */
module MoveFundsPage {
  import opened Wrappers
  import opened Navigation

  /** The balances the screen hard-codes; the store is not consulted. */
  const PensionBalance: real := 48750.0
  const SavingsBalance: real := 16250.0

  // ---------------------------------------------------------------------
  // The input filter

  predicate IsDigit(c: char) {
    '0' <= c <= '9'
  }

  predicate AllDigits(s: string) {
    forall i :: 0 <= i < |s| ==> IsDigit(s[i])
  }

  /** The length of the longest all-digit prefix (what `\d*` consumes). */
  function LeadingDigits(s: string): (n: nat)
    ensures n <= |s|
    ensures AllDigits(s[..n])
    ensures n < |s| ==> !IsDigit(s[n])
  {
    if s == [] || !IsDigit(s[0]) then 0
    else
      var m := LeadingDigits(s[1..]);
      assert s[..1 + m] == [s[0]] + s[1..][..m];
      1 + m
  }

  /**
   * `/^\d*\.?\d{0,2}$/.test(s)`: digits, then optionally a point followed by
   * at most two digits.
   */
  predicate MatchesAmountPattern(s: string): (b: bool)
    ensures b <==> AmountShape(s)
  {
    var n := LeadingDigits(s);
    n == |s| || (s[n] == '.' && |s| - n <= 3 && AllDigits(s[n + 1..]))
  }

  /** The shape of an accepted text: digits and points only, at most one point, at most two digits after it. */
  predicate AmountShape(s: string) {
    && (forall i :: 0 <= i < |s| ==> IsDigit(s[i]) || s[i] == '.')
    && (forall i, j :: 0 <= i < j < |s| && s[i] == '.' ==> s[j] != '.')
    && (forall i :: 0 <= i < |s| && s[i] == '.' ==> |s| - i <= 3)
  }

  /** The amount field's own state: the text and the selected currency code. */
  class MoveFundsForm {
    var amount: string
    var currency: string

    /** The text in the field always passes the filter. */
    ghost predicate Valid()
      reads this
    {
      MatchesAmountPattern(amount)
    }

    constructor ()
      ensures Valid()
      ensures amount == "" && currency == "GBP"
    {
      amount := "";
      currency := "GBP";
    }

    /** `handleAmountChange`: keep the new text only when it passes the filter. */
    method HandleAmountChange(value: string)
      requires Valid()
      modifies this
      ensures Valid()
      ensures amount == if value == "" || MatchesAmountPattern(value) then value else old(amount)
      ensures currency == old(currency)
    {
      if value == "" || MatchesAmountPattern(value) {
        amount := value;
      }
    }

    /**
     * The currency select: the code changes, the text does not, so the
     * outcome of `HandleNext`, which reads only the text, is unchanged.
     */
    method SelectCurrency(code: string)
      requires Valid()
      modifies this
      ensures Valid()
      ensures currency == code && amount == old(amount)
      ensures HandleNext(amount) == HandleNext(old(amount))
    {
      currency := code;
    }
  }

  // ---------------------------------------------------------------------
  // parseFloat of a filtered text

  function DigitValue(c: char): nat
    requires IsDigit(c)
  {
    c as int - '0' as int
  }

  /** The value of a decimal numeral. */
  function DigitsValue(ds: string): nat
    requires AllDigits(ds)
  {
    if ds == [] then 0
    else DigitsValue(ds[..|ds| - 1]) * 10 + DigitValue(ds[|ds| - 1])
  }

  function Pow10(n: nat): (p: nat)
    ensures p >= 1
  {
    if n == 0 then 1 else 10 * Pow10(n - 1)
  }

  /**
   * `parseFloat(s)` for a text that passed the filter; `None` is NaN, which
   * happens exactly when the text holds no digit.
   */
  function ParseAmount(s: string): (r: Option<real>)
    requires MatchesAmountPattern(s)
    ensures r.None? <==> s == "" || s == "."
    ensures r.Some? ==> r.value >= 0.0
  {
    var n := LeadingDigits(s);
    if n == |s| then
      (if n == 0 then None else Some(DigitsValue(s) as real))
    else
      var fraction := s[n + 1..];
      if n == 0 && fraction == [] then
        assert s == ".";
        None
      else
        Some(DecimalValue(s[..n], fraction))
  }

  /** The value of the digits `whole`, a decimal point and the digits `fraction`. */
  function DecimalValue(whole: string, fraction: string): (v: real)
    requires AllDigits(whole) && AllDigits(fraction)
    ensures v >= DigitsValue(whole) as real
  {
    DigitsValue(whole) as real + DigitsValue(fraction) as real / Pow10(|fraction|) as real
  }

  // ---------------------------------------------------------------------
  // The gate and the navigation

  /** `isValidAmount`: a number, positive, and at most the hard-coded pension balance. */
  function IsValidAmount(amount: string): (ok: bool)
    requires MatchesAmountPattern(amount)
    ensures ok ==> amount != "" && amount != "."
  {
    match ParseAmount(amount)
    case None => false
    case Some(v) => 0.0 < v <= PensionBalance
  }

  /**
   * `handleNext`: its own comparison, without the NaN test of
   * `isValidAmount`; it forwards the amount and the two hard-coded balances.
   */
  function HandleNext(amount: string): (t: Transition)
    requires MatchesAmountPattern(amount)
    ensures t.Go? <==> IsValidAmount(amount)
    ensures t.Go? ==> t.to == ReviewTransfer && !t.replace
    ensures t.Go? ==> t.state.amount == ParseAmount(amount)
    ensures t.Go? ==> t.state.sourceAccount.None? && t.state.destinationAccount.None? && t.state.currency.None?
    ensures t.Go? ==> t.state.pensionBalance == Some(PensionBalance) && t.state.savingsBalance == Some(SavingsBalance)
  {
    var num := ParseAmount(amount);
    if num.Some? && num.value > 0.0 && num.value <= PensionBalance then
      Go(ReviewTransfer, NavState(num, None, None, None, Some(PensionBalance), Some(SavingsBalance)), false)
    else
      Stay
  }

  /** `handleBack`: to the pension warning, without state. */
  function HandleBack(): (t: Transition)
    ensures t.Go? && t.to == PensionWarning && t.state == NoState && !t.replace
  {
    GoTo(PensionWarning)
  }

  // ---------------------------------------------------------------------
  // Whole numbers

  /** The decimal numeral of `n`, without leading zeros. */
  function Numeral(n: nat): (s: string)
    ensures |s| >= 1 && AllDigits(s)
  {
    var d := ['0' + (n % 10) as char];
    if n < 10 then d else Numeral(n / 10) + d
  }

  lemma {:induction false} NumeralValue(n: nat)
    ensures DigitsValue(Numeral(n)) == n
  {
    var s := Numeral(n);
    assert DigitValue(s[|s| - 1]) == n % 10;
    if n >= 10 {
      NumeralValue(n / 10);
      assert s[..|s| - 1] == Numeral(n / 10);
    }
  }

  /** Typing a whole number of pounds from 1 to 48750 passes the filter and the gate. */
  lemma WholeAmountsUpToPensionBalance(n: nat)
    ensures MatchesAmountPattern(Numeral(n))
    ensures ParseAmount(Numeral(n)) == Some(n as real)
    ensures IsValidAmount(Numeral(n)) <==> 1 <= n <= 48750
  {
    var s := Numeral(n);
    assert LeadingDigits(s) == |s| by {
      assert s[..|s|] == s;
    }
    NumeralValue(n);
    assert s[..|s|] == s;
  }

  // ---------------------------------------------------------------------
  // Pounds and pence

  lemma {:induction false} LeadingDigitsStopAt(a: string, b: string)
    requires AllDigits(a) && b != [] && !IsDigit(b[0])
    ensures LeadingDigits(a + b) == |a|
    decreases |a|
  {
    if a == [] {
      assert a + b == b;
    } else {
      assert (a + b)[1..] == a[1..] + b;
      LeadingDigitsStopAt(a[1..], b);
    }
  }

  lemma {:induction false} LeadingDigitsOfDigits(w: string)
    requires AllDigits(w)
    ensures LeadingDigits(w) == |w|
    decreases |w|
  {
    if w != [] {
      assert AllDigits(w[1..]);
      LeadingDigitsOfDigits(w[1..]);
    }
  }

  /** A text of digits alone, leading zeros included, parses to its decimal value. */
  lemma DigitsParse(w: string)
    requires AllDigits(w)
    ensures MatchesAmountPattern(w)
    ensures ParseAmount(w) == if w == [] then None else Some(DigitsValue(w) as real)
    ensures IsValidAmount(w) <==> w != [] && 0 < DigitsValue(w) <= 48750
  {
    LeadingDigitsOfDigits(w);
  }

  /**
   * Digits, a point and at most two digits, leading zeros and empty parts
   * included, parse to the whole part plus the fraction; only "." is NaN.
   */
  lemma DigitsAndFractionParse(w: string, f: string)
    requires AllDigits(w) && AllDigits(f) && |f| <= 2
    ensures MatchesAmountPattern(w + "." + f)
    ensures ParseAmount(w + "." + f) == if w == [] && f == [] then None else Some(DecimalValue(w, f))
  {
    var s := w + "." + f;
    assert s == w + ("." + f);
    LeadingDigitsStopAt(w, "." + f);
    assert s[..|w|] == w && s[|w|] == '.' && s[|w| + 1..] == f;
  }

  /** The gate on such a text: a number above 0 and at most the hard-coded pension balance. */
  lemma DigitsAndFractionGate(w: string, f: string)
    requires AllDigits(w) && AllDigits(f) && |f| <= 2
    ensures MatchesAmountPattern(w + "." + f)
    ensures IsValidAmount(w + "." + f) <==> (w != [] || f != []) && 0.0 < DecimalValue(w, f) <= PensionBalance
  {
    DigitsAndFractionParse(w, f);
  }

  /** Every text the filter accepts is digits alone, or digits, a point and at most two digits. */
  lemma AcceptedTextsHaveTwoShapes(s: string)
    requires MatchesAmountPattern(s)
    ensures var n := LeadingDigits(s);
      || (n == |s| && AllDigits(s))
      || (n < |s| && s == s[..n] + "." + s[n + 1..] && AllDigits(s[..n]) && AllDigits(s[n + 1..]) && |s[n + 1..]| <= 2)
  {
    var n := LeadingDigits(s);
    assert s[..|s|] == s;
    if n < |s| {
      assert s == s[..n] + [s[n]] + s[n + 1..];
    }
  }

  /** The value of `n` pounds and the two pence digits `d1`, `d2`. */
  function PoundsAndPence(n: nat, d1: char, d2: char): real
    requires IsDigit(d1) && IsDigit(d2)
  {
    n as real + (10 * DigitValue(d1) + DigitValue(d2)) as real / 100.0
  }

  /**
   * A text of whole pounds, a point and two pence digits passes the filter,
   * parses to its value, and is valid exactly when that value is positive and
   * at most the hard-coded pension balance.
   */
  lemma {:induction false} PenceAmounts(n: nat, d1: char, d2: char)
    requires IsDigit(d1) && IsDigit(d2)
    ensures MatchesAmountPattern(Numeral(n) + "." + [d1, d2])
    ensures ParseAmount(Numeral(n) + "." + [d1, d2]) == Some(PoundsAndPence(n, d1, d2))
    ensures IsValidAmount(Numeral(n) + "." + [d1, d2]) <==> 0.0 < PoundsAndPence(n, d1, d2) <= PensionBalance
  {
    DigitsAndFractionParse(Numeral(n), [d1, d2]);
    DigitsAndFractionGate(Numeral(n), [d1, d2]);
    NumeralValue(n);
    assert [d1, d2][..1] == [d1] && [d1][..0] == [];
    assert DigitsValue([d1]) == DigitValue(d1);
    assert DigitsValue([d1, d2]) == DigitsValue([d1]) * 10 + DigitValue(d2);
    assert Pow10(2) == 100;
    assert DecimalValue(Numeral(n), [d1, d2]) == PoundsAndPence(n, d1, d2);
  }

  lemma NumeralOfPensionBalance()
    ensures Numeral(48750) == "48750"
  {
    assert Numeral(4) == "4";
    assert Numeral(48) == "48";
    assert Numeral(487) == "487";
    assert Numeral(4875) == "4875";
  }

  /** One penny is the smallest valid amount. */
  lemma OnePennyIsValid()
    ensures IsValidAmount("0.01") && !IsValidAmount("0.00")
  {
    assert Numeral(0) == "0";
    PenceAmounts(0, '0', '1');
    PenceAmounts(0, '0', '0');
    assert "0" + "." + ['0', '1'] == "0.01";
    assert "0" + "." + ['0', '0'] == "0.00";
  }

  /** The whole pension balance, written with pence, is valid. */
  lemma PensionBalanceInPenceIsValid()
    ensures IsValidAmount("48750.00")
  {
    NumeralOfPensionBalance();
    PenceAmounts(48750, '0', '0');
    assert PoundsAndPence(48750, '0', '0') == 48750.0;
    assert "48750" + "." + ['0', '0'] == "48750.00";
  }

  /** One penny over the pension balance is invalid. */
  lemma OnePennyOverIsInvalid()
    ensures !IsValidAmount("48750.01")
  {
    NumeralOfPensionBalance();
    PenceAmounts(48750, '0', '1');
    assert PoundsAndPence(48750, '0', '1') == 48750.01;
    assert "48750" + "." + ['0', '1'] == "48750.01";
  }

  lemma EmptyAndPointAreInvalid()
    ensures MatchesAmountPattern("") && !IsValidAmount("")
    ensures MatchesAmountPattern(".") && !IsValidAmount(".")
  {
  }
}
