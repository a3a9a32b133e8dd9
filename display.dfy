/** `price_display` and `active_str`: how amounts and flags are shown. */
module Display {
  import opened Wrappers
  import opened Text

  function Abs(x: int): nat {
    if x < 0 then -x else x
  }

  /**
   * `price_display`: an amount in øre shown as kroner with two decimals and
   * the suffix " kr."; no amount shows as zero.
   */
  function PriceDisplay(value: Option<int>): (s: string)
    ensures |s| >= 8 && s[|s| - 4..] == " kr."
  {
    var v := if value.None? then 0 else value.value;
    var a := Abs(v);
    Shown(v < 0, NatToString(a / 100), [DigitChar(a % 100 / 10), DigitChar(a % 10)])
  }

  /** Reads back a price as `PriceDisplay` shows it. */
  function ReadPrice(s: string): Option<int> {
    if |s| < 4 || s[|s| - 4..] != " kr." then None
    else
      var body := s[..|s| - 4];
      if body != [] && body[0] == '-' then
        match ReadAmount(body[1..])
        case None => None
        case Some(a) => Some(-(a as int))
      else
        match ReadAmount(body)
        case None => None
        case Some(a) => Some(a)
  }

  /** Reads `kroner.cents`, with exactly two digits of cents, as an amount in øre. */
  function ReadAmount(digits: string): Option<nat> {
    if |digits| < 4 || digits[|digits| - 3] != '.' then None
    else
      var cents := digits[|digits| - 2..];
      match ParseNat(digits[..|digits| - 3])
      case None => None
      case Some(kroner) =>
        if !IsDigit(cents[0]) || !IsDigit(cents[1]) then None
        else Some(kroner * 100 + DigitValue(cents[0]) * 10 + DigitValue(cents[1]))
  }

  /** What `PriceDisplay` shows is exactly the amount: reading it back gives the amount. */
  lemma PriceDisplayReadsBack(v: int)
    ensures ReadPrice(PriceDisplay(Some(v))) == Some(v)
  {
    var a := Abs(v);
    var k := NatToString(a / 100);
    var cents := [DigitChar(a % 100 / 10), DigitChar(a % 10)];
    assert PriceDisplay(Some(v)) == Shown(v < 0, k, cents);
    NatToStringRoundTrip(a / 100);
    assert DigitsValue(k) == a / 100;
    ReadPriceParts(v < 0, k, cents);
    Decimal(a);
  }

  lemma Decimal(a: nat)
    ensures a == (a / 100) * 100 + (a % 100 / 10) * 10 + a % 10
  {
    var h, r := a / 100, a % 100;
    var t, u := r / 10, r % 10;
    assert a == h * 100 + r;
    assert r == t * 10 + u;
    assert a == (h * 10 + t) * 10 + u && 0 <= u < 10;
  }

  function Shown(negative: bool, kroner: string, cents: string): string {
    (if negative then "-" else "") + kroner + "." + cents + " kr."
  }

  lemma ReadPriceParts(negative: bool, kroner: string, cents: string)
    requires kroner != [] && AllDigits(kroner) && |cents| == 2 && AllDigits(cents)
    ensures var a := DigitsValue(kroner) * 100 + DigitValue(cents[0]) * 10 + DigitValue(cents[1]);
      ReadPrice(Shown(negative, kroner, cents)) == Some(if negative then -a else a)
  {
    var s := Shown(negative, kroner, cents);
    var sign := if negative then "-" else "";
    var digits := kroner + "." + cents;
    assert s[|s| - 4..] == " kr." && s[..|s| - 4] == sign + digits by {
      assert s == (sign + digits) + " kr.";
    }
    var body := s[..|s| - 4];
    if negative {
      assert body[0] == '-' && body[1..] == digits;
    } else {
      assert body == digits && body[0] == kroner[0];
    }
    ReadAmountParts(kroner, cents);
  }

  lemma ReadAmountParts(kroner: string, cents: string)
    requires kroner != [] && AllDigits(kroner) && |cents| == 2 && AllDigits(cents)
    ensures ReadAmount(kroner + "." + cents)
         == Some(DigitsValue(kroner) * 100 + DigitValue(cents[0]) * 10 + DigitValue(cents[1]))
  {
    var digits := kroner + "." + cents;
    assert digits[|digits| - 3] == '.';
    assert digits[..|digits| - 3] == kroner && digits[|digits| - 2..] == cents;
  }

  /** No amount is shown as zero. */
  lemma PriceDisplayNone()
    ensures PriceDisplay(None) == PriceDisplay(Some(0))
  {
  }

  /** `active_str`: "+" for an active flag, "-" otherwise. */
  function ActiveStr(active: bool): (s: string)
    ensures s == "+" <==> active
    ensures s == "-" <==> !active
  {
    if active then "+" else "-"
  }
}
