/** Money as text: amounts are printed with two decimals, encrypted, and parsed back. */
module Money {
  import opened Jobs

  // ----- printing and parsing -----

  function Digit(d: nat): char
    requires d < 10
  {
    "0123456789"[d]
  }

  predicate IsDigit(ch: char) {
    '0' <= ch <= '9'
  }

  function DigitValue(ch: char): nat
    requires IsDigit(ch)
  {
    ch as int - '0' as int
  }

  function Pow10(n: nat): (p: nat)
    ensures p >= 1
  {
    if n == 0 then 1 else 10 * Pow10(n - 1)
  }

  /** The decimal digits of a number, without leading zeros. */
  function Digits(n: nat): string {
    if n < 10 then [Digit(n)] else Digits(n / 10) + [Digit(n % 10)]
  }

  /** The last `places` decimal digits of a number, with leading zeros. */
  function Padded(n: nat, places: nat): string {
    if places == 0 then "" else Padded(n / 10, places - 1) + [Digit(n % 10)]
  }

  /** A number without its last `places` digits. */
  function Whole(n: nat, places: nat): nat {
    if places == 0 then n else Whole(n / 10, places - 1)
  }

  predicate AllDigits(s: string) {
    forall i :: 0 <= i < |s| ==> IsDigit(s[i])
  }

  function Value(s: string): nat
    requires AllDigits(s)
  {
    if s == "" then 0 else Value(s[..|s| - 1]) * 10 + DigitValue(s[|s| - 1])
  }

  /** A decimal number: its sign, its magnitude in units of the last place, and the number of places. */
  datatype Decimal = Decimal(negative: bool, magnitude: nat, places: nat) {
    function ToReal(): real {
      var m := magnitude as real / Pow10(places) as real;
      if negative then -m else m
    }
  }

  /** Formatting with a fixed number of decimals. */
  function Print(d: Decimal): string {
    var text := PrintUnsigned(d.magnitude, d.places);
    if d.negative then "-" + text else text
  }

  function PrintUnsigned(magnitude: nat, places: nat): string {
    Digits(Whole(magnitude, places)) + "." + Padded(magnitude, places)
  }

  /** The index of the first decimal point, or the length. */
  function PointAt(s: string): (i: nat)
    ensures i <= |s|
  {
    if s == "" || s[0] == '.' then 0 else 1 + PointAt(s[1..])
  }

  /** Parsing an optional sign, digits, a point and digits. */
  function Parse(s: string): Option<Decimal> {
    if s != "" && s[0] == '-' then ParseUnsigned(true, s[1..]) else ParseUnsigned(false, s)
  }

  function ParseUnsigned(negative: bool, s: string): Option<Decimal> {
    var point := PointAt(s);
    if point == 0 || point == |s| then None else
    var whole, frac := s[..point], s[point + 1..];
    if AllDigits(whole) && AllDigits(frac) then Some(Joined(negative, whole, frac)) else None
  }

  function Joined(negative: bool, whole: string, frac: string): Decimal
    requires AllDigits(whole) && AllDigits(frac)
  {
    Decimal(negative, Value(whole) * Pow10(|frac|) + Value(frac), |frac|)
  }

  lemma {:induction false} DigitsValue(n: nat)
    ensures Digits(n) != "" && AllDigits(Digits(n)) && Value(Digits(n)) == n
  {
    if n >= 10 {
      DigitsValue(n / 10);
      LastDigit(Digits(n / 10), n % 10);
    }
  }

  /** The two halves of a printed number make it up. */
  lemma {:induction false} PaddedValue(n: nat, places: nat)
    ensures |Padded(n, places)| == places && AllDigits(Padded(n, places))
    ensures Whole(n, places) * Pow10(places) + Value(Padded(n, places)) == n
  {
    if places > 0 {
      PaddedValue(n / 10, places - 1);
      LastDigit(Padded(n / 10, places - 1), n % 10);
      TimesTen(Whole(n / 10, places - 1), Pow10(places - 1));
    }
  }

  lemma LastDigit(s: string, d: nat)
    requires AllDigits(s) && d < 10
    ensures AllDigits(s + [Digit(d)]) && Value(s + [Digit(d)]) == Value(s) * 10 + d
  {
    assert (s + [Digit(d)])[..|s|] == s;
  }

  lemma TimesTen(w: nat, p: nat)
    ensures w * (10 * p) == 10 * (w * p)
  {
  }

  lemma {:induction false} PointAfter(a: string, b: string)
    requires AllDigits(a)
    ensures PointAt(a + "." + b) == |a|
  {
    if a == "" {
      assert (a + "." + b)[0] == '.';
    } else {
      assert (a + "." + b)[1..] == a[1..] + "." + b;
      assert IsDigit(a[0]);
      PointAfter(a[1..], b);
    }
  }

  lemma HalvesParse(negative: bool, whole: string, frac: string)
    requires whole != "" && AllDigits(whole) && AllDigits(frac)
    ensures ParseUnsigned(negative, whole + "." + frac) == Some(Joined(negative, whole, frac))
  {
    PointAfter(whole, frac);
    var s := whole + "." + frac;
    assert s[..|whole|] == whole && s[|whole| + 1..] == frac;
  }

  /** The text without its sign starts with a digit and parses back. */
  lemma UnsignedParses(d: Decimal)
    ensures var text := PrintUnsigned(d.magnitude, d.places);
            text != "" && IsDigit(text[0]) && ParseUnsigned(d.negative, text) == Some(d)
  {
    var whole, frac := Digits(Whole(d.magnitude, d.places)), Padded(d.magnitude, d.places);
    DigitsValue(Whole(d.magnitude, d.places));
    PaddedValue(d.magnitude, d.places);
    HalvesParse(d.negative, whole, frac);
    assert (whole + "." + frac)[0] == whole[0];
  }

  /** Every printed decimal parses back to itself, sign and number of places included. */
  lemma ParsePrint(d: Decimal)
    ensures Parse(Print(d)) == Some(d)
  {
    UnsignedParses(d);
    SignParses(d.negative, PrintUnsigned(d.magnitude, d.places));
  }

  lemma SignParses(negative: bool, text: string)
    requires text != "" && IsDigit(text[0])
    ensures Parse(if negative then "-" + text else text) == ParseUnsigned(negative, text)
  {
    assert ("-" + text)[1..] == text;
  }

  /** The printed whole part has no leading zero unless it is "0", and the fraction has exactly its places. */
  lemma {:induction false} NoLeadingZero(n: nat)
    ensures Digits(n) != "" && AllDigits(Digits(n)) && (Digits(n)[0] == '0' ==> Digits(n) == "0")
    ensures n >= 10 ==> Digits(n)[0] != '0'
  {
    if n >= 10 {
      NoLeadingZero(n / 10);
      if n / 10 < 10 {
        assert Digits(n / 10) == [Digit(n / 10)];
      }
    }
  }

  /** A minus sign exactly for a negative number, the digits of the whole part, a point, and the places. */
  lemma PrintedForm(d: Decimal)
    ensures var whole, frac := Whole(d.magnitude, d.places), Padded(d.magnitude, d.places);
            && Print(d) == (if d.negative then "-" else "") + Digits(whole) + "." + frac
            && Digits(whole) != "" && (Digits(whole)[0] == '0' ==> Digits(whole) == "0")
            && AllDigits(frac) && |frac| == d.places
  {
    NoLeadingZero(Whole(d.magnitude, d.places));
    PaddedValue(d.magnitude, d.places);
    if d.negative {
      assert Print(d) == "-" + Digits(Whole(d.magnitude, d.places)) + "." + Padded(d.magnitude, d.places);
    } else {
      assert "" + Digits(Whole(d.magnitude, d.places)) == Digits(Whole(d.magnitude, d.places));
    }
  }

  // ----- cents -----

  /** `c` is a whole number of cents nearest to `x`; ties may go either way. */
  predicate IsNearestCent(x: real, c: int) {
    -1.0 <= 2.0 * (c as real - 100.0 * x) <= 1.0
  }

  /** Rounding to the nearest cent, ties upward. */
  function ToCents(x: real): (c: int)
    ensures IsNearestCent(x, c)
  {
    (100.0 * x + 0.5).Floor
  }

  /** The two-decimal text of an amount that rounds to `c` cents. */
  function CentText(x: real, c: int): string {
    Print(Decimal(x < 0.0, if c < 0 then -c else c, 2))
  }

  /** Encrypted text.  `Sealed` is what encryption produces, `Corrupt` what decryption refuses. */
  datatype Cipher = Empty | Sealed(plain: string) | Corrupt

  /** Decrypting to an amount: the empty column means zero. */
  function Decrypt(v: Cipher): Option<real> {
    match v
    case Empty => Some(0.0)
    case Sealed(plain) => (match Parse(plain) case Some(d) => Some(d.ToReal()) case None => None)
    case Corrupt => None
  }

  /** Storing an amount and reading it back gives the amount rounded to the nearest cent. */
  lemma StoredAmountIsNearestCent(x: real, c: int)
    requires IsNearestCent(x, c)
    ensures Decrypt(Sealed(CentText(x, c))) == Some(c as real / 100.0)
  {
    CentTextReads(x < 0.0, if c < 0 then -c else c);
    SignKept(x, c);
  }

  lemma CentTextReads(negative: bool, m: nat)
    ensures Decrypt(Sealed(Print(Decimal(negative, m, 2)))) == Some(SignedCents(negative, m))
  {
    ParsePrint(Decimal(negative, m, 2));
    HundredthsValue(negative, m);
  }

  function SignedCents(negative: bool, m: nat): real {
    if negative then -(m as real / 100.0) else m as real / 100.0
  }

  lemma HundredthsValue(negative: bool, m: nat)
    ensures Decimal(negative, m, 2).ToReal() == SignedCents(negative, m)
  {
    assert Pow10(2) == 10 * Pow10(1) == 100;
  }

  lemma SignKept(x: real, c: int)
    requires IsNearestCent(x, c)
    ensures SignedCents(x < 0.0, if c < 0 then -c else c) == c as real / 100.0
  {
    assert x < 0.0 ==> c <= 0;
    assert x >= 0.0 ==> c >= 0;
  }

  /** An amount that was stored once survives further round trips unchanged. */
  lemma CentsStable(c: int)
    ensures ToCents(c as real / 100.0) == c
  {
    assert 100.0 * (c as real / 100.0) == c as real;
  }
}
