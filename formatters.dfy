/**
 * The input formatters of the add-funds form: what the card-number, expiry,
 * CVV and custom-amount fields hold after each `input` event
 * (js/addFunds.js lines 97-119 and 392-401).
 */
module Formatters {
  import opened Text

  /** `formattedValue.substr(0, 19)`: 16 digits in four blocks and three separators. */
  const CardNumberMaxLength := 19
  const CardNumberMaxDigits := 16

  /** `substring(2, 4)` keeps at most two digits after the slash. */
  const ExpiryMaxDigits := 4

  /** The clamp listener's ceiling for a typed amount (Rp 100,000,000). */
  const MaxCustomAmount := 100000000

  // ---------------------------------------------------------------------------
  // Card number
  // ---------------------------------------------------------------------------

  /** Position `i` of a grouping of `d`: every fifth character is a separator,
      the others are the characters of `d` in order. */
  ghost predicate GroupedAt(r: string, d: string, i: int)
  {
    0 <= i < |r| &&
    if i % 5 == 4 then r[i] == ' ' else i - i / 5 < |d| && r[i] == d[i - i / 5]
  }

  /** `d.match(/.{1,4}/g)?.join(' ') || d`: blocks of four characters joined by
      single spaces. */
  function GroupBy4(d: string): (r: string)
    ensures |r| == if d == [] then 0 else |d| + (|d| - 1) / 4
    ensures forall i :: 0 <= i < |r| ==> GroupedAt(r, d, i)
    decreases |d|
  {
    if |d| <= 4 then d
    else
      var t := GroupBy4(d[4..]);
      GroupedAfterBlock(d, t);
      d[..4] + " " + t
  }

  /** Putting a block of four and a separator before a grouping of the rest
      of `d` gives a grouping of `d`. */
  lemma GroupedAfterBlock(d: string, t: string)
    requires |d| > 4
    requires forall j :: 0 <= j < |t| ==> GroupedAt(t, d[4..], j)
    ensures forall i :: 0 <= i < |t| + 5 ==> GroupedAt(d[..4] + " " + t, d, i)
  {
    var r := d[..4] + " " + t;
    forall i | 0 <= i < |r| ensures GroupedAt(r, d, i) {
      if i >= 5 {
        var j := i - 5;
        assert GroupedAt(t, d[4..], j);
        assert j % 5 == i % 5 && j / 5 == i / 5 - 1;
      }
    }
  }

  /** The card-number field after an `input` event (lines 98-100). */
  function FormatCardNumber(s: string): (r: string)
    ensures |r| <= CardNumberMaxLength
  {
    var g := GroupBy4(Digits(RemoveSpaces(s)));
    if |g| > CardNumberMaxLength then g[..CardNumberMaxLength] else g
  }

  /** The first (at most) 16 digits of the typed text. */
  function CardDigits(s: string): (e: string)
    ensures |e| == Min(|Digits(s)|, CardNumberMaxDigits)
    ensures e == Digits(s)[..|e|]
    ensures AllDigits(e) && |e| <= CardNumberMaxDigits
  {
    var d := Digits(s);
    d[..Min(|d|, CardNumberMaxDigits)]
  }

  /** Grouping only inserts separators: removing them gives the digits back. */
  lemma {:induction false} GroupedDigits(e: string)
    requires AllDigits(e)
    ensures Digits(GroupBy4(e)) == e && RemoveSpaces(GroupBy4(e)) == e
    decreases |e|
  {
    if |e| <= 4 {
      DigitsOfDigits(e);
    } else {
      GroupedDigits(e[4..]);
      DigitsOfDigits(e[..4]);
      DigitsConcat(e[..4] + " ", GroupBy4(e[4..]));
      DigitsConcat(e[..4], " ");
      assert e[..4] + e[4..] == e;
    }
  }

  /** Truncating the grouping of more than 16 digits to 19 characters is the
      grouping of the first 16 digits. */
  lemma GroupTruncated(d: string)
    requires |d| > CardNumberMaxDigits
    ensures GroupBy4(d)[..CardNumberMaxLength] == GroupBy4(d[..CardNumberMaxDigits])
  {
    var g, h := GroupBy4(d), GroupBy4(d[..CardNumberMaxDigits]);
    assert |h| == CardNumberMaxLength;
    forall i | 0 <= i < CardNumberMaxLength ensures g[i] == h[i] {
      assert GroupedAt(g, d, i);
      assert GroupedAt(h, d[..CardNumberMaxDigits], i);
      assert i % 5 != 4 ==> h[i] == d[i - i / 5];
    }
  }

  /** The card-number formatter groups the first 16 typed digits. */
  lemma CardNumberGrouping(s: string)
    ensures FormatCardNumber(s) == GroupBy4(CardDigits(s))
  {
    var d := Digits(s);
    DigitsIdempotent(s);
    if |d| > CardNumberMaxDigits {
      GroupTruncated(d);
    } else {
      assert CardDigits(s) == d;
    }
  }

  /** The grouping of digits: a single space before each new block of four,
      digits elsewhere, and no trailing space. */
  lemma GroupedShape(e: string)
    requires AllDigits(e)
    ensures var r := GroupBy4(e);
      && (forall i :: 0 <= i < |r| ==> (r[i] == ' ' <==> i % 5 == 4))
      && (forall i :: 0 <= i < |r| && i % 5 != 4 ==> IsDigit(r[i]))
      && (r != [] ==> IsDigit(r[|r| - 1]))
  {
    var r := GroupBy4(e);
    forall i | 0 <= i < |r|
      ensures (r[i] == ' ' <==> i % 5 == 4) && (i % 5 != 4 ==> IsDigit(r[i]))
    {
      assert GroupedAt(r, e, i);
    }
    if r != [] {
      var q, m := (|e| - 1) / 4, (|e| - 1) % 4;
      assert |e| - 1 == 4 * q + m;
      assert |r| - 1 == 5 * q + m;
      assert (|r| - 1) % 5 == m;
    }
  }

  /** The shape of a formatted card number: digits, with a single space before
      each new block of four, no trailing space, at most 19 characters, and the
      digits it holds are the first (at most 16) digits typed. */
  lemma CardNumberShape(s: string)
    ensures var r := FormatCardNumber(s);
      && |r| <= CardNumberMaxLength
      && (forall i :: 0 <= i < |r| ==> (r[i] == ' ' <==> i % 5 == 4))
      && (forall i :: 0 <= i < |r| && i % 5 != 4 ==> IsDigit(r[i]))
      && (r != [] ==> IsDigit(r[|r| - 1]))
      && Digits(r) == CardDigits(s)
      && RemoveSpaces(r) == CardDigits(s)
  {
    var e := CardDigits(s);
    CardNumberGrouping(s);
    GroupedDigits(e);
    GroupedShape(e);
  }

  /** Formatting a formatted card number changes nothing. */
  lemma CardNumberIdempotent(s: string)
    ensures FormatCardNumber(FormatCardNumber(s)) == FormatCardNumber(s)
  {
    var r := FormatCardNumber(s);
    CardNumberShape(s);
    CardNumberGrouping(r);
    CardNumberGrouping(s);
    assert CardDigits(r) == CardDigits(s);
  }

  /** An empty field is already formatted. */
  lemma EmptyFieldsFormatted()
    ensures FormatCardNumber("") == "" && FormatExpiry("") == ""
  {
    assert Digits(RemoveSpaces("")) == "";
  }

  // ---------------------------------------------------------------------------
  // Expiry date
  // ---------------------------------------------------------------------------

  /** The expiry field after an `input` event (lines 107-110). */
  function FormatExpiry(s: string): (r: string)
    ensures |r| <= ExpiryMaxDigits + 1
    ensures |r| > 2 ==> r[2] == '/'
  {
    var d := Digits(s);
    if |d| >= 2 then d[..2] + "/" + d[2..Min(|d|, ExpiryMaxDigits)] else d
  }

  /** `MM/YY` shape: two digits, a slash, two digits. */
  predicate IsMonthYear(e: string)
  {
    |e| == 5 && IsDigit(e[0]) && IsDigit(e[1]) && e[2] == '/' && IsDigit(e[3]) && IsDigit(e[4])
  }

  /** Fewer than two digits are kept as they are; otherwise the result is two
      digits, a slash and up to two more digits, and the digits it holds are the
      first (at most 4) digits typed. */
  lemma ExpiryShape(s: string)
    ensures var r, d := FormatExpiry(s), Digits(s);
      && (|d| < 2 ==> r == d)
      && (|d| >= 2 ==> |r| == Min(|d|, ExpiryMaxDigits) + 1 && r[2] == '/'
                       && forall i :: 0 <= i < |r| && i != 2 ==> IsDigit(r[i]))
      && Digits(r) == d[..Min(|d|, ExpiryMaxDigits)]
  {
    var d := Digits(s);
    var k := Min(|d|, ExpiryMaxDigits);
    if |d| >= 2 {
      DigitsOfDigits(d[..2]);
      DigitsOfDigits(d[2..k]);
      DigitsConcat(d[..2] + "/", d[2..k]);
      DigitsConcat(d[..2], "/");
      assert d[..2] + d[2..k] == d[..k];
    } else {
      DigitsIdempotent(s);
      assert d[..k] == d;
    }
  }

  /** Formatting a formatted expiry changes nothing. */
  lemma ExpiryIdempotent(s: string)
    ensures FormatExpiry(FormatExpiry(s)) == FormatExpiry(s)
  {
    var d := Digits(s);
    var r := FormatExpiry(s);
    ExpiryShape(s);
    ExpiryShape(r);
    if |d| >= 2 {
      var e := Digits(r);
      assert e[..2] == d[..2];
      assert e[2..Min(|e|, ExpiryMaxDigits)] == d[2..Min(|d|, ExpiryMaxDigits)];
    }
  }

  /** A formatted expiry has five characters exactly when four digits were
      typed, and then it has the `MM/YY` shape. */
  lemma ExpiryComplete(s: string)
    ensures |FormatExpiry(s)| == 5 <==> |Digits(s)| >= ExpiryMaxDigits
    ensures |FormatExpiry(s)| == 5 ==> IsMonthYear(FormatExpiry(s))
  {
    ExpiryShape(s);
  }

  // ---------------------------------------------------------------------------
  // Custom amount
  // ---------------------------------------------------------------------------

  /** `selectedAmount` as set by the formatting listener (lines 393-400): the
      digits of the text read as a decimal integer, or 0 when there are none.
      Digits without a leading zero are exactly the numeral of the amount. */
  function ParseCustomAmount(s: string): (n: nat)
    ensures Digits(s) == [] ==> n == 0
    ensures var d := Digits(s); d != [] && (|d| > 1 ==> d[0] != '0') ==> DecimalString(n) == d
  {
    var d := Digits(s);
    if d == [] then 0
    else if |d| > 1 && d[0] == '0' then DecimalValue(d)
    else DecimalCanonical(d); DecimalValue(d)
  }

  /** A numeral written by `toString` reads back as its number. */
  lemma CustomAmountOfNumeral(n: nat)
    ensures ParseCustomAmount(DecimalString(n)) == n
  {
    DigitsOfDigits(DecimalString(n));
    DecimalRoundTrip(n);
  }

  /** Separators (anything but a digit) do not change the amount read, so the
      locale-grouped text the field shows reads back as the amount it shows. */
  lemma CustomAmountIgnoresSeparator(a: string, sep: char, b: string)
    requires !IsDigit(sep)
    ensures ParseCustomAmount(a + [sep] + b) == ParseCustomAmount(a + b)
  {
    DigitsConcat(a + [sep], b);
    DigitsConcat(a, [sep]);
    DigitsConcat(a, b);
    assert [sep][1..] == [];
    assert Digits([sep]) == [];
    assert Digits(a + [sep] + b) == Digits(a + b);
  }

  /** Re-reading displayed text whose digits are the numeral of `n` gives `n`. */
  lemma CustomAmountReread(shown: string, n: nat)
    requires Digits(shown) == DecimalString(n)
    ensures ParseCustomAmount(shown) == n
  {
    DecimalRoundTrip(n);
  }

  /** The clamp listener (lines 246-249) for a text made of digits alone, where
      `parseFloat` reads exactly the numeral: a value above the ceiling is
      replaced by the ceiling's numeral. Other texts pass through. */
  function ClampCustomText(s: string): (r: string)
    ensures r == s || r == DecimalString(MaxCustomAmount)
    ensures s != [] && AllDigits(s) ==> AllDigits(r) && DecimalValue(r) == Min(DecimalValue(s), MaxCustomAmount)
  {
    if s != [] && AllDigits(s) && DecimalValue(s) > MaxCustomAmount then
      DecimalRoundTrip(MaxCustomAmount); DecimalString(MaxCustomAmount)
    else s
  }

  /** `selectedAmount` after the clamp and the formatting listener have run.
      A text holding anything but digits passes the clamp untouched, as it
      does in the code when `parseFloat` reads it as NaN or as a number from
      0 to the ceiling (grouped text, for one). */
  function CustomAmount(s: string): (n: nat)
    ensures !AllDigits(s) ==> n == ParseCustomAmount(s)
  {
    ParseCustomAmount(ClampCustomText(s))
  }

  /** The custom field's text once the clamp and formatting listeners have
      run (lines 247-248, 393-397), `formatNumber` being the locale's number
      formatter. */
  function CustomFieldText(s: string, formatNumber: nat -> string): (r: string)
    ensures Digits(ClampCustomText(s)) != [] ==> r == formatNumber(CustomAmount(s))
    ensures Digits(ClampCustomText(s)) == [] ==> r == ClampCustomText(s) && CustomAmount(s) == 0
  {
    var t := ClampCustomText(s);
    if Digits(t) != [] then formatNumber(DecimalValue(Digits(t))) else t
  }

  /** For a numeral, the amount is its value capped at Rp 100,000,000. */
  lemma CustomAmountCapped(s: string)
    requires AllDigits(s)
    ensures CustomAmount(s) == Min(DecimalValue(s), MaxCustomAmount)
  {
    DigitsOfDigits(s);
    if s != [] && DecimalValue(s) > MaxCustomAmount {
      CustomAmountOfNumeral(MaxCustomAmount);
    }
  }

  /** As written, a numeral with a grouping dot after at most eight digits
      escapes the clamp: `parseFloat` reads it as a number below the ceiling,
      yet its amount is the value of all its digits, however large. */
  lemma CustomAmountEscapesClamp(a: string, sep: char, b: string)
    requires sep == '.' && |a| <= 8
    requires !IsDigit(sep) && AllDigits(a + b) && a + b != []
    ensures CustomAmount(a + [sep] + b) == DecimalValue(a + b)
  {
    var s := a + [sep] + b;
    assert s[|a|] == sep;
    CustomAmountIgnoresSeparator(a, sep, b);
    DigitsOfDigits(a + b);
  }

  /** As written: any amount above the ceiling, its numeral split by a
      grouping dot after the first digit, reads as the full amount (for
      150000000, the text 1.50000000). */
  lemma GroupedAboveCeiling(n: nat)
    requires n > MaxCustomAmount
    ensures var t := DecimalString(n); CustomAmount(t[..1] + "." + t[1..]) == n > MaxCustomAmount
  {
    var t := DecimalString(n);
    DecimalRoundTrip(n);
    assert t[..1] + t[1..] == t;
    CustomAmountEscapesClamp(t[..1], '.', t[1..]);
  }

  /** The amount as intended: whatever the text, its digits' value capped at
      Rp 100,000,000. */
  function CustomAmountIntended(s: string): (n: nat)
    ensures n <= MaxCustomAmount
    ensures ParseCustomAmount(s) <= MaxCustomAmount ==> n == ParseCustomAmount(s)
  {
    Min(ParseCustomAmount(s), MaxCustomAmount)
  }

  /** The intended amount agrees with the one written for every text the
      clamp does see, a numeral, and caps every other text as well. */
  lemma CustomAmountIntendedAgrees(s: string)
    ensures AllDigits(s) ==> CustomAmountIntended(s) == CustomAmount(s)
    ensures CustomAmountIntended(s) == Min(CustomAmount(s), MaxCustomAmount)
  {
    if AllDigits(s) {
      CustomAmountCapped(s);
      if s != [] {
        DigitsOfDigits(s);
      }
    }
  }
}
