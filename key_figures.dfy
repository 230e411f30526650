/**
 * Key-figure normalisation: German-convention number parsing, currency and thousands-unit
 * detection, and compaction of large amounts to "Mio." and "Mrd.".
 */
module KeyFigures {
  import opened Wrappers
  import opened Seqs
  import opened Strings
  import opened ReportSchema

  datatype Currency = EUR | USD | Unknown

  predicate AllDigits(s: string) {
    forall i :: 0 <= i < |s| ==> IsDigit(s[i])
  }

  /** The value of a string of decimal digits. */
  function DigitsValue(s: string): nat
    requires AllDigits(s)
  {
    if s == [] then 0 else DigitsValue(s[..|s| - 1]) * 10 + (s[|s| - 1] as int - '0' as int)
  }

  function Pow10(n: nat): (r: nat)
    ensures r > 0
  {
    if n == 0 then 1 else 10 * Pow10(n - 1)
  }

  function Signed(negative: bool, x: real): real {
    if negative then -x else x
  }

  /** A decimal number: whole digits, then `frac` as digits after the point. */
  function DecimalValue(whole: string, frac: string): real
    requires AllDigits(whole) && AllDigits(frac)
  {
    DigitsValue(whole) as real + DigitsValue(frac) as real / Pow10(|frac|) as real
  }

  /** An unsigned number: digits, or digits around one decimal point with a digit on some side. */
  function ParseUnsigned(body: string): Option<real> {
    var parts := Split(body, '.');
    if |parts| == 1 && parts[0] != "" && AllDigits(parts[0]) then Some(DigitsValue(parts[0]) as real)
    else if |parts| == 2 && AllDigits(parts[0]) && AllDigits(parts[1]) && |parts[0]| + |parts[1]| > 0 then
      Some(DecimalValue(parts[0], parts[1]))
    else None
  }

  predicate HasSign(t: string) {
    |t| > 0 && (t[0] == '-' || t[0] == '+')
  }

  /**
   * Python `float(s)` on the grammar this model accepts: surrounding whitespace, an optional
   * sign, then an unsigned number.
   */
  function ParseFloat(s: string): Option<real> {
    var t := Strip(s);
    var body := if HasSign(t) then t[1..] else t;
    match ParseUnsigned(body)
    case None => None
    case Some(x) => Some(Signed(HasSign(t) && t[0] == '-', x))
  }

  /** The German-convention rewrite: strip, drop spaces and thousands dots, decimal comma to point. */
  function Cleaned(value: string): string {
    Replace(Replace(Replace(Strip(value), ' ', ""), '.', ""), ',', ".")
  }

  /** `parse_number_de`: None for an empty value or one that is not a number once rewritten. */
  function ParseNumberDe(value: string): (r: Option<real>)
    ensures value == "" ==> r == None
  {
    if value == "" then None else ParseFloat(Cleaned(value))
  }

  /** `detect_currency`: EUR takes precedence over USD, on the lowercased unit. */
  function DetectCurrency(unit: string): Currency {
    var u := Lower(unit);
    if Contains(u, "€") || Contains(u, "eur") || Contains(u, "euro") then EUR
    else if Contains(u, "$") || Contains(u, "usd") || Contains(u, "dollar") then USD
    else Unknown
  }

  function CurrencySymbol(currency: Currency): string {
    match currency
    case EUR => "€"
    case USD => "$"
    case Unknown => ""
  }

  /** `is_thousand_unit`: the lowercased unit without dots names a thousands scale. */
  predicate IsThousandUnit(unit: string) {
    var u := Strip(Replace(Lower(unit), '.', ""));
    Contains(u, "tausend") || Contains(u, "tsd") || Contains(u, "thousand")
    || Contains(u, "k€") || Contains(u, "keur") || Contains(u, "kusd")
  }

  // ---------------------------------------------------------------------------------------------
  // Number formatting

  /** The rounding this model states for `round()` and `:.2f`: to the nearest integer, halves up. */
  function Round(x: real): int {
    (x + 0.5).Floor
  }

  function Zeros(n: nat): (r: string)
    ensures |r| == n && AllDigits(r)
  {
    if n == 0 then "" else "0" + Zeros(n - 1)
  }

  /** The digits of `n`, left-padded with zeros to `width`. */
  function Pad(n: nat, width: nat): (r: string)
    ensures AllDigits(r)
  {
    var s := NatToString(n);
    if |s| >= width then s else Zeros(width - |s|) + s
  }

  /** `f"{n:,}"` for n >= 0: the digits in groups of three separated by commas. */
  function Grouped(n: nat): string
    decreases n
  {
    if n < 1000 then NatToString(n) else Grouped(n / 1000) + "," + Pad(n % 1000, 3)
  }

  /** `f"{i:,}"` for any integer. */
  function GroupedInt(i: int): string {
    if i < 0 then "-" + Grouped(-i) else Grouped(i)
  }

  /** `f"{x:.2f}"` for x >= 0 under the stated rounding. */
  function Fixed2(x: real): string
    requires x >= 0.0
  {
    var q: nat := Round(x * 100.0);
    NatToString(q / 100) + "." + Pad(q % 100, 2)
  }

  const Billion: real := 1000000000.0
  const Million: real := 1000000.0

  /** The amount in the unit its compact form counts in. */
  function Scaled(amount: real): real {
    if amount >= Billion then amount / Billion else if amount >= Million then amount / Million else amount
  }

  /** The numeral of the compact form: two decimals with a decimal comma, or a dot-grouped integer. */
  function Mantissa(amount: real): string {
    if amount >= Million then Replace(Fixed2(Scaled(amount)), '.', ",")
    else Replace(GroupedInt(Round(amount)), ',', ".")
  }

  function ScaleWord(amount: real): string {
    if amount >= Billion then " Mrd." else if amount >= Million then " Mio." else ""
  }

  /** `format_compact_money`. */
  function FormatCompactMoney(amount: real, currency: Currency): string {
    var sym := CurrencySymbol(currency);
    if amount >= Billion then Strip(Mantissa(amount) + " Mrd. " + sym)
    else if amount >= Million then Strip(Mantissa(amount) + " Mio. " + sym)
    else Strip(Mantissa(amount) + " " + sym)
  }

  const PlainCurrencyUnits: seq<string> := ["€", "EUR", "$", "USD"]

  /**
   * `normalize_key_figure`: a figure in EUR or USD whose value parses is rewritten in compact
   * form, scaled by 1000 for a thousands unit and otherwise only when its unit is a bare currency
   * and the number is at least one million; a rewritten figure has unit `""`. Name and context
   * never change.
   */
  function NormalizeKeyFigure(kf: KeyFigure): (r: KeyFigure)
    ensures r.name == kf.name && r.context == kf.context
    ensures r == kf || r.unit == ""
  {
    var unit := Strip(kf.unit);
    var currency := DetectCurrency(unit);
    if currency == Unknown then kf
    else
      var num := ParseNumberDe(kf.value);
      if num.None? then kf
      else if IsThousandUnit(unit) then kf.(value := FormatCompactMoney(num.value * 1000.0, currency), unit := "")
      else if unit in PlainCurrencyUnits && num.value >= Million then kf.(value := FormatCompactMoney(num.value, currency), unit := "")
      else kf
  }

  // ---------------------------------------------------------------------------------------------
  // Properties of strings

  predicate NoSpace(s: string) {
    forall i :: 0 <= i < |s| ==> !IsSpace(s[i])
  }

  lemma StripNoSpace(s: string)
    requires NoSpace(s)
    ensures Strip(s) == s
  {
  }

  lemma NoSpaceAppend(a: string, b: string)
    requires NoSpace(a) && NoSpace(b)
    ensures NoSpace(a + b)
  {
    assert forall i :: |a| <= i < |a + b| ==> (a + b)[i] == b[i - |a|];
  }

  lemma AllDigitsAppend(a: string, b: string)
    requires AllDigits(a) && AllDigits(b)
    ensures AllDigits(a + b)
  {
    assert forall i :: |a| <= i < |a + b| ==> (a + b)[i] == b[i - |a|];
  }

  /** Digits are not whitespace, separators or signs. */
  lemma DigitsPlain(s: string)
    requires AllDigits(s)
    ensures NoSpace(s)
    ensures forall c :: c in s ==> IsDigit(c)
  {
  }

  lemma {:induction false} ReplaceAbsentChar(s: string, c: char, r: string)
    requires forall d :: d in s ==> d != c
    ensures Replace(s, c, r) == s
  {
    ReplaceAbsent(s, c, r);
  }

  lemma {:induction false} ReplaceAppend(a: string, b: string, c: char, r: string)
    ensures Replace(a + b, c, r) == Replace(a, c, r) + Replace(b, c, r)
    decreases |a|
  {
    if a == [] {
      assert a + b == b;
    } else {
      assert (a + b)[1..] == a[1..] + b;
      ReplaceAppend(a[1..], b, c, r);
    }
  }

  /** `Replace(a + [x] + b, c, r)`, for a single character `x`. */
  lemma Replace3(a: string, x: char, b: string, c: char, r: string)
    ensures Replace(a + [x] + b, c, r) == Replace(a, c, r) + (if x == c then r else [x]) + Replace(b, c, r)
  {
    ReplaceAppend(a + [x], b, c, r);
    ReplaceAppend(a, [x], c, r);
    assert Replace([x], c, r) == (if x == c then r else [x]) + Replace([], c, r);
  }

  /** The characters of a replacement come from the string, minus `c`, or from `r`. */
  lemma {:induction false} ReplaceChars(s: string, c: char, r: string)
    ensures forall d :: d in Replace(s, c, r) ==> (d in s && d != c) || d in r
    decreases |s|
  {
    if s != [] {
      ReplaceChars(s[1..], c, r);
      assert forall d :: d in s[1..] ==> d in s;
    }
  }

  /** Replacing `c` by `d` and then dropping `d` drops `c`, when `d` does not occur. */
  lemma {:induction false} ReplaceThenDrop(s: string, c: char, d: char)
    requires d !in s && c != d
    ensures Replace(Replace(s, c, [d]), d, "") == Replace(s, c, "")
    decreases |s|
  {
    if s != [] {
      ReplaceThenDrop(s[1..], c, d);
      ReplaceAppend(if s[0] == c then [d] else [s[0]], Replace(s[1..], c, [d]), d, "");
    }
  }

  /** Dropping the dots of a string of digits and dots leaves digits, and keeps a digit if there is one. */
  lemma {:induction false} DropDotsDigits(s: string)
    requires forall i :: 0 <= i < |s| ==> IsDigit(s[i]) || s[i] == '.'
    ensures AllDigits(Replace(s, '.', ""))
    ensures (exists i :: 0 <= i < |s| && IsDigit(s[i])) ==> Replace(s, '.', "") != ""
    decreases |s|
  {
    if s != [] {
      DropDotsDigits(s[1..]);
      var rest := Replace(s[1..], '.', "");
      assert Replace(s, '.', "") == (if s[0] == '.' then "" else [s[0]]) + rest;
      if s[0] != '.' {
        AllDigitsAppend([s[0]], rest);
      }
      if exists i :: 0 <= i < |s| && IsDigit(s[i]) {
        var i :| 0 <= i < |s| && IsDigit(s[i]);
        if i > 0 {
          assert IsDigit(s[1..][i - 1]);
        }
      }
    }
  }

  /** The digits of a concatenation: the left digits shifted past the right ones. */
  lemma {:induction false} DigitsValueAppend(a: string, b: string)
    requires AllDigits(a) && AllDigits(b)
    ensures AllDigits(a + b)
    ensures DigitsValue(a + b) == DigitsValue(a) * Pow10(|b|) + DigitsValue(b)
    decreases |b|
  {
    AllDigitsAppend(a, b);
    if b == [] {
      assert a + b == a;
    } else {
      var n := |b| - 1;
      assert (a + b)[..|a| + n] == a + b[..n];
      DigitsValueAppend(a, b[..n]);
      assert (a + b)[|a| + n] == b[n];
      var e := b[n] as int - '0' as int;
      assert DigitsValue(a + b) == DigitsValue(a + b[..n]) * 10 + e;
      assert DigitsValue(b) == DigitsValue(b[..n]) * 10 + e;
      ShiftDigit(DigitsValue(a), Pow10(n), DigitsValue(b[..n]), e);
    }
  }

  lemma ShiftDigit(x: int, p: int, y: int, e: int)
    ensures (x * p + y) * 10 + e == x * (10 * p) + (y * 10 + e)
  {
  }

  lemma {:induction false} ZerosValue(n: nat)
    ensures DigitsValue(Zeros(n)) == 0
  {
    if n > 0 {
      DigitsValueAppend("0", Zeros(n - 1));
      ZerosValue(n - 1);
    }
  }

  lemma {:induction false} NatToStringValue(n: nat)
    ensures AllDigits(NatToString(n)) && DigitsValue(NatToString(n)) == n
    decreases n
  {
    if n >= 10 {
      NatToStringValue(n / 10);
      var s := NatToString(n);
      assert s[..|s| - 1] == NatToString(n / 10);
    }
  }

  lemma {:induction false} NatToStringLength(n: nat, k: nat)
    requires 1 <= k && n < Pow10(k)
    ensures |NatToString(n)| <= k
    decreases k
  {
    if n >= 10 {
      NatToStringLength(n / 10, k - 1);
    }
  }

  lemma PadSpec(n: nat, width: nat)
    requires 1 <= width && n < Pow10(width)
    ensures |Pad(n, width)| == width && DigitsValue(Pad(n, width)) == n
  {
    NatToStringLength(n, width);
    NatToStringValue(n);
    var s := NatToString(n);
    if |s| < width {
      PadZeros(n, width);
    } else {
      assert Pad(n, width) == s;
    }
  }

  /** Leading zeros add nothing to the value. */
  lemma PadZeros(n: nat, width: nat)
    requires |NatToString(n)| < width
    ensures |Pad(n, width)| == width && DigitsValue(Pad(n, width)) == DigitsValue(NatToString(n))
  {
    var s := NatToString(n);
    var z := Zeros(width - |s|);
    assert Pad(n, width) == z + s;
    DigitsValueAppend(z, s);
    ZerosValue(width - |s|);
    MulZero(DigitsValue(z), Pow10(|s|));
  }

  lemma MulZero(x: nat, y: nat)
    requires x == 0
    ensures x * y == 0
  {
  }

  // ---------------------------------------------------------------------------------------------
  // Properties of parsing

  /** A digit string, with or without a minus sign, parses to its value. */
  lemma ParseFloatDigits(d: string, negative: bool)
    requires AllDigits(d) && d != ""
    ensures ParseFloat((if negative then "-" else "") + d) == Some(Signed(negative, DigitsValue(d) as real))
  {
    DigitsPlain(d);
    var t := (if negative then "-" else "") + d;
    NoSpaceAppend(if negative then "-" else "", d);
    StripNoSpace(t);
    if negative {
      assert t[0] == '-' && t[1..] == d;
    } else {
      assert t[0] == d[0] && IsDigit(d[0]);
    }
    assert (if HasSign(t) then t[1..] else t) == d;
    SplitNoSeparator(d, '.');
    assert ParseUnsigned(d) == Some(DigitsValue(d) as real);
  }

  /** A digit string, a point and a digit string parse as a decimal fraction. */
  lemma ParseFloatDecimal(a: string, b: string)
    requires AllDigits(a) && AllDigits(b) && |a| + |b| > 0
    ensures ParseFloat(a + "." + b) == Some(DecimalValue(a, b))
  {
    DigitsPlain(a);
    DigitsPlain(b);
    var t := a + "." + b;
    NoSpaceAppend(a, ".");
    NoSpaceAppend(a + ".", b);
    StripNoSpace(t);
    assert t[0] == (if a == "" then '.' else a[0]);
    assert !HasSign(t);
    assert a + "." + b == a + ['.'] + b;
    SplitAppend(a, '.', b);
    SplitNoSeparator(b, '.');
    assert Split(t, '.') == [a, b];
    assert ParseUnsigned(t) == Some(DecimalValue(a, b));
  }

  /**
   * German thousands separators: a string of digits and dots with at least one digit, with an
   * optional minus sign, parses to the value of its digits ("1.875.394" gives 1875394).
   */
  lemma ParseNumberDeGrouped(s: string, negative: bool)
    requires forall i :: 0 <= i < |s| ==> IsDigit(s[i]) || s[i] == '.'
    requires exists i :: 0 <= i < |s| && IsDigit(s[i])
    ensures var d := Replace(s, '.', "");
            AllDigits(d)
            && ParseNumberDe((if negative then "-" else "") + s) == Some(Signed(negative, DigitsValue(d) as real))
  {
    var sign := if negative then "-" else "";
    var v := sign + s;
    DropDotsDigits(s);
    var d := Replace(s, '.', "");
    DigitsPlain(d);
    assert forall c :: c in s ==> IsDigit(c) || c == '.';
    assert NoSpace(s);
    NoSpaceAppend(sign, s);
    StripNoSpace(v);
    ReplaceAbsentChar(v, ' ', "");
    ReplaceAppend(sign, s, '.', "");
    ReplaceAbsentChar(sign, '.', "");
    ReplaceAppend(sign, d, ',', ".");
    ReplaceAbsentChar(sign, ',', ".");
    ReplaceAbsentChar(d, ',', ".");
    assert Cleaned(v) == sign + d;
    ParseFloatDigits(d, negative);
  }

  /**
   * The German decimal comma: digits and dots, a comma, then digits parse as the decimal
   * fraction ("1,23" gives 1.23).
   */
  lemma ParseNumberDeDecimal(a: string, b: string)
    requires forall i :: 0 <= i < |a| ==> IsDigit(a[i]) || a[i] == '.'
    requires AllDigits(b)
    requires |Replace(a, '.', "")| + |b| > 0
    ensures var d := Replace(a, '.', "");
            AllDigits(d)
            && ParseNumberDe(a + "," + b) == Some(DecimalValue(d, b))
  {
    var v := a + "," + b;
    assert v == a + [','] + b;
    DropDotsDigits(a);
    var d := Replace(a, '.', "");
    DigitsPlain(b);
    DigitsPlain(d);
    assert forall c :: c in a ==> IsDigit(c) || c == '.';
    assert NoSpace(a);
    NoSpaceAppend(a, ",");
    NoSpaceAppend(a + ",", b);
    StripNoSpace(v);
    assert forall c :: c in v ==> c in a || c == ',' || c in b;
    ReplaceAbsentChar(v, ' ', "");
    Replace3(a, ',', b, '.', "");
    ReplaceAbsentChar(b, '.', "");
    Replace3(d, ',', b, ',', ".");
    ReplaceAbsentChar(d, ',', ".");
    ReplaceAbsentChar(b, ',', ".");
    assert Cleaned(v) == d + "." + b;
    ParseFloatDecimal(d, b);
  }

  // ---------------------------------------------------------------------------------------------
  // Properties of formatting

  /** The thousands groups without their commas. */
  function Ungrouped(n: nat): string
    decreases n
  {
    if n < 1000 then NatToString(n) else Ungrouped(n / 1000) + Pad(n % 1000, 3)
  }

  lemma {:induction false} UngroupedValue(n: nat)
    ensures AllDigits(Ungrouped(n)) && DigitsValue(Ungrouped(n)) == n
    decreases n
  {
    if n < 1000 {
      NatToStringValue(n);
    } else {
      UngroupedValue(n / 1000);
      PadSpec(n % 1000, 3);
      DigitsValueAppend(Ungrouped(n / 1000), Pad(n % 1000, 3));
    }
  }

  lemma {:induction false} GroupedChars(n: nat)
    ensures forall c :: c in Grouped(n) ==> IsDigit(c) || c == ','
    ensures Grouped(n) != "" && IsDigit(Grouped(n)[0])
    decreases n
  {
    if n < 1000 {
      DigitsPlain(NatToString(n));
    } else {
      GroupedChars(n / 1000);
      DigitsPlain(Pad(n % 1000, 3));
    }
  }

  /** Dropping the commas of `g + "," + p`, for digits `p`. */
  lemma DropComma(g: string, p: string, u: string)
    requires Replace(g, ',', "") == u && AllDigits(p)
    ensures Replace(g + "," + p, ',', "") == u + p
  {
    assert Replace(p, ',', "") == p by {
      DigitsPlain(p);
      ReplaceAbsentChar(p, ',', "");
    }
    Replace3(g, ',', p, ',', "");
  }

  lemma {:induction false} GroupedUngrouped(n: nat)
    ensures Replace(Grouped(n), ',', "") == Ungrouped(n)
    decreases n
  {
    if n < 1000 {
      DigitsPlain(NatToString(n));
      ReplaceAbsentChar(NatToString(n), ',', "");
    } else {
      GroupedUngrouped(n / 1000);
      DropComma(Grouped(n / 1000), Pad(n % 1000, 3), Ungrouped(n / 1000));
    }
  }

  lemma CentsSplit(q: nat)
    ensures (q / 100) as real + (q % 100) as real / 100.0 == q as real / 100.0
  {
    assert q == (q / 100) * 100 + q % 100;
  }

  /** The numeral from one million: whole units, a decimal comma, two digits of cents. */
  lemma MantissaLarge(amount: real)
    requires amount >= Million
    ensures var q: nat := Round(Scaled(amount) * 100.0);
            Mantissa(amount) == NatToString(q / 100) + "," + Pad(q % 100, 2)
  {
    var q: nat := Round(Scaled(amount) * 100.0);
    var a, b := NatToString(q / 100), Pad(q % 100, 2);
    DigitsPlain(a);
    DigitsPlain(b);
    assert Fixed2(Scaled(amount)) == a + ['.'] + b;
    Replace3(a, '.', b, '.', ",");
    ReplaceAbsentChar(a, '.', ",");
    ReplaceAbsentChar(b, '.', ",");
  }

  /** The numeral below one million: the sign, then the digit groups separated by dots. */
  lemma MantissaSmall(amount: real)
    requires amount < Million
    ensures var i := Round(amount);
            var g := Grouped(if i < 0 then -i else i);
            Mantissa(amount) == (if i < 0 then "-" else "") + Replace(g, ',', ".")
  {
    var i := Round(amount);
    var g := Grouped(if i < 0 then -i else i);
    ReplaceAppend("-", g, ',', ".");
  }

  /**
   * `format_compact_money`: the numeral, " Mrd." from one billion and " Mio." from one million,
   * then the currency symbol after a space; with no symbol the trailing space is stripped.
   */
  lemma FormatCompactMoneySpec(amount: real, currency: Currency)
    ensures FormatCompactMoney(amount, currency)
            == Mantissa(amount) + ScaleWord(amount) + (if currency == Unknown then "" else " " + CurrencySymbol(currency))
  {
    var sym := CurrencySymbol(currency);
    var m, w := Mantissa(amount), ScaleWord(amount);
    MantissaPlain(amount);
    StripCompact(m, w, sym);
    if amount >= Billion {
      assert m + " Mrd. " + sym == m + w + " " + sym;
    } else if amount >= Million {
      assert m + " Mio. " + sym == m + w + " " + sym;
    } else {
      assert m + " " + sym == m + w + " " + sym;
    }
  }

  /** The numeral of a compact amount is non-empty and free of whitespace. */
  lemma MantissaPlain(amount: real)
    ensures NoSpace(Mantissa(amount)) && Mantissa(amount) != ""
    ensures IsDigit(Mantissa(amount)[0]) || Mantissa(amount)[0] == '-'
  {
    if amount >= Million {
      MantissaLarge(amount);
      var q: nat := Round(Scaled(amount) * 100.0);
      var a, b := NatToString(q / 100), Pad(q % 100, 2);
      DigitsPlain(a);
      DigitsPlain(b);
      NoSpaceAppend(a, ",");
      NoSpaceAppend(a + ",", b);
    } else {
      MantissaSmall(amount);
      var i := Round(amount);
      var g := Grouped(if i < 0 then -i else i);
      DottedGroups(if i < 0 then -i else i);
      var s := Replace(g, ',', ".");
      DottedNoSpace(s);
      NoSpaceAppend(if i < 0 then "-" else "", s);
    }
  }

  /** Stripping `numeral + word + " " + symbol` drops the trailing space exactly when there is no symbol. */
  lemma StripCompact(m: string, word: string, sym: string)
    requires NoSpace(m) && m != ""
    requires word == "" || word == " Mrd." || word == " Mio."
    requires sym == "" || sym == "€" || sym == "$"
    ensures Strip(m + word + " " + sym) == m + word + (if sym == "" then "" else " " + sym)
  {
    var t := m + word + " " + sym;
    var u := m + word + (if sym == "" then "" else " " + sym);
    assert t[0] == m[0];
    assert LStrip(t) == t;
    if sym == "" {
      assert t == u + " ";
      assert t[..|t| - 1] == u;
      assert RStrip(t) == RStrip(u);
      assert u[|u| - 1] == (if word == "" then m[|m| - 1] else '.');
      assert RStrip(u) == u;
    } else {
      assert t == u;
      assert t[|t| - 1] == sym[0];
    }
  }

  /** The grouped digits with dots for commas: digits and dots, starting with a digit. */
  lemma DottedGroups(n: nat)
    ensures var s := Replace(Grouped(n), ',', ".");
            s != [] && IsDigit(s[0]) && forall k :: 0 <= k < |s| ==> IsDigit(s[k]) || s[k] == '.'
  {
    var g := Grouped(n);
    GroupedChars(n);
    var s := Replace(g, ',', ".");
    ReplaceChars(g, ',', ".");
    assert forall c :: c in s ==> IsDigit(c) || c == '.';
    assert forall k :: 0 <= k < |s| ==> s[k] in s;
    assert s[0] == g[0];
  }

  lemma DottedNoSpace(s: string)
    requires forall k :: 0 <= k < |s| ==> IsDigit(s[k]) || s[k] == '.'
    ensures NoSpace(s)
  {
  }

  /** A whole-units numeral, a decimal comma and two digits of cents parse back to the cents over 100. */
  lemma CentsNumeralParses(q: nat)
    ensures ParseNumberDe(NatToString(q / 100) + "," + Pad(q % 100, 2)) == Some(q as real / 100.0)
  {
    var a, b := NatToString(q / 100), Pad(q % 100, 2);
    NatToStringValue(q / 100);
    assert Pow10(2) == 100;
    PadSpec(q % 100, 2);
    DigitsPlain(a);
    ReplaceAbsentChar(a, '.', "");
    ParseNumberDeDecimal(a, b);
    CentsValue(q / 100, q % 100, DecimalValue(a, b));
    CentsSplit(q);
  }

  lemma CentsValue(whole: nat, cents: nat, v: real)
    requires v == DigitsValue(NatToString(whole)) as real + DigitsValue(Pad(cents, 2)) as real / Pow10(|Pad(cents, 2)|) as real
    requires DigitsValue(NatToString(whole)) == whole
    requires |Pad(cents, 2)| == 2 && DigitsValue(Pad(cents, 2)) == cents
    ensures v == whole as real + cents as real / 100.0
  {
    assert Pow10(2) == 100;
  }

  lemma MantissaParsesLarge(amount: real)
    requires amount >= Million
    ensures ParseNumberDe(Mantissa(amount)) == Some(Round(Scaled(amount) * 100.0) as real / 100.0)
  {
    var q := Round(Scaled(amount) * 100.0);
    ScaledCents(amount);
    MantissaLarge(amount);
    assert Mantissa(amount) == NatToString(q / 100) + "," + Pad(q % 100, 2);
    CentsNumeralParses(q);
  }

  /** A million or more scales to at least 1.00, that is at least 100 cents. */
  lemma ScaledCents(amount: real)
    requires amount >= Million
    ensures Round(Scaled(amount) * 100.0) >= 100
  {
    assert Scaled(amount) >= 1.0;
  }

  lemma MantissaParsesSmall(amount: real)
    requires amount < Million
    ensures ParseNumberDe(Mantissa(amount)) == Some(Round(amount) as real)
  {
    MantissaSmall(amount);
    var i := Round(amount);
    var n: nat := if i < 0 then -i else i;
    var g := Grouped(n);
    GroupedChars(n);
    GroupedUngrouped(n);
    UngroupedValue(n);
    DottedGroups(n);
    var s := Replace(g, ',', ".");
    ReplaceThenDrop(g, ',', '.');
    assert Replace(s, '.', "") == Ungrouped(n);
    ParseNumberDeGrouped(s, i < 0);
    assert Signed(i < 0, n as real) == i as real;
  }

  /**
   * Round trip: the numeral of `format_compact_money` parses back under `parse_number_de` to the
   * scaled amount, rounded to cents from one million and to an integer below.
   */
  lemma MantissaParses(amount: real)
    ensures amount >= Million ==>
              ParseNumberDe(Mantissa(amount)) == Some(Round(Scaled(amount) * 100.0) as real / 100.0)
    ensures amount < Million ==> ParseNumberDe(Mantissa(amount)) == Some(Round(amount) as real)
  {
    if amount >= Million {
      MantissaParsesLarge(amount);
    } else {
      MantissaParsesSmall(amount);
    }
  }

  // ---------------------------------------------------------------------------------------------
  // Properties of currencies and normalisation

  /** No currency is detected in an empty unit. */
  lemma DetectCurrencyEmpty()
    ensures DetectCurrency("") == Unknown
  {
  }

  /** Detection ignores ASCII case: the unit is lowercased first, so a lowered unit names the same currency. */
  lemma DetectCurrencyCaseless(unit: string)
    ensures DetectCurrency(Lower(unit)) == DetectCurrency(unit)
  {
    LowerIdempotent(unit);
  }

  /** EUR takes precedence: a unit holding `€` is EUR, whatever else it holds, a `$` included. */
  lemma DetectCurrencyEuroFirst(unit: string)
    requires Contains(unit, "€")
    ensures DetectCurrency(unit) == EUR
  {
    LowerKeepsContains(unit, "€");
  }

  /** Round trip: the symbol of a currency is detected as that currency; no symbol is Unknown. */
  lemma DetectCurrencySymbol(c: Currency)
    ensures DetectCurrency(CurrencySymbol(c)) == c
  {
    if c == EUR {
      assert Lower("€") == "€";
      assert Contains("€", "€");
    } else if c == USD {
      assert Lower("$") == "$";
      assert Contains("$", "$");
      assert !Contains("$", "€") && !Contains("$", "eur") && !Contains("$", "euro");
    }
  }

  /** The condition under which `normalize_key_figure` rewrites a figure. */
  predicate Rewrites(kf: KeyFigure) {
    var unit := Strip(kf.unit);
    var num := ParseNumberDe(kf.value);
    DetectCurrency(unit) != Unknown && num.Some?
    && (IsThousandUnit(unit) || (unit in PlainCurrencyUnits && num.value >= Million))
  }

  /** The compact value a rewritten figure gets, of the number times 1000 for a thousands unit. */
  function RewrittenValue(kf: KeyFigure): string
    requires Rewrites(kf)
  {
    var unit := Strip(kf.unit);
    var num := ParseNumberDe(kf.value).value;
    FormatCompactMoney(if IsThousandUnit(unit) then num * 1000.0 else num, DetectCurrency(unit))
  }

  lemma NormalizeKeeps(kf: KeyFigure)
    requires !Rewrites(kf)
    ensures NormalizeKeyFigure(kf) == kf
  {
  }

  lemma NormalizeRewrites(kf: KeyFigure)
    requires Rewrites(kf)
    ensures NormalizeKeyFigure(kf) == kf.(value := RewrittenValue(kf), unit := "")
    ensures kf.unit != ""
  {
    DetectCurrencyEmpty();
    assert Strip(kf.unit) != "";
  }

  /**
   * A figure is rewritten exactly when its stripped unit names EUR or USD, its value parses, and
   * the unit is a thousands unit or a bare currency with a number of at least one million; the
   * rewrite sets the value to the compact form, of the number times 1000 for a thousands unit,
   * and empties the unit.
   */
  lemma NormalizeKeyFigureSpec(kf: KeyFigure)
    ensures NormalizeKeyFigure(kf) != kf <==> Rewrites(kf)
    ensures Rewrites(kf) ==> NormalizeKeyFigure(kf) == kf.(value := RewrittenValue(kf), unit := "")
  {
    if Rewrites(kf) {
      NormalizeRewrites(kf);
    } else {
      NormalizeKeeps(kf);
    }
  }

  /** Normalising twice is normalising once: a rewritten figure has an empty unit, which names no currency. */
  lemma NormalizeKeyFigureIdempotent(kf: KeyFigure)
    ensures NormalizeKeyFigure(NormalizeKeyFigure(kf)) == NormalizeKeyFigure(kf)
  {
    var r := NormalizeKeyFigure(kf);
    if r != kf {
      assert Strip(r.unit) == "";
      DetectCurrencyEmpty();
    }
  }
}
