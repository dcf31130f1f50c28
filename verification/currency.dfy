/**
 * The amount text of the record editor: how typed text is normalised for display
 * (`formatCurrency`, ItemRegistry.js) and how the stored text is turned back into a
 * number on submit (`parseInt(amount.replace(/,/g, ""), 10)`), plus the
 * `Number.prototype.toString` used when a saved record is loaded.
 */
module Currency {
  import opened Common

  /** `\d` of a JavaScript regular expression: the ASCII decimal digits only. */
  predicate IsDigit(c: char) {
    '0' <= c <= '9'
  }

  predicate AllDigits(s: string) {
    forall i :: 0 <= i < |s| ==> IsDigit(s[i])
  }

  function DigitValue(c: char): (d: nat)
    requires IsDigit(c)
    ensures d < 10
  {
    c as int - '0' as int
  }

  function DigitChar(d: nat): (c: char)
    requires d < 10
    ensures IsDigit(c) && DigitValue(c) == d
  {
    ('0' as int + d) as char
  }

  /** `value.replace(/\D/g, "")`: the digits of `s`, in order. */
  function Digits(s: string): (r: string)
    ensures AllDigits(r) && |r| <= |s|
    ensures |s| == 1 && IsDigit(s[0]) ==> r == s
    ensures |s| == 1 && !IsDigit(s[0]) ==> r == []
  {
    if s == [] then []
    else (if IsDigit(s[0]) then [s[0]] else []) + Digits(s[1..])
  }

  lemma {:induction false} DigitsAppend(a: string, b: string)
    ensures Digits(a + b) == Digits(a) + Digits(b)
  {
    if a == [] {
      assert a + b == b;
    } else {
      assert (a + b)[0] == a[0] && (a + b)[1..] == a[1..] + b;
      DigitsAppend(a[1..], b);
    }
  }

  /** Text made of digits only comes through the filter unchanged. */
  lemma {:induction false} DigitsOfDigits(s: string)
    requires AllDigits(s)
    ensures Digits(s) == s
  {
    if s != [] {
      DigitsOfDigits(s[1..]);
    }
  }

  /** The value of a decimal digit string (most significant digit first); "" is 0. */
  function ValueOf(ds: string): (v: nat)
    requires AllDigits(ds)
  {
    if ds == [] then 0 else ValueOf(ds[..|ds| - 1]) * 10 + DigitValue(ds[|ds| - 1])
  }

  /** The canonical numeral of `n`: digits only, no leading zero, "0" for zero. */
  function Decimal(n: nat): (r: string)
    ensures |r| > 0 && AllDigits(r)
    ensures r[0] == '0' ==> r == "0"
  {
    if n < 10 then [DigitChar(n)] else Decimal(n / 10) + [DigitChar(n % 10)]
  }

  lemma {:induction false} ValueOfDecimal(n: nat)
    ensures ValueOf(Decimal(n)) == n
  {
    if n >= 10 {
      var d := Decimal(n);
      assert d[..|d| - 1] == Decimal(n / 10);
      ValueOfDecimal(n / 10);
    }
  }

  /**
   * Thousands grouping as the ja-JP locale prints it: a ',' stands exactly at the
   * positions 4, 8, 12, ... counted from the end, every other character is a digit,
   * so the first group has one to three digits and every later group three.
   */
  predicate Grouped(t: string) {
    && |t| % 4 != 0
    && forall i :: 0 <= i < |t| ==> if (|t| - i) % 4 == 0 then t[i] == ',' else IsDigit(t[i])
  }

  /** Inserts the grouping separators into a non-empty digit string. */
  function Group(ds: string): (r: string)
    requires |ds| > 0 && AllDigits(ds)
    ensures Grouped(r) && r[0] == ds[0]
    decreases |ds|
  {
    if |ds| <= 3 then ds
    else
      var g := Group(ds[..|ds| - 3]);
      GroupedExtend(g, ds[|ds| - 3..]);
      g + [','] + ds[|ds| - 3..]
  }

  /** Appending a separator and three digits to well-grouped text keeps it well grouped. */
  lemma GroupedExtend(g: string, tail: string)
    requires Grouped(g) && |tail| == 3 && AllDigits(tail)
    ensures Grouped(g + [','] + tail)
  {
    var r := g + [','] + tail;
    forall i | 0 <= i < |r|
      ensures if (|r| - i) % 4 == 0 then r[i] == ',' else IsDigit(r[i])
    {
      if i < |g| {
        assert r[i] == g[i];
        assert (|r| - i) % 4 == (|g| - i) % 4;
      } else if i > |g| {
        assert r[i] == tail[i - |g| - 1];
      }
    }
  }

  /** Removing the separators gives back the digit string that was grouped. */
  lemma {:induction false} GroupKeepsDigits(ds: string)
    requires |ds| > 0 && AllDigits(ds)
    ensures Digits(Group(ds)) == ds
    decreases |ds|
  {
    if |ds| <= 3 {
      DigitsOfDigits(ds);
    } else {
      var head, tail := ds[..|ds| - 3], ds[|ds| - 3..];
      GroupKeepsDigits(head);
      DigitsAppend(Group(head) + [','], tail);
      DigitsAppend(Group(head), [',']);
      DigitsOfDigits(tail);
      assert head + tail == ds;
    }
  }

  /**
   * `formatCurrency(value)`: drop every non-digit, read what is left as a whole
   * number ("" reads as 0) and print it with thousands grouping.
   */
  function FormatCurrency(text: string): (r: string)
    ensures Grouped(r)
    ensures r[0] == '0' ==> r == "0"
  {
    Group(Decimal(ValueOf(Digits(text))))
  }

  /** The digits of the formatted text are the canonical numeral of the input's digits. */
  lemma FormatKeepsValue(text: string)
    ensures Digits(FormatCurrency(text)) == Decimal(ValueOf(Digits(text)))
    ensures ValueOf(Digits(FormatCurrency(text))) == ValueOf(Digits(text))
  {
    GroupKeepsDigits(Decimal(ValueOf(Digits(text))));
    ValueOfDecimal(ValueOf(Digits(text)));
  }

  /** Formatting already formatted text changes nothing. */
  lemma FormatIdempotent(text: string)
    ensures FormatCurrency(FormatCurrency(text)) == FormatCurrency(text)
  {
    FormatKeepsValue(text);
  }

  /** Text without any digit (the empty input included) is shown as "0". */
  lemma FormatWithoutDigits(text: string)
    requires forall i :: 0 <= i < |text| ==> !IsDigit(text[i])
    ensures FormatCurrency(text) == "0"
  {
    if text != [] {
      assert Digits(text) == Digits(text[1..]);
      FormatWithoutDigits(text[1..]);
    }
  }

  lemma FormatThousand()
    ensures ValueOf(Digits("1000")) == 1000
    ensures FormatCurrency("1000") == "1,000"
  {
    DigitsOfDigits("1000");
    assert ValueOf("1000") == 1000 by {
      assert "1000"[..3] == "100";
      assert "100"[..2] == "10";
      assert "10"[..1] == "1";
    }
    assert Decimal(1000) == "1000";
  }

  /** `s.replace(/,/g, "")` */
  function StripCommas(s: string): (r: string)
    ensures |r| <= |s|
    ensures forall i :: 0 <= i < |r| ==> r[i] != ','
  {
    if s == [] then []
    else (if s[0] == ',' then [] else [s[0]]) + StripCommas(s[1..])
  }

  /** On text of digits and separators, stripping the separators keeps exactly the digits. */
  lemma {:induction false} StripCommasIsDigits(s: string)
    requires forall i :: 0 <= i < |s| ==> s[i] == ',' || IsDigit(s[i])
    ensures StripCommas(s) == Digits(s)
  {
    if s != [] {
      StripCommasIsDigits(s[1..]);
    }
  }

  lemma {:induction false} StripCommasNoCommas(s: string)
    requires forall i :: 0 <= i < |s| ==> s[i] != ','
    ensures StripCommas(s) == s
  {
    if s != [] {
      StripCommasNoCommas(s[1..]);
    }
  }

  /** The longest prefix of `s` made of digits. */
  function LeadingDigits(s: string): (r: string)
    ensures AllDigits(r) && r <= s
    ensures |r| < |s| ==> !IsDigit(s[|r|])
  {
    if s == [] || !IsDigit(s[0]) then [] else [s[0]] + LeadingDigits(s[1..])
  }

  lemma {:induction false} LeadingDigitsOfDigits(s: string)
    requires AllDigits(s)
    ensures LeadingDigits(s) == s
  {
    if s != [] {
      LeadingDigitsOfDigits(s[1..]);
    }
  }

  /**
   * `parseInt(s, 10)`: an optional sign, then the longest run of digits; `None` is NaN
   * (no digit where one is expected). Leading white space, which parseInt skips, never
   * occurs in the editor's amount text and is not modelled.
   */
  function ParseInt(s: string): (r: Option<int>)
    ensures s == [] ==> r.None?
    ensures |s| > 0 && !IsDigit(s[0]) && s[0] != '-' && s[0] != '+' ==> r.None?
    ensures s != [] && AllDigits(s) ==> r == Some(ValueOf(s))
    ensures |s| > 1 && s[0] == '-' && AllDigits(s[1..]) ==> r.Some? && r.value + ValueOf(s[1..]) == 0
  {
    if |s| > 0 && (s[0] == '-' || s[0] == '+') then
      var ds := LeadingDigits(s[1..]);
      assert AllDigits(s[1..]) ==> ds == s[1..] by {
        if AllDigits(s[1..]) { LeadingDigitsOfDigits(s[1..]); }
      }
      var magnitude: int := ValueOf(ds);
      if ds == [] then None else Some(if s[0] == '-' then -magnitude else magnitude)
    else
      var ds := LeadingDigits(s);
      assert AllDigits(s) ==> ds == s by {
        if AllDigits(s) { LeadingDigitsOfDigits(s); }
      }
      if ds == [] then None else Some(ValueOf(ds))
  }

  /** `Number.prototype.toString()` of an integer. */
  function IntToString(i: int): (r: string)
    ensures i >= 0 ==> |r| > 0 && AllDigits(r) && ValueOf(r) == i && (r[0] == '0' ==> r == "0")
    ensures i < 0 ==> |r| > 1 && r[0] == '-' && AllDigits(r[1..]) && ValueOf(r[1..]) == -i && r[1] != '0'
  {
    if i < 0 then
      var d := Decimal(-i);
      ValueOfDecimal(-i);
      assert ("-" + d)[1..] == d;
      "-" + d
    else
      ValueOfDecimal(i);
      Decimal(i)
  }

  /** Reading a canonical numeral back gives its number. */
  lemma ParseDecimal(n: nat)
    ensures ParseInt(Decimal(n)) == Some(n)
  {
    LeadingDigitsOfDigits(Decimal(n));
    ValueOfDecimal(n);
  }

  /** `parseInt(x.toString().replace(/,/g, ""), 10) == x` for every integer x. */
  lemma ParseIntToString(i: int)
    ensures ParseInt(StripCommas(IntToString(i))) == Some(i)
  {
    var s := IntToString(i);
    StripCommasNoCommas(s);
    if i < 0 {
      assert s[1..] == Decimal(-i);
      LeadingDigitsOfDigits(Decimal(-i));
      ValueOfDecimal(-i);
    } else {
      ParseDecimal(i);
    }
  }

  /** The amount the editor stores after typing parses back to the value of the typed digits. */
  lemma ParseFormatted(text: string)
    ensures ParseInt(StripCommas(FormatCurrency(text))) == Some(ValueOf(Digits(text)))
  {
    var r := FormatCurrency(text);
    assert forall i :: 0 <= i < |r| ==> r[i] == ',' || IsDigit(r[i]);
    StripCommasIsDigits(r);
    FormatKeepsValue(text);
    ParseDecimal(ValueOf(Digits(text)));
  }
}
