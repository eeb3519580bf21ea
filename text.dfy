/** String helpers shared by the models and the export columns: decimal
    digits, zero padding, thousands grouping, ASCII capitalisation and
    splitting on a separator, each with the lemma that reads it back. */
module Text {
  import opened Wrappers

  predicate IsDigit(c: char) { '0' <= c <= '9' }

  predicate AllDigits(s: string) { forall i :: 0 <= i < |s| ==> IsDigit(s[i]) }

  function DigitChar(d: nat): (c: char)
    requires d < 10
    ensures IsDigit(c)
  {
    ('0' as int + d) as char
  }

  function DigitValue(c: char): (d: nat)
    requires IsDigit(c)
    ensures d < 10 && DigitChar(d) == c
  {
    c as int - '0' as int
  }

  function Pow10(n: nat): (r: nat)
    ensures r >= 1
  {
    if n == 0 then 1 else 10 * Pow10(n - 1)
  }

  function Abs(x: int): nat { if x < 0 then -x else x }

  /** The number a string of decimal digits stands for (leading zeros allowed). */
  function DigitsValue(s: string): nat
    requires AllDigits(s)
  {
    if s == [] then 0 else DigitsValue(s[..|s| - 1]) * 10 + DigitValue(s[|s| - 1])
  }

  /** Shortest decimal text of n, "0" for zero, as Python's str(int). */
  function Digits(n: nat): (s: string)
    ensures |s| >= 1 && AllDigits(s)
  {
    if n < 10 then [DigitChar(n)] else Digits(n / 10) + [DigitChar(n % 10)]
  }

  /** n written in exactly width digits, leading zeros first (Python's {:0Nd}). */
  function ZeroPad(n: nat, width: nat): (s: string)
    requires n < Pow10(width)
    ensures |s| == width && AllDigits(s)
  {
    if width == 0 then [] else ZeroPad(n / 10, width - 1) + [DigitChar(n % 10)]
  }

  lemma {:induction false} DigitsValueOfDigits(n: nat)
    ensures DigitsValue(Digits(n)) == n
  {
    if n >= 10 {
      var s := Digits(n);
      assert s[..|s| - 1] == Digits(n / 10);
      DigitsValueOfDigits(n / 10);
    }
  }

  lemma {:induction false} DigitsValueOfZeroPad(n: nat, width: nat)
    requires n < Pow10(width)
    ensures DigitsValue(ZeroPad(n, width)) == n
  {
    if width > 0 {
      var s := ZeroPad(n, width);
      assert s[..|s| - 1] == ZeroPad(n / 10, width - 1);
      DigitsValueOfZeroPad(n / 10, width - 1);
    }
  }

  lemma {:induction false} DigitsValueAppend(a: string, b: string)
    requires AllDigits(a) && AllDigits(b)
    ensures AllDigits(a + b)
    ensures DigitsValue(a + b) == DigitsValue(a) * Pow10(|b|) + DigitsValue(b)
  {
    if b == [] {
      assert a + b == a;
    } else {
      var b' := b[..|b| - 1];
      assert (a + b)[..|a + b| - 1] == a + b';
      DigitsValueAppend(a, b');
      ShiftDigit(DigitsValue(a), Pow10(|b'|), DigitsValue(b'), DigitValue(b[|b| - 1]));
    }
  }

  /** Appending one digit to x * p + y shifts both parts by one place. */
  lemma ShiftDigit(x: int, p: int, y: int, d: int)
    ensures (x * p + y) * 10 + d == x * (p * 10) + (y * 10 + d)
  {
  }

  /** The string with every comma taken out. */
  function RemoveCommas(s: string): (r: string)
    ensures |r| <= |s|
  {
    if s == [] then []
    else RemoveCommas(s[..|s| - 1]) + (if s[|s| - 1] == ',' then [] else [s[|s| - 1]])
  }

  lemma {:induction false} RemoveCommasAppend(a: string, b: string)
    ensures RemoveCommas(a + b) == RemoveCommas(a) + RemoveCommas(b)
  {
    if b == [] {
      assert a + b == a;
    } else {
      var b' := b[..|b| - 1];
      assert (a + b)[..|a + b| - 1] == a + b';
      RemoveCommasAppend(a, b');
    }
  }

  lemma {:induction false} RemoveCommasOfDigits(s: string)
    requires AllDigits(s)
    ensures RemoveCommas(s) == s
  {
    if s != [] {
      RemoveCommasOfDigits(s[..|s| - 1]);
    }
  }

  /** n with a comma between every group of three digits, as Python's {:,}. */
  function GroupThousands(n: nat): (s: string)
    ensures forall i :: 0 <= i < |s| ==> IsDigit(s[i]) || s[i] == ','
  {
    if n < 1000 then Digits(n) else GroupThousands(n / 1000) + "," + ZeroPad(n % 1000, 3)
  }

  /** Taking the separators back out of the grouped text gives the number again. */
  lemma {:induction false} GroupThousandsValue(n: nat)
    ensures AllDigits(RemoveCommas(GroupThousands(n)))
    ensures DigitsValue(RemoveCommas(GroupThousands(n))) == n
  {
    if n < 1000 {
      RemoveCommasOfDigits(Digits(n));
      DigitsValueOfDigits(n);
    } else {
      var head := GroupThousands(n / 1000);
      var tail := ZeroPad(n % 1000, 3);
      GroupThousandsValue(n / 1000);
      RemoveCommasAppend(head + ",", tail);
      RemoveCommasAppend(head, ",");
      assert RemoveCommas(",") == [];
      RemoveCommasOfDigits(tail);
      assert RemoveCommas(GroupThousands(n)) == RemoveCommas(head) + tail;
      DigitsValueAppend(RemoveCommas(head), tail);
      DigitsValueOfZeroPad(n % 1000, 3);
      assert Pow10(3) == 1000;
      assert DigitsValue(RemoveCommas(head) + tail) == (n / 1000) * 1000 + n % 1000;
    }
  }

  function Upper(c: char): (u: char)
    ensures !('a' <= u <= 'z')
    ensures Lower(u) == Lower(c)
  {
    if 'a' <= c <= 'z' then (c as int - 32) as char else c
  }

  function Lower(c: char): (l: char)
    ensures !('A' <= l <= 'Z')
    ensures 'A' <= c <= 'Z' || l == c
  {
    if 'A' <= c <= 'Z' then (c as int + 32) as char else c
  }

  /** Python's str.capitalize() on ASCII text: first character upper case,
      every other character lower case. */
  function Capitalize(s: string): (r: string)
    ensures |r| == |s|
    ensures forall i :: 0 <= i < |s| ==> Lower(r[i]) == Lower(s[i])
    ensures |s| > 0 ==> !('a' <= r[0] <= 'z')
    ensures forall i :: 1 <= i < |s| ==> !('A' <= r[i] <= 'Z')
  {
    seq(|s|, i requires 0 <= i < |s| => if i == 0 then Upper(s[i]) else Lower(s[i]))
  }

  lemma CapitalizeIdempotent(s: string)
    ensures Capitalize(Capitalize(s)) == Capitalize(s)
  {
    var r := Capitalize(s);
    var r2 := Capitalize(r);
    if s != [] {
      assert r[0] == Upper(s[0]) && r2[0] == Upper(r[0]);
      assert r2[0] == r[0];
      forall i | 1 <= i < |s| ensures r2[i] == r[i] {
        assert r[i] == Lower(s[i]) && r2[i] == Lower(r[i]);
      }
    }
  }

  /** s cut at every occurrence of sep, as Python's str.split(sep). */
  function Split(s: string, sep: char): (parts: seq<string>)
    ensures |parts| >= 1
    ensures forall i :: 0 <= i < |parts| ==> sep !in parts[i]
  {
    if s == [] then [[]]
    else
      var rest := Split(s[1..], sep);
      if s[0] == sep then [[]] + rest else [[s[0]] + rest[0]] + rest[1..]
  }

  lemma {:induction false} SplitNoSeparator(a: string, sep: char)
    requires sep !in a
    ensures Split(a, sep) == [a]
  {
    if a != [] {
      SplitNoSeparator(a[1..], sep);
      assert [a[0]] + a[1..] == a;
    }
  }

  lemma {:induction false} SplitAtSeparator(a: string, sep: char, b: string)
    requires sep !in a
    ensures Split(a + [sep] + b, sep) == [a] + Split(b, sep)
  {
    if a == [] {
      assert a + [sep] + b == [sep] + b;
      assert ([sep] + b)[1..] == b;
    } else {
      SplitAtSeparator(a[1..], sep, b);
      assert (a + [sep] + b)[1..] == a[1..] + [sep] + b;
      assert [a[0]] + a[1..] == a;
    }
  }

  lemma {:induction false} SplitLastSeparator(a: string, sep: char, b: string)
    requires sep !in b
    ensures Split(a + [sep] + b, sep) == Split(a, sep) + [b]
  {
    if a == [] {
      assert a + [sep] + b == [sep] + b;
      assert ([sep] + b)[1..] == b;
      SplitNoSeparator(b, sep);
    } else {
      SplitLastSeparator(a[1..], sep, b);
      assert (a + [sep] + b)[1..] == a[1..] + [sep] + b;
      assert (a + [sep] + b)[0] == a[0];
      var x := Split(a[1..], sep);
      assert (x + [b])[0] == x[0] && (x + [b])[1..] == x[1..] + [b];
    }
  }

  /** Python's str(int) of a positive number has no leading zero. */
  lemma {:induction false} DigitsNoLeadingZero(n: nat)
    requires n > 0
    ensures Digits(n)[0] != '0'
  {
    if n >= 10 {
      DigitsNoLeadingZero(n / 10);
      assert Digits(n)[0] == Digits(n / 10)[0];
    }
  }

  /** Where the separators of {:,} go: the groups between commas are digits,
      the first has one to three of them and no leading zero (unless the
      number is 0), and every later group has exactly three. */
  lemma {:induction false} GroupThousandsShape(n: nat)
    ensures var parts := Split(GroupThousands(n), ',');
      1 <= |parts[0]| <= 3 && AllDigits(parts[0])
      && (parts[0][0] == '0' ==> n == 0)
      && forall i :: 1 <= i < |parts| ==> |parts[i]| == 3 && AllDigits(parts[i])
  {
    if n < 1000 {
      var d := Digits(n);
      assert ',' !in d by { assert forall i :: 0 <= i < |d| ==> IsDigit(d[i]); }
      SplitNoSeparator(d, ',');
      if n >= 10 {
        assert Digits(n) == Digits(n / 10) + [DigitChar(n % 10)];
        if n >= 100 {
          assert Digits(n / 10) == Digits(n / 100) + [DigitChar(n / 10 % 10)];
        }
      }
      if n > 0 { DigitsNoLeadingZero(n); }
    } else {
      var head := GroupThousands(n / 1000);
      var tail := ZeroPad(n % 1000, 3);
      assert ',' !in tail by { assert forall i :: 0 <= i < 3 ==> IsDigit(tail[i]); }
      assert GroupThousands(n) == head + [','] + tail;
      SplitLastSeparator(head, ',', tail);
      GroupThousandsShape(n / 1000);
      var ph := Split(head, ',');
      assert Split(GroupThousands(n), ',') == ph + [tail];
      assert (ph + [tail])[0] == ph[0];
    }
  }

  /** str() of a two-place Decimal held as cents, e.g. -1234.50. */
  function PlainDecimal(cents: int): string
  {
    (if cents < 0 then "-" else "") + Digits(Abs(cents) / 100) + "." + ZeroPad(Abs(cents) % 100, 2)
  }

  /** format() of a two-place Decimal held as cents with spec ",.2f", e.g. -1,234.50. */
  function GroupedDecimal(cents: int): string
  {
    (if cents < 0 then "-" else "") + GroupThousands(Abs(cents) / 100) + "." + ZeroPad(Abs(cents) % 100, 2)
  }

  /** Reads a grouped decimal back: optional minus, then an unsigned decimal.
      None for anything else. */
  function ParseGroupedDecimal(s: string): (r: Option<int>)
  {
    if |s| > 0 && s[0] == '-' then
      match ParseUnsignedDecimal(s[1..])
      case Some(m) => Some(-(m as int))
      case None => None
    else
      match ParseUnsignedDecimal(s)
      case Some(m) => Some(m)
      case None => None
  }

  /** Digits and commas, a point, exactly two digits; the value in cents. */
  function ParseUnsignedDecimal(s: string): (r: Option<nat>)
  {
    var parts := Split(s, '.');
    if |parts| != 2 || parts[0] == [] || |parts[1]| != 2 || !AllDigits(parts[1])
       || !AllDigits(RemoveCommas(parts[0]))
    then None
    else Some(DigitsValue(RemoveCommas(parts[0])) * 100 + DigitsValue(parts[1]))
  }

  /** Text that splits at its one point into a whole part and two digits
      parses to the value of the whole part's digits and the two decimals. */
  lemma ParseUnsignedDecimalOf(s: string, whole: string, frac: string)
    requires Split(s, '.') == [whole, frac]
    requires whole != [] && AllDigits(RemoveCommas(whole))
    requires |frac| == 2 && AllDigits(frac)
    ensures ParseUnsignedDecimal(s) == Some(DigitsValue(RemoveCommas(whole)) * 100 + DigitsValue(frac))
  {
  }

  lemma SplitDecimal(whole: string, frac: string)
    requires '.' !in whole && |frac| == 2 && AllDigits(frac)
    ensures Split(whole + "." + frac, '.') == [whole, frac]
  {
    assert '.' !in frac by { assert IsDigit(frac[0]) && IsDigit(frac[1]); }
    SplitAtSeparator(whole, '.', frac);
    SplitNoSeparator(frac, '.');
  }

  /** A whole part without '.' and a two-digit fraction, joined by '.', read
      back as whole * 100 + fraction. */
  lemma ParseDecimalOfParts(whole: string, frac: string, w: nat, f: nat)
    requires '.' !in whole && whole != []
    requires AllDigits(RemoveCommas(whole)) && DigitsValue(RemoveCommas(whole)) == w
    requires |frac| == 2 && AllDigits(frac) && DigitsValue(frac) == f
    ensures ParseUnsignedDecimal(whole + "." + frac) == Some(w * 100 + f)
  {
    SplitDecimal(whole, frac);
    ParseUnsignedDecimalOf(whole + "." + frac, whole, frac);
  }

  lemma UnsignedDecimalRoundTrip(n: nat)
    ensures ParseUnsignedDecimal(GroupThousands(n / 100) + "." + ZeroPad(n % 100, 2)) == Some(n)
  {
    var whole := GroupThousands(n / 100);
    assert '.' !in whole by { assert forall i :: 0 <= i < |whole| ==> whole[i] != '.'; }
    GroupThousandsStartsWithDigit(n / 100);
    GroupThousandsValue(n / 100);
    DigitsValueOfZeroPad(n % 100, 2);
    ParseDecimalOfParts(whole, ZeroPad(n % 100, 2), n / 100, n % 100);
  }

  lemma GroupedDecimalRoundTrip(cents: int)
    ensures ParseGroupedDecimal(GroupedDecimal(cents)) == Some(cents)
  {
    var body := GroupThousands(Abs(cents) / 100) + "." + ZeroPad(Abs(cents) % 100, 2);
    UnsignedDecimalRoundTrip(Abs(cents));
    GroupThousandsStartsWithDigit(Abs(cents) / 100);
    if cents < 0 {
      assert GroupedDecimal(cents) == "-" + body;
      assert GroupedDecimal(cents)[1..] == body;
    } else {
      assert GroupedDecimal(cents) == body;
    }
  }

  lemma UnsignedPlainRoundTrip(n: nat)
    ensures ParseUnsignedDecimal(Digits(n / 100) + "." + ZeroPad(n % 100, 2)) == Some(n)
  {
    var whole := Digits(n / 100);
    assert '.' !in whole by { assert forall i :: 0 <= i < |whole| ==> IsDigit(whole[i]); }
    RemoveCommasOfDigits(whole);
    DigitsValueOfDigits(n / 100);
    DigitsValueOfZeroPad(n % 100, 2);
    ParseDecimalOfParts(whole, ZeroPad(n % 100, 2), n / 100, n % 100);
  }

  /** The plain text of an amount has no separators, so it reads back too. */
  lemma PlainDecimalRoundTrip(cents: int)
    ensures ParseGroupedDecimal(PlainDecimal(cents)) == Some(cents)
  {
    var body := Digits(Abs(cents) / 100) + "." + ZeroPad(Abs(cents) % 100, 2);
    UnsignedPlainRoundTrip(Abs(cents));
    if cents < 0 {
      assert PlainDecimal(cents) == "-" + body;
      assert PlainDecimal(cents)[1..] == body;
    } else {
      assert PlainDecimal(cents) == body;
      assert IsDigit(Digits(Abs(cents) / 100)[0]);
    }
  }

  lemma {:induction false} GroupThousandsStartsWithDigit(n: nat)
    ensures |GroupThousands(n)| > 0 && IsDigit(GroupThousands(n)[0])
  {
    if n >= 1000 {
      GroupThousandsStartsWithDigit(n / 1000);
    }
  }
}
