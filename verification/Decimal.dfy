/** Decimal rendering and parsing of integers. */
module Decimal {
  import opened Text

  function DigitChar(d: int): (c: char)
    requires 0 <= d <= 9
    ensures IsDigit(c) && c as int - '0' as int == d
  {
    (d + '0' as int) as char
  }

  /** `format!("{n}")`. */
  function Digits(n: nat): (s: string)
    ensures |s| >= 1 && All(s, IsDigit)
  {
    if n < 10 then [DigitChar(n)] else Digits(n / 10) + [DigitChar(n % 10)]
  }

  /** The number a run of digits denotes. */
  function Value(s: string): nat
    requires All(s, IsDigit)
  {
    if s == [] then 0
    else 10 * Value(s[..|s| - 1]) + (s[|s| - 1] as int - '0' as int)
  }

  lemma {:induction false} ValueOfDigits(n: nat)
    ensures Value(Digits(n)) == n
  {
    if n >= 10 {
      ValueOfDigits(n / 10);
      assert Digits(n)[..|Digits(n)| - 1] == Digits(n / 10);
    }
  }

  function PadLeft(s: string, c: char, width: nat): string {
    seq(if |s| < width then width - |s| else 0, _ => c) + s
  }

  /** `format!("{n:0width$}")`: zero-padded, the sign counting toward the width. */
  function Padded(n: int, width: nat): string
    requires width >= 1
  {
    if n >= 0 then PadLeft(Digits(n), '0', width) else "-" + PadLeft(Digits(-n), '0', width - 1)
  }

  function Pow10(k: nat): (p: nat)
    ensures p >= 1
  {
    if k == 0 then 1 else 10 * Pow10(k - 1)
  }

  /** A number that fits the width is its leading digits followed by its last one. */
  lemma PaddedSplits(n: nat, width: nat)
    requires width >= 2
    ensures Padded(n, width) == Padded(n / 10, width - 1) + [DigitChar(n % 10)]
  {
    if n < 10 {
      assert Padded(n, width) == seq(width - 1, _ => '0') + [DigitChar(n)];
      assert Padded(0, width - 1) == seq(width - 2, _ => '0') + [DigitChar(0)];
    }
  }

  lemma {:induction false} PaddedLength(n: nat, width: nat)
    requires width >= 1
    ensures |Padded(n, width)| >= width
    ensures |Padded(n, width)| == width <==> n < Pow10(width)
  {
    if width == 1 {
      assert Pow10(1) == 10;
      if n >= 10 {
        assert |Digits(n)| == |Digits(n / 10)| + 1;
      }
    } else {
      PaddedSplits(n, width);
      PaddedLength(n / 10, width - 1);
    }
  }

  /** Fixed-width numbers compare as strings exactly as they do as numbers. */
  lemma {:induction false} PaddedOrder(a: nat, b: nat, width: nat)
    requires width >= 1 && a < Pow10(width) && b < Pow10(width)
    ensures Less(Padded(a, width), Padded(b, width)) <==> a < b
    ensures Padded(a, width) == Padded(b, width) <==> a == b
  {
    if width == 1 {
      assert Pow10(1) == 10;
      assert Padded(a, 1) == [DigitChar(a)] && Padded(b, 1) == [DigitChar(b)];
    } else {
      hide Padded, Less;
      PaddedSplits(a, width);
      PaddedSplits(b, width);
      PaddedOrder(a / 10, b / 10, width - 1);
      PaddedLength(a / 10, width - 1);
      PaddedLength(b / 10, width - 1);
      var p, q := Padded(a / 10, width - 1), Padded(b / 10, width - 1);
      LessByField(p, q, [DigitChar(a % 10)], [DigitChar(b % 10)]);
      DigitOrder(a % 10, b % 10);
      SameFields(p, q, DigitChar(a % 10), DigitChar(b % 10));
    }
  }

  lemma DigitOrder(x: int, y: int)
    requires 0 <= x <= 9 && 0 <= y <= 9
    ensures Less([DigitChar(x)], [DigitChar(y)]) <==> x < y
    ensures DigitChar(x) == DigitChar(y) <==> x == y
  {
  }

  lemma SameFields(p: string, q: string, x: char, y: char)
    requires |p| == |q|
    ensures p + [x] == q + [y] <==> p == q && x == y
  {
    assert (p + [x])[..|p|] == p && (q + [y])[..|q|] == q;
    assert (p + [x])[|p|] == x && (q + [y])[|q|] == y;
  }

  /** A fixed-width field in front of anything: the number decides, then what follows. */
  lemma FieldOrder(a: nat, b: nat, width: nat, x: string, y: string)
    requires width >= 1 && a < Pow10(width) && b < Pow10(width)
    ensures Less(Padded(a, width) + x, Padded(b, width) + y) <==> a < b || (a == b && Less(x, y))
  {
    PaddedOrder(a, b, width);
    PaddedLength(a, width);
    PaddedLength(b, width);
    LessByField(Padded(a, width), Padded(b, width), x, y);
  }

  /** Zero-padding does not change the number denoted. */
  lemma {:induction false} ValueOfPadded(n: nat, width: nat)
    requires width >= 1
    ensures All(Padded(n, width), IsDigit) && Value(Padded(n, width)) == n
  {
    if width == 1 {
      ValueOfDigits(n);
      assert Padded(n, 1) == Digits(n);
    } else {
      hide Padded;
      PaddedSplits(n, width);
      ValueOfPadded(n / 10, width - 1);
      var front := Padded(n / 10, width - 1);
      assert (front + [DigitChar(n % 10)])[..|front|] == front;
    }
  }
}
