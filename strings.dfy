/** The few string operations of the JavaScript runtime the services rely on:
    number to decimal text, padStart, split on one character, parseInt, and
    the code-unit order that `<` and `>` use on strings. */
module Strings {
  import opened Wrappers

  const Digits := "0123456789"

  /** Decimal text of a natural number, as `String(n)` writes it. */
  function NatToString(n: nat): (s: string)
    ensures |s| >= 1
    ensures forall k :: 0 <= k < |s| ==> s[k] in Digits
    decreases n
  {
    if n < 10 then [Digits[n]] else NatToString(n / 10) + [Digits[n % 10]]
  }

  /** Decimal text of an integer, with a leading '-' when it is negative. */
  function IntToString(i: int): (s: string)
    ensures |s| >= 1
    ensures i >= 0 ==> s == NatToString(i)
  {
    if i < 0 then "-" + NatToString(-i) else NatToString(i)
  }

  /** `s.padStart(width, fill)`: prefixes copies of `fill` until the text is
      `width` characters long; a text already that long is returned as is. */
  function PadStart(s: string, width: nat, fill: char): (r: string)
    ensures |r| == if |s| >= width then |s| else width
    ensures r[|r| - |s|..] == s
    ensures forall k :: 0 <= k < |r| - |s| ==> r[k] == fill
  {
    if |s| >= width then s else seq(width - |s|, _ => fill) + s
  }

  /** `s.split(sep)` for a one-character separator. */
  function Split(s: string, sep: char): (r: seq<string>)
    ensures |r| >= 1
    ensures |r| == 1 <==> sep !in s
  {
    if |s| == 0 then [""]
    else
      var rest := Split(s[1..], sep);
      if s[0] == sep then [""] + rest else [[s[0]] + rest[0]] + rest[1..]
  }

  lemma {:induction false} SplitWithoutSeparator(s: string, sep: char)
    requires sep !in s
    ensures Split(s, sep) == [s]
  {
    if |s| > 0 {
      SplitWithoutSeparator(s[1..], sep);
      assert [s[0]] + s[1..] == s;
    }
  }

  /** Splitting `a + sep + b` where `a` holds no separator gives `a` first and
      then the fields of `b`. */
  lemma {:induction false} SplitAtFirstSeparator(a: string, sep: char, b: string)
    requires sep !in a
    ensures Split(a + [sep] + b, sep) == [a] + Split(b, sep)
  {
    if |a| == 0 {
      assert a + [sep] + b == [sep] + b;
      assert ([sep] + b)[1..] == b;
    } else {
      var s := a + [sep] + b;
      assert s[0] == a[0] && a[0] != sep;
      assert s[1..] == a[1..] + [sep] + b;
      SplitAtFirstSeparator(a[1..], sep, b);
      SplitOfFieldCharacter(s, sep);
      assert [a[0]] + a[1..] == a;
    }
  }

  /** A text starting with a non-separator puts that character at the head
      of its first field. */
  lemma SplitOfFieldCharacter(s: string, sep: char)
    requires |s| > 0 && s[0] != sep
    ensures Split(s, sep) == [[s[0]] + Split(s[1..], sep)[0]] + Split(s[1..], sep)[1..]
  {
  }

  /** When the text holds a separator, the first field is strictly shorter. */
  lemma {:induction false} SplitFirstFieldShorter(s: string, sep: char)
    requires sep in s
    ensures |Split(s, sep)[0]| < |s|
  {
    if s[0] != sep {
      SplitFirstFieldShorter(s[1..], sep);
    }
  }

  predicate IsDigit(c: char)
  {
    '0' <= c <= '9'
  }

  function DigitValue(c: char): int
  {
    c as int - '0' as int
  }

  /** The value of a run of decimal digits (most significant first). */
  function DigitsValue(ds: string): int
    requires forall k :: 0 <= k < |ds| ==> IsDigit(ds[k])
  {
    if |ds| == 0 then 0
    else DigitsValue(ds[..|ds| - 1]) * 10 + DigitValue(ds[|ds| - 1])
  }

  /** The longest prefix made of decimal digits. */
  function LeadingDigits(s: string): (ds: string)
    ensures |ds| <= |s| && ds == s[..|ds|]
    ensures forall k :: 0 <= k < |ds| ==> IsDigit(ds[k])
    ensures |ds| < |s| ==> !IsDigit(s[|ds|])
  {
    if |s| == 0 || !IsDigit(s[0]) then [] else [s[0]] + LeadingDigits(s[1..])
  }

  /** `parseInt(s)` in base 10 for a text without leading blanks: an optional
      sign then the leading digits; a text without them is NaN, here None. */
  function ParseInt(s: string): Option<int>
  {
    var negative := |s| > 0 && s[0] == '-';
    var unsigned := if |s| > 0 && (s[0] == '-' || s[0] == '+') then s[1..] else s;
    var ds := LeadingDigits(unsigned);
    if |ds| == 0 then None
    else if negative then Some(-DigitsValue(ds))
    else Some(DigitsValue(ds))
  }

  lemma DigitOfValue(k: int)
    requires 0 <= k < 10
    ensures IsDigit(Digits[k]) && DigitValue(Digits[k]) == k
  {
    assert Digits[0] == '0' && Digits[1] == '1' && Digits[2] == '2' && Digits[3] == '3' && Digits[4] == '4';
    assert Digits[5] == '5' && Digits[6] == '6' && Digits[7] == '7' && Digits[8] == '8' && Digits[9] == '9';
  }

  lemma {:induction false} NatToStringDigits(n: nat)
    ensures forall k :: 0 <= k < |NatToString(n)| ==> IsDigit(NatToString(n)[k])
    ensures DigitsValue(NatToString(n)) == n
    decreases n
  {
    var s := NatToString(n);
    if n < 10 {
      DigitOfValue(n);
      assert s[..0] == [];
    } else {
      NatToStringDigits(n / 10);
      DigitOfValue(n % 10);
      assert s == NatToString(n / 10) + [Digits[n % 10]];
      assert s[..|s| - 1] == NatToString(n / 10);
    }
  }

  /** Leading zeros do not change the value of a run of digits. */
  lemma {:induction false} LeadingZerosValue(zeros: string, ds: string)
    requires forall k :: 0 <= k < |zeros| ==> zeros[k] == '0'
    requires forall k :: 0 <= k < |ds| ==> IsDigit(ds[k])
    ensures DigitsValue(zeros + ds) == DigitsValue(ds)
    decreases |zeros| + |ds|
  {
    if |ds| == 0 {
      assert zeros + ds == zeros;
      if |zeros| > 0 {
        LeadingZerosValue(zeros[..|zeros| - 1], []);
        assert zeros[..|zeros| - 1] + [] == zeros[..|zeros| - 1];
      }
    } else {
      var init := ds[..|ds| - 1];
      LeadingZerosValue(zeros, init);
      assert (zeros + ds)[..|zeros + ds| - 1] == zeros + init;
    }
  }

  lemma {:induction false} LeadingDigitsOfDigits(s: string)
    requires forall k :: 0 <= k < |s| ==> IsDigit(s[k])
    ensures LeadingDigits(s) == s
  {
    if |s| > 0 {
      LeadingDigitsOfDigits(s[1..]);
      assert [s[0]] + s[1..] == s;
    }
  }

  /** A zero-padded decimal number is all digits, and its value is the
      number. */
  lemma PaddedDigits(n: nat, width: nat)
    ensures forall k :: 0 <= k < |PadStart(NatToString(n), width, '0')| ==> IsDigit(PadStart(NatToString(n), width, '0')[k])
    ensures DigitsValue(PadStart(NatToString(n), width, '0')) == n
  {
    var s := NatToString(n);
    var t := PadStart(s, width, '0');
    NatToStringDigits(n);
    var zeros := t[..|t| - |s|];
    assert t == zeros + s;
    forall k | 0 <= k < |t| ensures IsDigit(t[k]) {
      if k >= |t| - |s| { assert t[k] == s[k - (|t| - |s|)]; }
    }
    LeadingZerosValue(zeros, s);
  }

  /** `parseInt` of a text made only of digits is its value. */
  lemma ParseIntOfDigits(s: string)
    requires |s| > 0 && forall k :: 0 <= k < |s| ==> IsDigit(s[k])
    ensures ParseInt(s) == Some(DigitsValue(s))
  {
    assert IsDigit(s[0]);
    LeadingDigitsOfDigits(s);
  }

  /** `parseInt` reads back a zero-padded decimal number. */
  lemma ParseIntPadded(n: nat, width: nat)
    ensures ParseInt(PadStart(NatToString(n), width, '0')) == Some(n)
  {
    PaddedDigits(n, width);
    ParseIntOfDigits(PadStart(NatToString(n), width, '0'));
  }

  /** A text that does not start with a digit or a sign is NaN. */
  lemma ParseIntNaN(s: string)
    requires |s| == 0 || (!IsDigit(s[0]) && s[0] != '-' && s[0] != '+')
    ensures ParseInt(s) == None
  {
  }

  /** `a < b` on JavaScript strings: lexicographic order of the characters. */
  predicate LexLess(a: string, b: string)
  {
    if |a| == 0 then |b| > 0
    else if |b| == 0 then false
    else if a[0] != b[0] then a[0] < b[0]
    else LexLess(a[1..], b[1..])
  }

  predicate LexLeq(a: string, b: string)
  {
    !LexLess(b, a)
  }

  lemma {:induction false} LexLessIrreflexive(a: string)
    ensures !LexLess(a, a)
  {
    if |a| > 0 { LexLessIrreflexive(a[1..]); }
  }

  lemma {:induction false} LexLessTransitive(a: string, b: string, c: string)
    requires LexLess(a, b) && LexLess(b, c)
    ensures LexLess(a, c)
  {
    if |a| > 0 && |b| > 0 && |c| > 0 && a[0] == b[0] && b[0] == c[0] {
      LexLessTransitive(a[1..], b[1..], c[1..]);
    }
  }

  /** Any two different strings are ordered one way or the other. */
  lemma {:induction false} LexLessTotal(a: string, b: string)
    requires a != b
    ensures LexLess(a, b) || LexLess(b, a)
  {
    if |a| > 0 && |b| > 0 && a[0] == b[0] {
      LexLessTotal(a[1..], b[1..]);
    }
  }

  lemma LexLeqTransitive(a: string, b: string, c: string)
    requires LexLeq(a, b) && LexLeq(b, c)
    ensures LexLeq(a, c)
  {
    if LexLess(c, a) {
      if a == b {
      } else if b == c {
      } else {
        LexLessTotal(a, b);
        LexLessTotal(b, c);
        LexLessTransitive(c, a, b);
      }
    }
  }

  lemma LexLeqTotal(a: string, b: string)
    ensures LexLeq(a, b) || LexLeq(b, a)
  {
    if LexLess(a, b) && LexLess(b, a) {
      LexLessTransitive(a, b, a);
      LexLessIrreflexive(a);
    }
  }

}
