/** `strconvUint`: decimal text of an unsigned 64-bit number, written backwards into a 20-byte buffer. */
module Decimal {

  newtype uint64 = x: int | 0 <= x < 0x1_0000_0000_0000_0000

  predicate IsDigit(c: char) {
    '0' <= c <= '9'
  }

  function DigitValue(c: char): (d: nat)
    requires IsDigit(c)
    ensures d < 10
  {
    c as int - '0' as int
  }

  /** The number a digit string denotes. */
  function Parse(s: seq<char>): (n: nat)
    requires forall i :: 0 <= i < |s| ==> IsDigit(s[i])
  {
    if s == [] then 0 else 10 * Parse(s[..|s| - 1]) + DigitValue(s[|s| - 1])
  }

  function Pow10(k: nat): (p: nat)
    ensures p > 0
  {
    if k == 0 then 1 else 10 * Pow10(k - 1)
  }

  lemma Distribute(a: nat, b: nat, c: nat)
    ensures 10 * (a * b + c) == a * (10 * b) + 10 * c
  {
  }

  lemma {:induction false} ParsePrepend(c: char, s: seq<char>)
    requires IsDigit(c) && forall i :: 0 <= i < |s| ==> IsDigit(s[i])
    ensures Parse([c] + s) == DigitValue(c) * Pow10(|s|) + Parse(s)
  {
    hide DigitValue;
    if s == [] {
      assert ([c] + s)[..0] == [];
      assert Parse([c] + s) == 10 * Parse([]) + DigitValue(c);
    } else {
      var n := |s| - 1;
      var more := [c] + s;
      assert more[..n + 1] == [c] + s[..n] && more[n + 1] == s[n];
      ParsePrepend(c, s[..n]);
      assert Parse(more) == 10 * Parse([c] + s[..n]) + DigitValue(s[n]);
      Distribute(DigitValue(c), Pow10(n), Parse(s[..n]));
    }
  }

  lemma Pow10Exceeds(k: nat)
    requires k >= 20
    ensures Pow10(k) >= 100_000_000_000_000_000_000
  {
    if k > 20 {
      Pow10Exceeds(k - 1);
    } else {
      assert Pow10(4) == 10_000;
      assert Pow10(8) == 100_000_000;
      assert Pow10(12) == 1_000_000_000_000;
      assert Pow10(16) == 10_000_000_000_000_000;
    }
  }

  lemma MulAtLeast(a: nat, b: nat)
    requires a > 0
    ensures b <= a * b
  {
  }

  lemma ScaledValueFits(value: nat, k: nat, total: nat)
    requires value > 0 && value * Pow10(k) <= total < 0x1_0000_0000_0000_0000
    ensures k < 20
  {
    MulAtLeast(value, Pow10(k));
    if k >= 20 {
      Pow10Exceeds(k);
    }
  }

  lemma DivStep(value: nat, p: nat)
    ensures value * p == value / 10 * (10 * p) + value % 10 * p
  {
    assert value == value / 10 * 10 + value % 10;
    calc {
      value * p;
      (value / 10 * 10 + value % 10) * p;
      value / 10 * 10 * p + value % 10 * p;
    }
  }

  lemma NothingLeft(p: nat)
    ensures 0 * p == 0
  {
  }

  lemma ZeroText()
    ensures Parse("0") == 0
  {
    assert Parse("0") == 10 * Parse("0"[..0]) + DigitValue("0"[0]);
  }

  lemma NoDigits(rest: nat, text: seq<char>)
    requires text == []
    ensures rest * Pow10(0) + Parse(text) == rest
  {
  }

  /** One digit moves from the rest to the front of the text. */
  lemma DigitStep(rest: nat, text: seq<char>, c: char)
    requires forall i :: 0 <= i < |text| ==> IsDigit(text[i])
    requires IsDigit(c) && DigitValue(c) == rest % 10
    ensures rest / 10 * Pow10(|text| + 1) + Parse([c] + text) == rest * Pow10(|text|) + Parse(text)
  {
    DivStep(rest, Pow10(|text|));
    ParsePrepend(c, text);
  }

  /** The buffer never underflows for any value, and the text is the canonical decimal one: it parses back to the
      value and has no leading zero. */
  method FormatUint(value: uint64) returns (text: string)
    ensures 1 <= |text| <= 20 && forall i :: 0 <= i < |text| ==> IsDigit(text[i])
    ensures Parse(text) == value as int
    ensures text[0] == '0' ==> text == "0"
  {
    hide Parse, Pow10;
    if value == 0 {
      ZeroText();
      return "0";
    }
    var rest := value;
    var buf := new char[20];
    var i := buf.Length;
    NoDigits(rest as int, buf[i..]);
    while rest > 0
      invariant 0 <= i <= 20
      invariant forall j :: i <= j < 20 ==> IsDigit(buf[j])
      invariant rest as int * Pow10(20 - i) + Parse(buf[i..]) == value as int
      invariant rest == 0 ==> i < 20 && buf[i] != '0'
    {
      ScaledValueFits(rest as int, 20 - i, value as int);
      ghost var before := buf[i..];
      i := i - 1;
      var digit := rest % 10;
      buf[i] := ('0' as int + digit as int) as char;
      assert buf[i..] == [buf[i]] + before;
      DigitStep(rest as int, before, buf[i]);
      rest := rest / 10;
    }
    NothingLeft(Pow10(20 - i));
    text := buf[i..];
  }

  /** Decimal text is injective, so ids built from it never collide. */
  lemma {:induction false} CanonicalTextUnique(a: seq<char>, b: seq<char>)
    requires a != [] && b != []
    requires forall i :: 0 <= i < |a| ==> IsDigit(a[i])
    requires forall i :: 0 <= i < |b| ==> IsDigit(b[i])
    requires (a[0] == '0' ==> a == "0") && (b[0] == '0' ==> b == "0")
    requires Parse(a) == Parse(b)
    ensures a == b
    decreases |a|
  {
    var m, n := |a| - 1, |b| - 1;
    assert a == a[..m] + [a[m]] && b == b[..n] + [b[n]];
    assert Parse(a[..m]) == Parse(b[..n]) && a[m] == b[n];
    if m == 0 || n == 0 {
      if m > 0 { ParsePositive(a[..m]); }
      if n > 0 { ParsePositive(b[..n]); }
    } else {
      CanonicalTextUnique(a[..m], b[..n]);
    }
  }

  lemma ParsePositive(s: seq<char>)
    requires s != [] && s[0] != '0' && forall i :: 0 <= i < |s| ==> IsDigit(s[i])
    ensures Parse(s) > 0
  {
    if |s| > 1 {
      ParsePositive(s[..|s| - 1]);
    }
  }
}
