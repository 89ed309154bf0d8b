/** Decimal rendering of natural numbers: the part of Rust's `format!("{}", n)`
    that the value formatter uses (no sign, no padding, no leading zeros). */
module DecimalText {

  /** One decimal digit value. */
  type Digit = d: nat | d <= 9

  predicate IsDigitChar(c: char) {
    '0' <= c <= '9'
  }

  /** The value of one ASCII digit character. */
  function CharValue(c: char): Digit
    requires IsDigitChar(c)
  {
    c as int - '0' as int
  }

  /** The ASCII character of one digit value. */
  function DigitChar(d: Digit): (c: char)
    ensures IsDigitChar(c) && CharValue(c) == d
  {
    (d + '0' as int) as char
  }

  /** A non-empty string of decimal digits. */
  predicate IsNumeral(s: string) {
    |s| > 0 && forall i | 0 <= i < |s| :: IsDigitChar(s[i])
  }

  /** A numeral without leading zeros: "0" is the only numeral starting with '0'. */
  predicate IsCanonical(s: string) {
    IsNumeral(s) && (|s| > 1 ==> s[0] != '0')
  }

  /** The number a string of decimal digits denotes (most significant first). */
  function Value(s: string): nat
    requires forall i | 0 <= i < |s| :: IsDigitChar(s[i])
  {
    if s == [] then 0 else Value(s[..|s| - 1]) * 10 + CharValue(s[|s| - 1])
  }

  function Pow10(k: nat): (p: nat)
    ensures p >= 1
  {
    if k == 0 then 1 else 10 * Pow10(k - 1)
  }

  /** The characters of a sequence of digit values, one character each. */
  function Chars(ds: seq<Digit>): (s: string)
    ensures |s| == |ds|
    ensures forall i | 0 <= i < |ds| :: s[i] == DigitChar(ds[i])
  {
    seq(|ds|, i requires 0 <= i < |ds| => DigitChar(ds[i]))
  }

  /** `format!("{}", n)`: the canonical decimal numeral of `n`. */
  function Render(n: nat): (s: string)
    ensures IsCanonical(s) && Value(s) == n
    decreases n
  {
    if n < 10 then
      var s := [DigitChar(n)];
      assert s[..0] == [];
      s
    else
      var t := Render(n / 10);
      var s := t + [DigitChar(n % 10)];
      assert s[..|s| - 1] == t;
      assert |t| == 1 ==> CharValue(t[0]) == Value(t) by {
        if |t| == 1 { assert t[..0] == []; }
      }
      s
  }

  /** Splitting a numeral: the value of `a + b` is `a` shifted by `|b|` places plus `b`. */
  lemma {:induction false} ValueAppend(a: string, b: string)
    requires forall i | 0 <= i < |a| :: IsDigitChar(a[i])
    requires forall i | 0 <= i < |b| :: IsDigitChar(b[i])
    ensures forall i | 0 <= i < |a + b| :: IsDigitChar((a + b)[i])
    ensures Value(a + b) == Value(a) * Pow10(|b|) + Value(b)
  {
    if b == [] {
      assert a + b == a;
    } else {
      var b' := b[..|b| - 1];
      assert (a + b)[..|a + b| - 1] == a + b';
      ValueAppend(a, b');
      var c := CharValue(b[|b| - 1]);
      assert Value(a + b) == Value(a + b') * 10 + c;
      assert Value(b) == Value(b') * 10 + c;
      assert Pow10(|b|) == 10 * Pow10(|b'|);
      ShiftStep(Value(a), Pow10(|b'|), Value(b'), c);
    }
  }

  lemma ShiftStep(x: nat, p: nat, y: nat, c: nat)
    ensures (x * p + y) * 10 + c == x * (10 * p) + (y * 10 + c)
  {
  }

  /** A numeral that does not start with '0' denotes a positive number. */
  lemma LeadingNonZero(s: string)
    requires IsNumeral(s) && s[0] != '0'
    ensures Value(s) >= 1
  {
    ValueAppend([s[0]], s[1..]);
    assert [s[0]] + s[1..] == s;
    assert [s[0]][..0] == [];
  }

  /** Rendering inverts reading on canonical numerals, so every canonical
      numeral is the rendering of exactly one number. */
  lemma {:induction false} RenderValue(s: string)
    requires IsCanonical(s)
    ensures Render(Value(s)) == s
  {
    if |s| == 1 {
      assert s[..0] == [];
      assert DigitChar(CharValue(s[0])) == s[0];
    } else {
      var t := s[..|s| - 1];
      var c := s[|s| - 1];
      LeadingNonZero(t);
      RenderValue(t);
      assert DigitChar(CharValue(c)) == c;
      assert t + [c] == s;
    }
  }
}
