/** Character classes of the racr lexer and the value of integer literals
    written in decimal, `0x` hexadecimal or `0b` binary. */
module Literals {

  /** Unicode White_Space: the separators skipped between tokens. The
      no-break space U+00A0 is among them. */
  predicate IsSpace(c: char) {
    || ('\t' <= c <= '\r') || c == ' ' || c == '\U{0085}' || c == '\U{00A0}' || c == '\U{1680}'
    || ('\U{2000}' <= c <= '\U{200A}') || c == '\U{2028}' || c == '\U{2029}' || c == '\U{202F}'
    || c == '\U{205F}' || c == '\U{3000}'
  }

  predicate IsIdentStart(c: char) {
    ('a' <= c <= 'z') || ('A' <= c <= 'Z') || c == '_'
  }

  predicate IsDecimalDigit(c: char) {
    '0' <= c <= '9'
  }

  predicate IsIdentChar(c: char) {
    IsIdentStart(c) || IsDecimalDigit(c)
  }

  /** `[A-Za-z_][A-Za-z0-9_]*` */
  predicate IsIdentifier(w: string) {
    && |w| > 0
    && IsIdentStart(w[0])
    && forall i :: 0 <= i < |w| ==> IsIdentChar(w[i])
  }

  /** The bases a literal may be written in. */
  predicate IsBase(base: nat) {
    base == 2 || base == 10 || base == 16
  }

  /** Value of a hexadecimal digit (either case); 16 for any other character. */
  function DigitValue(c: char): (d: nat)
    ensures d <= 16
  {
    if '0' <= c <= '9' then (c as int - '0' as int)
    else if 'a' <= c <= 'f' then (c as int - 'a' as int) + 10
    else if 'A' <= c <= 'F' then (c as int - 'A' as int) + 10
    else 16
  }

  predicate IsDigitIn(c: char, base: nat) {
    DigitValue(c) < base
  }

  /** The lower-case digit character for `d`. */
  function DigitChar(d: nat): (c: char)
    requires d < 16
    ensures DigitValue(c) == d
    ensures d < 10 ==> IsDecimalDigit(c)
  {
    if d < 10 then ('0' as int + d) as char else ('a' as int + d - 10) as char
  }

  /** The value of a digit string, most significant digit first. */
  function DigitsValue(ds: string, base: nat): nat
    decreases |ds|
  {
    if ds == [] then 0
    else DigitsValue(ds[..|ds| - 1], base) * base + DigitValue(ds[|ds| - 1])
  }

  /** The shortest digit string of `n` in `base`. */
  function Digits(n: nat, base: nat): (ds: string)
    requires 2 <= base <= 16
    ensures |ds| > 0
    ensures forall i :: 0 <= i < |ds| ==> IsDigitIn(ds[i], base)
    ensures base <= 10 ==> forall i :: 0 <= i < |ds| ==> IsDecimalDigit(ds[i])
    decreases n
  {
    if n < base then [DigitChar(n)]
    else
      DivMod(n, base);
      Digits(n / base, base) + [DigitChar(n % base)]
  }

  lemma DivMod(n: nat, base: nat)
    requires 2 <= base <= n
    ensures n / base < n
    ensures n % base < base
    ensures n == (n / base) * base + n % base
  {
  }

  /** Reading back the digits of `n` gives `n`, in every base. */
  lemma {:induction false} DigitsValueOfDigits(n: nat, base: nat)
    requires 2 <= base <= 16
    ensures DigitsValue(Digits(n, base), base) == n
    decreases n
  {
    if n >= base {
      var ds := Digits(n, base);
      var q, d := n / base, n % base;
      DivMod(n, base);
      assert ds == Digits(q, base) + [DigitChar(d)];
      assert ds[..|ds| - 1] == Digits(q, base);
      DigitsValueOfDigits(q, base);
      calc {
        DigitsValue(ds, base);
        DigitsValue(Digits(q, base), base) * base + DigitValue(DigitChar(d));
        q * base + d;
      }
    }
  }
}
