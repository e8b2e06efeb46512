/** Shared building blocks: failure-carrying results, Go's fixed-width
    integer ranges, the decimal conversions of Go's `strconv`, and Go's
    byte-wise string ordering. */
module Common {

  datatype Option<+T> = None | Some(value: T)

  /** A Go `(T, error)` pair: either a value or an error message. */
  datatype Result<+T> = Ok(value: T) | Err(msg: string)

  /** An error-only Go return (`error`), `Pass` standing for `nil`. */
  datatype Outcome = Pass | Fail(msg: string)

  type u8 = x: int | 0 <= x < 256
  type u16 = x: int | 0 <= x < 65536

  const MaxInt64: int := 0x7fff_ffff_ffff_ffff
  const MinInt64: int := -0x8000_0000_0000_0000

  /** Go's conversion `uint8(x)` of an int: keeps the low byte. */
  function ToUint8(x: int): (r: u8)
    ensures (x - r) % 256 == 0
  {
    x % 256
  }

  //
  // Decimal text (strconv.Itoa / strconv.Atoi)
  //

  predicate IsDigit(c: char) { '0' <= c <= '9' }

  predicate AllDigits(s: string) { forall i :: 0 <= i < |s| ==> IsDigit(s[i]) }

  function DigitChar(d: nat): (c: char)
    requires d < 10
    ensures IsDigit(c) && c as int - '0' as int == d
  {
    (48 + d) as char
  }

  /** The value of a string of decimal digits, most significant first. */
  function DigitsValue(s: string): nat
    requires AllDigits(s)
  {
    if s == [] then 0
    else DigitsValue(s[..|s| - 1]) * 10 + (s[|s| - 1] as int - '0' as int)
  }

  /** Decimal digits of a natural number without leading zeros. */
  function NatToString(n: nat): (s: string)
    ensures |s| > 0 && AllDigits(s)
    ensures s[0] == '0' ==> n == 0
  {
    if n < 10 then [DigitChar(n)] else NatToString(n / 10) + [DigitChar(n % 10)]
  }

  /** strconv.Itoa: decimal text with a leading '-' for negative numbers. */
  function Itoa(n: int): string
  {
    if n < 0 then "-" + NatToString(-n) else NatToString(n)
  }

  /** strconv.Atoi on a 64-bit platform: an optional sign, then one or more
      decimal digits and nothing else; values outside int64 are a range
      error. */
  function Atoi(s: string): (r: Result<int>)
    ensures r.Ok? ==> MinInt64 <= r.value <= MaxInt64
    ensures r.Ok? ==> |s| > 0 && (IsDigit(s[0]) || s[0] == '+' || s[0] == '-')
    ensures s == "" ==> r.Err?
  {
    var neg := |s| > 0 && s[0] == '-';
    var body := if |s| > 0 && (s[0] == '+' || s[0] == '-') then s[1..] else s;
    if body == [] || !AllDigits(body) then Err("invalid syntax")
    else
      var mag: int := DigitsValue(body);
      var v := if neg then -mag else mag;
      if v < MinInt64 || MaxInt64 < v then Err("value out of range") else Ok(v)
  }

  lemma {:induction false} DigitsOfNat(n: nat)
    ensures DigitsValue(NatToString(n)) == n
  {
    if n >= 10 {
      DigitsOfNat(n / 10);
      var s := NatToString(n);
      assert s[..|s| - 1] == NatToString(n / 10);
    }
  }

  /** Atoi undoes Itoa on the whole int64 range. */
  lemma AtoiItoa(n: int)
    requires MinInt64 <= n <= MaxInt64
    ensures Atoi(Itoa(n)) == Ok(n)
  {
    var s := Itoa(n);
    if n < 0 {
      var digits := NatToString(-n);
      DigitsOfNat(-n);
      assert s[0] == '-' && s[1..] == digits;
    } else {
      var digits := NatToString(n);
      DigitsOfNat(n);
      assert s == digits && s[0] != '+' && s[0] != '-';
    }
  }

  //
  // Strings
  //

  /** Go's `<` on strings: byte-wise lexicographic order. */
  predicate StringLess(a: string, b: string)
  {
    if a == [] then b != []
    else if b == [] then false
    else if a[0] != b[0] then a[0] < b[0]
    else StringLess(a[1..], b[1..])
  }

  lemma {:induction false} StringLessIrreflexive(a: string)
    ensures !StringLess(a, a)
  {
    if a != [] { StringLessIrreflexive(a[1..]); }
  }

  lemma {:induction false} StringLessTransitive(a: string, b: string, c: string)
    requires StringLess(a, b) && StringLess(b, c)
    ensures StringLess(a, c)
  {
    if a != [] && b != [] && c != [] && a[0] == b[0] && b[0] == c[0] {
      StringLessTransitive(a[1..], b[1..], c[1..]);
    }
  }

  lemma {:induction false} StringLessTotal(a: string, b: string)
    requires a != b
    ensures StringLess(a, b) || StringLess(b, a)
  {
    if a != [] && b != [] && a[0] == b[0] {
      StringLessTotal(a[1..], b[1..]);
    }
  }

  /** ASCII lower-casing. */
  function Lower(c: char): char
  {
    if 'A' <= c <= 'Z' then (c as int + 32) as char else c
  }

  /** A key character matches a field-name character (an ASCII name, as
      every Go field name here is) when they are equal up to ASCII case, or
      when the key has the long s (U+017F) where the name has an s, or the
      Kelvin sign (U+212A) where the name has a k: the only non-ASCII
      characters that fold to ASCII letters. */
  predicate CharFoldEq(k: char, f: char)
  {
    Lower(k) == Lower(f) || (k == '\U{017F}' && Lower(f) == 's') || (k == '\U{212A}' && Lower(f) == 'k')
  }

  /** Case-insensitive match of a key against a field name. */
  predicate FoldEq(key: string, field: string)
  {
    |key| == |field| && forall i :: 0 <= i < |key| ==> CharFoldEq(key[i], field[i])
  }
}
