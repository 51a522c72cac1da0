/**
 The text forms the matchmaking keys are built from: the `Display` of a Rust integer
 (decimal, a leading '-' when negative, no leading zeros) and the `Display` of a
 `uuid::Uuid` (32 lower-case hex digits in groups of 8-4-4-4-12). Each comes with the
 parser that inverts it, so that equal texts mean equal values.
 */
module Text {
  import opened Wrappers

  /** The character of a decimal digit. */
  function DigitChar(d: nat): (c: char)
    requires d < 10
    ensures '0' <= c <= '9'
  {
    ('0' as int + d) as char
  }

  /** The value of a decimal digit character. */
  function DigitValue(c: char): (d: nat)
    requires '0' <= c <= '9'
    ensures d < 10
  {
    c as int - '0' as int
  }

  predicate IsDigits(s: string)
  {
    forall i :: 0 <= i < |s| ==> '0' <= s[i] <= '9'
  }

  /** The decimal digits of n, most significant first, without leading zeros ("0" for 0). */
  function Digits(n: nat): (s: string)
    ensures |s| >= 1 && IsDigits(s)
  {
    if n < 10 then [DigitChar(n)] else Digits(n / 10) + [DigitChar(n % 10)]
  }

  /** The number a string of decimal digits stands for. */
  function DigitsValue(s: string): nat
    requires IsDigits(s)
  {
    if s == [] then 0 else 10 * DigitsValue(s[..|s| - 1]) + DigitValue(s[|s| - 1])
  }

  /** Reading the digits of n back gives n. */
  lemma {:induction false} DigitsRoundTrip(n: nat)
    ensures DigitsValue(Digits(n)) == n
  {
    var s := Digits(n);
    if n >= 10 {
      assert s[..|s| - 1] == Digits(n / 10);
      DigitsRoundTrip(n / 10);
    }
  }

  /** `Display` of a Rust integer: '-' and the digits of |n| when n is negative. */
  function Decimal(n: int): (s: string)
    ensures |s| >= 1 && forall i :: 0 <= i < |s| ==> s[i] == '-' || '0' <= s[i] <= '9'
  {
    if n < 0 then "-" + Digits(-n) else Digits(n)
  }

  /** The integer a `Display` text stands for: the inverse of `Decimal`. */
  function ParseDecimal(s: string): Option<int>
  {
    if |s| >= 2 && s[0] == '-' && IsDigits(s[1..]) then var v: int := DigitsValue(s[1..]); Some(-v)
    else if s != [] && IsDigits(s) then Some(DigitsValue(s))
    else None
  }

  lemma DecimalRoundTrip(n: int)
    ensures ParseDecimal(Decimal(n)) == Some(n)
  {
    DigitsRoundTrip(if n < 0 then -n else n);
    if n < 0 {
      assert Decimal(n)[1..] == Digits(-n);
    }
  }

  /** Distinct integers have distinct texts. */
  lemma DecimalInjective(a: int, b: int)
    ensures Decimal(a) == Decimal(b) <==> a == b
  {
    DecimalRoundTrip(a);
    DecimalRoundTrip(b);
  }

  /** 16^w. */
  function Pow16(w: nat): (p: nat)
    ensures p >= 1
  {
    if w == 0 then 1 else 16 * Pow16(w - 1)
  }

  /** The character of a hex digit, in lower case. */
  function HexChar(d: nat): (c: char)
    requires d < 16
    ensures IsHex(c)
  {
    if d < 10 then ('0' as int + d) as char else ('a' as int + d - 10) as char
  }

  predicate IsHex(c: char)
  {
    '0' <= c <= '9' || 'a' <= c <= 'f'
  }

  function HexValue(c: char): (d: nat)
    requires IsHex(c)
    ensures d < 16
  {
    if c <= '9' then c as int - '0' as int else c as int - 'a' as int + 10
  }

  /** n in exactly w lower-case hex digits, most significant first, zero-padded. */
  function HexDigits(n: nat, w: nat): (s: string)
    ensures |s| == w && forall i :: 0 <= i < |s| ==> IsHex(s[i])
  {
    if w == 0 then [] else HexDigits(n / 16, w - 1) + [HexChar(n % 16)]
  }

  /** The number a string of hex digits stands for. */
  function HexDigitsValue(s: string): nat
    requires forall i :: 0 <= i < |s| ==> IsHex(s[i])
  {
    if s == [] then 0 else 16 * HexDigitsValue(s[..|s| - 1]) + HexValue(s[|s| - 1])
  }

  /** Reading w hex digits of n back gives n, for n below 16^w. */
  lemma {:induction false} HexRoundTrip(n: nat, w: nat)
    requires n < Pow16(w)
    ensures HexDigitsValue(HexDigits(n, w)) == n
  {
    if w > 0 {
      var s := HexDigits(n, w);
      assert s[..|s| - 1] == HexDigits(n / 16, w - 1);
      HexRoundTrip(n / 16, w - 1);
    }
  }

  /** A `uuid::Uuid`: a 128-bit value, below 16^32 = 2^128. */
  type Uuid = n: nat | n < Pow16(32)

  /** `Display` of a Uuid: its 32 hex digits grouped 8-4-4-4-12 by hyphens. */
  function Hyphenated(id: Uuid): (s: string)
    ensures |s| == 36 && s[8] == '-' && s[13] == '-' && s[18] == '-' && s[23] == '-'
  {
    var h := HexDigits(id, 32);
    h[..8] + "-" + h[8..12] + "-" + h[12..16] + "-" + h[16..20] + "-" + h[20..]
  }

  /** The hex digits of a hyphenated text, the hyphens dropped. */
  function Unhyphenate(s: string): (h: string)
    requires |s| == 36
  {
    s[..8] + s[9..13] + s[14..18] + s[19..23] + s[24..]
  }

  /** Dropping the hyphens and reading the hex digits gives the Uuid back. */
  lemma HyphenatedRoundTrip(id: Uuid)
    ensures var h := Unhyphenate(Hyphenated(id));
      (forall i :: 0 <= i < |h| ==> IsHex(h[i])) && HexDigitsValue(h) == id
  {
    var h := HexDigits(id, 32);
    var s := Hyphenated(id);
    assert s[..8] == h[..8] && s[9..13] == h[8..12] && s[14..18] == h[12..16];
    assert s[19..23] == h[16..20] && s[24..] == h[20..];
    assert h == h[..8] + h[8..12] + h[12..16] + h[16..20] + h[20..];
    HexRoundTrip(id, 32);
  }

  /** Distinct Uuids have distinct texts. */
  lemma HyphenatedInjective(a: Uuid, b: Uuid)
    ensures Hyphenated(a) == Hyphenated(b) <==> a == b
  {
    HyphenatedRoundTrip(a);
    HyphenatedRoundTrip(b);
  }
}
