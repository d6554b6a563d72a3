/** Integers as text: template-literal interpolation of an id (`${id}`) and
    JavaScript's `parseInt` with no radix argument, as the booking form applies it
    to its route parameter. */
module Decimal {
  import opened Shared

  predicate IsDigit(c: char) {
    '0' <= c <= '9'
  }

  function DigitChar(d: nat): (c: char)
    requires d < 10
    ensures IsDigit(c)
  {
    ('0' as int + d) as char
  }

  /** The value `parseInt` gives a character as a digit: 0-9, then a-z / A-Z as 10-35;
      36 for a character that is a digit in no radix. */
  function DigitValue(c: char): nat {
    if '0' <= c <= '9' then c as int - '0' as int
    else if 'a' <= c <= 'z' then c as int - 'a' as int + 10
    else if 'A' <= c <= 'Z' then c as int - 'A' as int + 10
    else 36
  }

  /** The decimal digits of a natural number, most significant first. */
  function Digits(n: nat): (s: string)
    ensures |s| > 0
    ensures forall i :: 0 <= i < |s| ==> IsDigit(s[i])
    decreases n
  {
    if n < 10 then [DigitChar(n)] else Digits(n / 10) + [DigitChar(n % 10)]
  }

  /** `${n}` for an integer. */
  function Show(n: int): string {
    if n < 0 then "-" + Digits(-n) else Digits(n)
  }

  /** `${id}` for an id that may be null. */
  function IdText(id: Option<int>): string {
    match id
    case Some(n) => Show(n)
    case None => "null"
  }

  /** ECMAScript's StrWhiteSpaceChar: white space and line terminators. */
  predicate IsSpace(c: char) {
    var k := c as int;
    (9 <= k <= 13) || k == 0x20 || k == 0xA0 || k == 0x1680 || (0x2000 <= k <= 0x200A) ||
    k == 0x2028 || k == 0x2029 || k == 0x202F || k == 0x205F || k == 0x3000 || k == 0xFEFF
  }

  /** Drops leading white space. */
  function SkipSpace(s: string): (t: string)
    ensures t == [] || !IsSpace(t[0])
    decreases |s|
  {
    if s != [] && IsSpace(s[0]) then SkipSpace(s[1..]) else s
  }

  /** The length of the longest prefix of `s` made of digits in `radix`. */
  function DigitRun(s: string, radix: nat): (k: nat)
    ensures k <= |s|
    ensures forall i :: 0 <= i < k ==> DigitValue(s[i]) < radix
    ensures k < |s| ==> DigitValue(s[k]) >= radix
  {
    if s != [] && DigitValue(s[0]) < radix then 1 + DigitRun(s[1..], radix) else 0
  }

  /** The number a run of digits spells in `radix`, most significant digit first. */
  function ValueIn(s: string, radix: nat): nat {
    if s == [] then 0 else ValueIn(s[..|s| - 1], radix) * radix + DigitValue(s[|s| - 1])
  }

  /** The digits after the sign: radix 16 after a `0x`/`0X` prefix, radix 10
      otherwise, read as far as they go; `None` when there is no digit. */
  function Magnitude(u: string): Option<nat> {
    var hex := |u| >= 2 && u[0] == '0' && (u[1] == 'x' || u[1] == 'X');
    var radix := if hex then 16 else 10;
    var w := if hex then u[2..] else u;
    var k := DigitRun(w, radix);
    if k == 0 then None else Some(ValueIn(w[..k], radix))
  }

  /** One optional sign, then the magnitude. */
  function Signed(t: string): Option<int> {
    var negative := t != [] && t[0] == '-';
    var u := if t != [] && (t[0] == '-' || t[0] == '+') then t[1..] else t;
    match Magnitude(u)
    case None => None
    case Some(v) => Some(if negative then -(v as int) else v as int)
  }

  /** `parseInt(s)` without a radix: skip white space, then a signed magnitude.
      `None` is NaN. */
  function ParseInt(s: string): Option<int> {
    Signed(SkipSpace(s))
  }

  lemma {:induction false} ValueOfDigits(n: nat)
    ensures ValueIn(Digits(n), 10) == n
    decreases n
  {
    var s := Digits(n);
    if n >= 10 {
      ValueOfDigits(n / 10);
      assert s[..|s| - 1] == Digits(n / 10);
    }
  }

  /** A run of digits followed by a non-digit (or nothing) is read up to its end. */
  lemma {:induction false} DigitRunOfPrefix(a: string, b: string, radix: nat)
    requires forall i :: 0 <= i < |a| ==> DigitValue(a[i]) < radix
    requires b == [] || DigitValue(b[0]) >= radix
    ensures DigitRun(a + b, radix) == |a|
    decreases |a|
  {
    if a != [] {
      assert (a + b)[1..] == a[1..] + b;
      DigitRunOfPrefix(a[1..], b, radix);
    } else {
      assert a + b == b;
    }
  }

  lemma MagnitudeOfDigits(m: nat, rest: string)
    requires rest == [] || DigitValue(rest[0]) == 36
    ensures Magnitude(Digits(m) + rest) == Some(m)
  {
    var d := Digits(m);
    var u := d + rest;
    assert !(|u| >= 2 && u[0] == '0' && (u[1] == 'x' || u[1] == 'X')) by {
      if |d| == 1 && |u| >= 2 { assert u[1] == rest[0]; }
      if |d| >= 2 { assert u[1] == d[1]; }
    }
    DigitRunOfPrefix(d, rest, 10);
    assert u[..|d|] == d;
    ValueOfDigits(m);
  }

  /** A negative number is read back through its minus sign. */
  lemma SignedNegative(m: nat, rest: string)
    requires rest == [] || DigitValue(rest[0]) == 36
    ensures Signed(['-'] + (Digits(m) + rest)) == Some(-(m as int))
  {
    var t := ['-'] + (Digits(m) + rest);
    assert t[0] == '-' && t[1..] == Digits(m) + rest;
    MagnitudeOfDigits(m, rest);
  }

  /** A natural number is read back from its first digit on. */
  lemma SignedNatural(m: nat, rest: string)
    requires rest == [] || DigitValue(rest[0]) == 36
    ensures Signed(Digits(m) + rest) == Some(m as int)
  {
    var t := Digits(m) + rest;
    assert t[0] == Digits(m)[0];
    assert t[0] != '-' && t[0] != '+';
    MagnitudeOfDigits(m, rest);
  }

  /** Text that does not start with white space is not trimmed. */
  lemma SkipNothing(t: string)
    requires t != [] && (t[0] == '-' || IsDigit(t[0]))
    ensures SkipSpace(t) == t
  {
    assert !IsSpace(t[0]);
  }

  /** `parseInt` reads back what `${n}` prints, also when a non-alphanumeric
      character follows it (`parseInt('12/edit')` is 12). */
  lemma ParseShow(n: int, rest: string)
    requires rest == [] || DigitValue(rest[0]) == 36
    ensures ParseInt(Show(n) + rest) == Some(n)
  {
    if n < 0 {
      var m: nat := -n;
      var s := ['-'] + (Digits(m) + rest);
      assert Show(n) + rest == s;
      SkipNothing(s);
      SignedNegative(m, rest);
    } else {
      var s := Digits(n) + rest;
      assert Show(n) + rest == s;
      SkipNothing(s);
      SignedNatural(n, rest);
    }
  }
}
