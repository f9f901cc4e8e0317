/**
 * The few pieces of Java semantics the timer relies on: 32-bit `int` and
 * 64-bit `long` two's-complement arithmetic, `String.substring(0, end)`,
 * and the decimal text of a `long` that string concatenation produces.
 */
module JavaLang {
  import opened Wrappers

  const INT_MIN: int := -0x8000_0000
  const INT_MAX: int := 0x7fff_ffff
  const LONG_MIN: int := -0x8000_0000_0000_0000
  const LONG_MAX: int := 0x7fff_ffff_ffff_ffff

  /** Java `int` */
  type Int32 = x: int | INT_MIN <= x <= INT_MAX
  /** Java `long` */
  type Int64 = x: int | LONG_MIN <= x <= LONG_MAX

  /** Narrowing of a mathematical integer to `int`: keep the low 32 bits. */
  function ToInt(x: int): (r: Int32)
    ensures INT_MIN <= x <= INT_MAX ==> r == x
    ensures (x - r) % 0x1_0000_0000 == 0
  {
    (x - INT_MIN) % 0x1_0000_0000 + INT_MIN
  }

  /** Narrowing of a mathematical integer to `long`: keep the low 64 bits. */
  function ToLong(x: int): (r: Int64)
    ensures LONG_MIN <= x <= LONG_MAX ==> r == x
    ensures (x - r) % 0x1_0000_0000_0000_0000 == 0
  {
    (x - LONG_MIN) % 0x1_0000_0000_0000_0000 + LONG_MIN
  }

  /** `a * b` on `int` operands, wrapping on overflow. */
  function IntMul(a: Int32, b: Int32): (r: Int32) {
    ToInt(a * b)
  }

  /** `a - b` on `long` operands, wrapping on overflow. */
  function LongSub(a: Int64, b: Int64): (r: Int64)
    ensures LONG_MIN <= a - b <= LONG_MAX ==> r == a - b
    ensures (a - b - r) % 0x1_0000_0000_0000_0000 == 0
  {
    ToLong(a - b)
  }

  /** `AtomicInteger.getAndIncrement` leaves this value behind (wrapping at `Integer.MAX_VALUE`). */
  function Increment(x: Int32): (r: Int32)
    ensures x < INT_MAX ==> r == x + 1
    ensures x == INT_MAX ==> r == INT_MIN
  {
    ToInt(x + 1)
  }

  /** `AtomicInteger.decrementAndGet` returns this value (wrapping at `Integer.MIN_VALUE`). */
  function Decrement(x: Int32): (r: Int32)
    ensures x > INT_MIN ==> r == x - 1
    ensures x == INT_MIN ==> r == INT_MAX
  {
    ToInt(x - 1)
  }

  /** Increment and Decrement undo each other, wrap-around included. */
  lemma IncrementDecrement(x: Int32)
    ensures Decrement(Increment(x)) == x
    ensures Increment(Decrement(x)) == x
  {
  }

  /**
   * `s.substring(begin, end)`: None stands for the
   * `StringIndexOutOfBoundsException` thrown when the bounds are not
   * `0 <= begin <= end <= s.length()`.
   */
  function Substring(s: string, begin: int, end: int): (r: Option<string>)
    ensures r.Some? <==> 0 <= begin <= end <= |s|
    ensures r.Some? ==> |r.value| == end - begin
    ensures r.Some? ==> forall i :: 0 <= i < |r.value| ==> r.value[i] == s[begin + i]
  {
    if 0 <= begin <= end <= |s| then Some(s[begin..end]) else None
  }

  predicate IsDigit(c: char) {
    '0' <= c <= '9'
  }

  function DigitChar(d: nat): (c: char)
    requires d < 10
    ensures IsDigit(c) && c as int - '0' as int == d
  {
    ('0' as int + d) as char
  }

  /** Decimal digits of a natural number, most significant first, no leading zeros. */
  function NatToString(n: nat): (s: string)
    ensures |s| >= 1 && forall i :: 0 <= i < |s| ==> IsDigit(s[i])
    ensures |s| > 1 ==> s[0] != '0'
  {
    if n < 10 then [DigitChar(n)] else NatToString(n / 10) + [DigitChar(n % 10)]
  }

  /** `Long.toString(x)`, which is what `"..." + x` appends for a `long` x. */
  function LongToString(x: Int64): (s: string)
    ensures |s| >= 1
    ensures s[0] == '-' <==> x < 0
    ensures x >= 0 && |s| > 1 ==> s[0] != '0'
    ensures x < 0 ==> |s| >= 2 && s[1] != '0'
  {
    if x < 0 then "-" + NatToString(-(x as int)) else NatToString(x)
  }

  /** Value of a non-empty string of decimal digits; None if any character is not a digit. */
  function ParseNat(s: string): (r: Option<nat>)
    decreases |s|
  {
    if |s| == 0 || !IsDigit(s[|s| - 1]) then None
    else
      var last := s[|s| - 1] as int - '0' as int;
      if |s| == 1 then Some(last)
      else match ParseNat(s[..|s| - 1])
        case None => None
        case Some(high) => Some(10 * high + last)
  }

  /** `Long.parseLong(s)` restricted to what `Long.toString` produces. */
  function ParseLong(s: string): (r: Option<int>) {
    if |s| > 0 && s[0] == '-' then
      match ParseNat(s[1..])
      case None => None
      case Some(n) => Some(-(n as int))
    else ParseNat(s)
  }

  lemma {:induction false} ParseNatToString(n: nat)
    ensures ParseNat(NatToString(n)) == Some(n)
  {
    var s := NatToString(n);
    if n >= 10 {
      ParseNatToString(n / 10);
      assert s[..|s| - 1] == NatToString(n / 10);
    }
  }

  /** The decimal text of a `long` reads back as the same value. */
  lemma {:induction false} LongToStringRoundTrip(x: Int64)
    ensures ParseLong(LongToString(x)) == Some(x as int)
  {
    if x < 0 {
      var m: nat := -(x as int);
      var digits := NatToString(m);
      ParseNatToString(m);
      var text := "-" + digits;
      assert LongToString(x) == text;
      assert text[0] == '-' && text[1..] == digits;
    } else {
      var digits := NatToString(x as nat);
      ParseNatToString(x as nat);
      assert IsDigit(digits[0]);
      assert LongToString(x) == digits;
    }
  }
}
