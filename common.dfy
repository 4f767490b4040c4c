/** Values shared by every part of the banking model: optional values, HTTP-style
    responses, and the string helpers that JavaScript provides built in
    (number-to-string, `\s`, `toLowerCase`, `includes`, `slice(-n)`). */
module Common {

  datatype Option<T> = None | Some(value: T) {
    /** `x || d` / `x ?? d` for an optional value */
    function GetOr(default: T): T {
      if Some? then value else default
    }
  }

  /** What a route handler answers: a status with a body, or a status with an error message. */
  datatype Response<T> = Ok(status: int, body: T) | Fail(status: int, message: string)

  /** JavaScript truthiness of an optional string field of a request body:
      `undefined`, `null` and `""` are falsy. */
  predicate Truthy(s: Option<string>) {
    s.Some? && s.value != ""
  }

  /** JavaScript truthiness of an optional number field: `undefined` and `0` are falsy. */
  predicate TruthyNum(n: Option<int>) {
    n.Some? && n.value != 0
  }

  function Abs(x: int): nat {
    if x < 0 then -x else x
  }

  // ---------------------------------------------------------------------
  // Decimal digits

  predicate IsDigit(c: char) {
    '0' <= c <= '9'
  }

  predicate AllDigits(s: string) {
    forall i :: 0 <= i < |s| ==> IsDigit(s[i])
  }

  function DigitChar(d: nat): (c: char)
    requires d < 10
    ensures IsDigit(c)
  {
    ((d + '0' as int) as char)
  }

  function DigitValue(c: char): (d: nat)
    requires IsDigit(c)
    ensures d < 10
  {
    (c as int - '0' as int)
  }

  /** Milliseconds in a day, for JavaScript timestamps. */
  const DayMillis: nat := 86400000

  function Pow10(k: nat): (p: nat)
    ensures p >= 1
  {
    if k == 0 then 1 else 10 * Pow10(k - 1)
  }

  /** `/^\d{10}$/` (also written `/^[0-9]{10}$/`): exactly ten ASCII digits. */
  predicate TenDigits(s: string) {
    |s| == 10 && AllDigits(s)
  }

  /** `String(n)` for a non-negative integer: its shortest decimal numeral. */
  function NatToString(n: nat): (s: string)
    ensures 1 <= |s| && AllDigits(s)
  {
    if n < 10 then [DigitChar(n)] else NatToString(n / 10) + [DigitChar(n % 10)]
  }

  /** `String(i)` for an integer: a minus sign before the numeral of a negative value. */
  function IntToString(i: int): string {
    if i < 0 then "-" + NatToString(-i) else NatToString(i)
  }

  /** The value of a string of decimal digits. */
  function ParseDigits(s: string): nat
    requires AllDigits(s)
  {
    if s == [] then 0 else 10 * ParseDigits(s[..|s| - 1]) + DigitValue(s[|s| - 1])
  }

  lemma {:induction false} DigitRoundTrip(d: nat)
    requires d < 10
    ensures DigitValue(DigitChar(d)) == d
  {
  }

  /** Reading back the numeral of `n` gives `n`. */
  lemma {:induction false} ParseNatToString(n: nat)
    ensures ParseDigits(NatToString(n)) == n
  {
    var s := NatToString(n);
    if n < 10 {
      DigitRoundTrip(n);
    } else {
      ParseNatToString(n / 10);
      DigitRoundTrip(n % 10);
      assert s[..|s| - 1] == NatToString(n / 10);
    }
  }

  /** The numeral of a number with k digits has exactly k characters. */
  lemma {:induction false} NatToStringLength(n: nat, k: nat)
    requires 1 <= k && (k == 1 || Pow10(k - 1) <= n) && n < Pow10(k)
    ensures |NatToString(n)| == k
  {
    if k > 1 {
      assert n >= 10;
      if k == 2 {
        assert n / 10 < 10;
      } else {
        assert Pow10(k - 2) <= n / 10 < Pow10(k - 1);
      }
      NatToStringLength(n / 10, k - 1);
    } else {
      assert n < 10;
    }
  }

  /** A number of at least k digits has a numeral of at least k characters. */
  lemma {:induction false} NatToStringAtLeast(n: nat, k: nat)
    requires 1 <= k && Pow10(k - 1) <= n
    ensures |NatToString(n)| >= k
  {
    if k > 1 {
      assert Pow10(k - 2) <= n / 10;
      NatToStringAtLeast(n / 10, k - 1);
    }
  }

  /** A number below 10^k has a numeral of at most k characters. */
  lemma {:induction false} NatToStringAtMost(n: nat, k: nat)
    requires 1 <= k && n < Pow10(k)
    ensures |NatToString(n)| <= k
  {
    if n >= 10 {
      assert k > 1;
      assert n / 10 < Pow10(k - 1);
      NatToStringAtMost(n / 10, k - 1);
    }
  }

  /** `TXN${Date.now()}` */
  function Reference(now: nat): (r: string)
    ensures |r| > 3 && r[..3] == "TXN" && AllDigits(r[3..])
  {
    "TXN" + NatToString(now)
  }

  /** `s.slice(-n)`: the last n characters, or all of s when it is shorter. */
  function LastN(s: string, n: nat): (r: string)
    ensures |r| == if |s| < n then |s| else n
    ensures r == s[|s| - |r|..]
  {
    if |s| <= n then s else s[|s| - n..]
  }

  // ---------------------------------------------------------------------
  // Characters and substrings

  /** JavaScript's `\s` class: the ECMAScript white space and line terminators. */
  predicate IsSpace(c: char) {
    var k := c as int;
    k == 0x09 || k == 0x0A || k == 0x0B || k == 0x0C || k == 0x0D || k == 0x20 ||
    k == 0xA0 || k == 0x1680 || (0x2000 <= k <= 0x200A) || k == 0x2028 || k == 0x2029 ||
    k == 0x202F || k == 0x205F || k == 0x3000 || k == 0xFEFF
  }

  predicate NoSpace(s: string) {
    forall i :: 0 <= i < |s| ==> !IsSpace(s[i])
  }

  predicate IsUpper(c: char) {
    'A' <= c <= 'Z'
  }

  /** `toLowerCase` on the ASCII letters. */
  function LowerChar(c: char): char {
    if IsUpper(c) then (c as int + 32) as char else c
  }

  function ToLower(s: string): (r: string)
    ensures |r| == |s|
    ensures forall i :: 0 <= i < |s| ==> r[i] == LowerChar(s[i])
  {
    if s == [] then [] else [LowerChar(s[0])] + ToLower(s[1..])
  }

  predicate OccursAt(s: string, sub: string, i: nat) {
    i + |sub| <= |s| && s[i..i + |sub|] == sub
  }

  /** `s.includes(sub)` */
  predicate Contains(s: string, sub: string) {
    exists i: nat | i <= |s| :: OccursAt(s, sub, i)
  }

  lemma {:induction false} ContainsEmpty(s: string)
    ensures Contains(s, "")
  {
    assert OccursAt(s, "", 0);
  }

  lemma {:induction false} ContainsSelf(s: string)
    ensures Contains(s, s)
  {
    assert OccursAt(s, s, 0);
  }
}
