/**
 * Machine integer ranges, C-string views and decimal printing shared by the
 * models of the firmware's C++ sources.
 */
module Common {

  newtype u8 = x: int | 0 <= x < 0x100
  newtype u16 = x: int | 0 <= x < 0x1_0000
  newtype u32 = x: int | 0 <= x < 0x1_0000_0000

  const TwoTo32: int := 0x1_0000_0000

  datatype Option<T> = None | Some(value: T)

  /** C++ `uint32_t` subtraction: the difference taken modulo 2^32. */
  function Sub32(a: u32, b: u32): (r: u32)
    ensures a >= b ==> r as int == a as int - b as int
    ensures a < b ==> r as int == a as int - b as int + TwoTo32
  {
    ((a as int - b as int) % TwoTo32) as u32
  }

  /** C++ `int16_t` truncation: the value congruent to `v` modulo 2^16 in [-2^15, 2^15). */
  function Wrap16(v: int): (r: int)
    ensures -0x8000 <= r < 0x8000
    ensures -0x8000 <= v < 0x8000 ==> r == v
    ensures (r - v) % 0x1_0000 == 0
  {
    (v + 0x8000) % 0x1_0000 - 0x8000
  }

  predicate IsInt16(v: int) { -0x8000 <= v < 0x8000 }

  /** `tolower` in the "C" locale: only 'A'..'Z' are changed. */
  function ToLower(c: char): (r: char)
    ensures 'A' <= c <= 'Z' ==> r as int == c as int + 32
    ensures !('A' <= c <= 'Z') ==> r == c
    ensures !('A' <= r <= 'Z')
  {
    if 'A' <= c <= 'Z' then (c as int + 32) as char else c
  }

  function LowerString(s: string): (r: string)
    ensures |r| == |s|
    ensures forall i :: 0 <= i < |s| ==> r[i] == ToLower(s[i])
  {
    if s == [] then [] else [ToLower(s[0])] + LowerString(s[1..])
  }

  /** A word already in lower case is its own lower-case form. */
  lemma LowerOfLowercase(w: string)
    requires forall i :: 0 <= i < |w| ==> 'a' <= w[i] <= 'z'
    ensures LowerString(w) == w
  {
    assert forall i :: 0 <= i < |w| ==> LowerString(w)[i] == w[i];
  }

  predicate NoNul(s: string) { forall i :: 0 <= i < |s| ==> s[i] != '\0' }

  /** The string a `char *` denotes: everything before the first NUL. */
  function CString(buf: seq<char>): (r: string)
    ensures |r| <= |buf| && r == buf[..|r|]
    ensures NoNul(r)
    ensures |r| < |buf| ==> buf[|r|] == '\0'
  {
    if buf == [] || buf[0] == '\0' then [] else [buf[0]] + CString(buf[1..])
  }

  lemma {:induction false} CStringOfTerminated(s: string, rest: seq<char>)
    requires NoNul(s)
    ensures CString(s + ['\0'] + rest) == s
  {
    if s != [] {
      assert (s + ['\0'] + rest)[1..] == s[1..] + ['\0'] + rest;
      CStringOfTerminated(s[1..], rest);
    }
  }

  function DecimalDigit(d: nat): (c: char)
    requires d < 10
    ensures '0' <= c <= '9' && c as int - '0' as int == d
  {
    ('0' as int + d) as char
  }

  /** `%u` / `to_string` of a non-negative number. */
  function NatToString(n: nat): (r: string)
    ensures |r| >= 1
    ensures forall i :: 0 <= i < |r| ==> '0' <= r[i] <= '9'
    ensures n >= 10 ==> r[0] != '0'
  {
    if n < 10 then [DecimalDigit(n)] else NatToString(n / 10) + [DecimalDigit(n % 10)]
  }

  /** Arduino `String::concat(int)`: a minus sign, then the magnitude. */
  function IntToString(i: int): (r: string)
    ensures |r| >= 1
    ensures i < 0 <==> r[0] == '-'
  {
    if i < 0 then "-" + NatToString(-i) else NatToString(i)
  }

  /** Value of a run of decimal digits, most significant first. */
  function DigitsValue(s: string): nat
    requires forall i :: 0 <= i < |s| ==> '0' <= s[i] <= '9'
  {
    if s == [] then 0 else DigitsValue(s[..|s| - 1]) * 10 + (s[|s| - 1] as int - '0' as int)
  }

  lemma {:induction false} DigitsValueOfNat(n: nat)
    ensures DigitsValue(NatToString(n)) == n
  {
    if n >= 10 {
      var s := NatToString(n);
      assert s[..|s| - 1] == NatToString(n / 10);
      DigitsValueOfNat(n / 10);
    }
  }
}
