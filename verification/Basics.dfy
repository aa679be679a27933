/** Machine-sized numbers, bytes and the two wrappers every other module uses. */
module Basics {

  newtype byte = x: int | 0 <= x < 0x100

  type u8 = x: int | 0 <= x <= 0xFF
  type u16 = x: int | 0 <= x <= 0xFFFF
  type u32 = x: int | 0 <= x <= U32_MAX

  const U32_MAX: int := 0xFFFF_FFFF

  datatype Option<+T> = None | Some(value: T)

  datatype Result<+T, +E> = Ok(value: T) | Err(error: E)

  function Min(a: int, b: int): (m: int)
    ensures m <= a && m <= b && (m == a || m == b)
  {
    if a <= b then a else b
  }

  function Max(a: int, b: int): (m: int)
    ensures m >= a && m >= b && (m == a || m == b)
  {
    if a >= b then a else b
  }

  /** `u32::saturating_add`. */
  function SaturatingAdd(a: u32, b: u32): (r: u32) {
    Min(a + b, U32_MAX)
  }

  /** `u32::try_from(n).unwrap_or(u32::MAX)`: how a length becomes a wire number. */
  function Clamp32(n: nat): (r: u32) {
    Min(n, U32_MAX)
  }

  /** Big-endian encodings, as `to_be_bytes` writes them. */
  function Be16(n: u16): (r: seq<byte>)
    ensures |r| == 2
  {
    [(n / 0x100) as byte, (n % 0x100) as byte]
  }

  function Be32(n: u32): (r: seq<byte>)
    ensures |r| == 4
  {
    [(n / 0x100_0000) as byte, (n / 0x1_0000 % 0x100) as byte, (n / 0x100 % 0x100) as byte, (n % 0x100) as byte]
  }

  function FromBe16(s: seq<byte>): (n: u16)
    requires |s| == 2
  {
    s[0] as int * 0x100 + s[1] as int
  }

  function FromBe32(s: seq<byte>): (n: u32)
    requires |s| == 4
  {
    s[0] as int * 0x100_0000 + s[1] as int * 0x1_0000 + s[2] as int * 0x100 + s[3] as int
  }

  lemma Be16RoundTrip(n: u16)
    ensures FromBe16(Be16(n)) == n
  {
  }

  lemma Be32RoundTrip(n: u32)
    ensures FromBe32(Be32(n)) == n
  {
    var a, b, c, d := n / 0x100_0000, n / 0x1_0000, n / 0x100, n % 0x100;
    Shifted(n, 0x100_0000, a, b);
    Shifted(n, 0x1_0000, b, c);
    assert n == c * 0x100 + d;
  }

  /** Dividing by 256 times less leaves one more byte below. */
  lemma Shifted(n: nat, unit: nat, high: nat, low: nat)
    requires unit in {0x1_0000, 0x100_0000} && high == n / unit && low == n / (unit / 0x100)
    ensures low == high * 0x100 + low % 0x100
  {
    assert low / 0x100 == high;
  }

  lemma Be32Injective(a: u32, b: u32)
    requires Be32(a) == Be32(b)
    ensures a == b
  {
    Be32RoundTrip(a);
    Be32RoundTrip(b);
  }

  function LowerChar(c: char): char {
    if 'A' <= c <= 'Z' then (c as int + 32) as char else c
  }

  /** `to_ascii_lowercase`. */
  function Lower(s: string): (r: string) {
    seq(|s|, i requires 0 <= i < |s| => LowerChar(s[i]))
  }

  /** What holds at `j` and is kept by every step holds at `k`. */
  lemma {:induction false} Onwards(p: nat -> bool, j: nat, k: nat)
    requires j <= k && p(j) && forall n :: j <= n < k && p(n) ==> p(n + 1)
    ensures p(k)
    decreases k
  {
    if j < k {
      Onwards(p, j, k - 1);
      assert p((k - 1) + 1);
    }
  }

  lemma Assoc<T>(a: seq<T>, b: seq<T>, c: seq<T>)
    ensures a + (b + c) == (a + b) + c
  {
  }

  lemma Regrouped<T>(a: seq<T>, b: seq<T>)
    requires b != []
    ensures a + [b[0]] + b[1..] == a + b
  {
  }
}
