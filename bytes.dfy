/**
 * Fixed-width integers and little-endian byte layouts, written out explicitly
 * because Dafny integers are unbounded while the checkpoint readers work on
 * 32-bit words, `size_t` and `usize`.
 */
module Bytes {

  const U32_LIMIT: nat := 0x1_0000_0000
  const U64_LIMIT: nat := 0x1_0000_0000_0000_0000

  type byte = x: int | 0 <= x < 256
  type u32 = x: int | 0 <= x < 0x1_0000_0000
  type u64 = x: int | 0 <= x < 0x1_0000_0000_0000_0000

  /** A 32-bit IEEE-754 value kept as its bit pattern; the model never does float arithmetic. */
  type f32 = u32

  const F32_ZERO: f32 := 0x0000_0000
  const F32_NEG_INFINITY: f32 := 0xFF80_0000
  const F32_ONE: f32 := 0x3F80_0000
  const F32_0_7: f32 := 0x3F33_3333
  const F32_0_9: f32 := 0x3F66_6666
  const F32_10000: f32 := 0x461C_4000

  /** Reduction modulo 2^32, the result of any C `uint32_t` arithmetic. */
  function WrapU32(x: nat): (r: u32)
    ensures x < U32_LIMIT ==> r == x
  {
    x % U32_LIMIT
  }

  /** Reduction modulo 2^64, the result of C `size_t` arithmetic on a 64-bit target. */
  function WrapU64(x: int): (r: nat)
    ensures r < U64_LIMIT
    ensures 0 <= x < U64_LIMIT ==> r == x
  {
    x % U64_LIMIT
  }

  /** The little-endian 32-bit word stored at `s[i..i+4]`. */
  function U32At(s: seq<byte>, i: nat): (r: u32)
    requires i + 4 <= |s|
  {
    s[i] as int + 0x100 * (s[i + 1] as int + 0x100 * (s[i + 2] as int + 0x100 * (s[i + 3] as int)))
  }

  /** The four little-endian bytes of a 32-bit word. */
  function U32Bytes(x: u32): (r: seq<byte>)
    ensures |r| == 4
  {
    var a := x / 0x100;
    var b := a / 0x100;
    [x % 0x100, a % 0x100, b % 0x100, b / 0x100]
  }

  /** Reading back a word from where its four little-endian bytes were stored. */
  lemma U32AtBytes(s: seq<byte>, i: nat, x: u32)
    requires i + 4 <= |s| && s[i..i + 4] == U32Bytes(x)
    ensures U32At(s, i) == x
  {
    var a := x / 0x100;
    var b := a / 0x100;
    assert s[i] == s[i..i + 4][0] == x % 0x100;
    assert s[i + 1] == s[i..i + 4][1] == a % 0x100;
    assert s[i + 2] == s[i..i + 4][2] == b % 0x100;
    assert s[i + 3] == s[i..i + 4][3] == b / 0x100;
    assert b == b % 0x100 + 0x100 * (b / 0x100);
    assert a == a % 0x100 + 0x100 * b;
    assert x == x % 0x100 + 0x100 * a;
  }

  /** A word read from a prefix of a sequence is the word at the same place in the whole. */
  lemma U32AtPrefix(s: seq<byte>, i: nat, n: nat)
    requires i + 4 <= n <= |s|
    ensures U32At(s[..n], i) == U32At(s, i)
  {
    var p := s[..n];
    assert p[i] == s[i] && p[i + 1] == s[i + 1] && p[i + 2] == s[i + 2] && p[i + 3] == s[i + 3];
  }

  /** A sequence of 32-bit words laid out back to back in little-endian order. */
  function Words(ws: seq<u32>): (r: seq<byte>)
    ensures |r| == 4 * |ws|
  {
    if ws == [] then [] else U32Bytes(ws[0]) + Words(ws[1..])
  }

  lemma {:induction false} WordsAt(ws: seq<u32>, k: nat)
    requires k < |ws|
    ensures Words(ws)[4 * k..4 * k + 4] == U32Bytes(ws[k])
  {
    if k > 0 {
      WordsAt(ws[1..], k - 1);
      assert Words(ws)[4 * k..4 * k + 4] == Words(ws[1..])[4 * (k - 1)..4 * (k - 1) + 4];
    }
  }

  /** The `k`-th word of a laid-out sequence, read back from any file that starts with it. */
  lemma WordsRead(ws: seq<u32>, rest: seq<byte>, k: nat)
    requires k < |ws|
    ensures 4 * k + 4 <= |Words(ws) + rest|
    ensures U32At(Words(ws) + rest, 4 * k) == ws[k]
  {
    var w := Words(ws);
    var s := w + rest;
    WordsAt(ws, k);
    var t, u := s[4 * k..4 * k + 4], w[4 * k..4 * k + 4];
    assert forall j | 0 <= j < 4 :: t[j] == u[j];
    assert t == u;
    U32AtBytes(s, 4 * k, ws[k]);
  }

  /** A 32-bit word reinterpreted as a two's-complement `i32`, as a Rust `as i32` cast does. */
  function I32FromBits(x: u32): (r: int)
    ensures -0x8000_0000 <= r < 0x8000_0000
    ensures r >= 0 <==> x < 0x8000_0000
    ensures WrapU32(r + U32_LIMIT) == x
  {
    if x < 0x8000_0000 then x else x - U32_LIMIT
  }

  /** An `i32` widened to a 64-bit `usize` by a Rust `as usize` cast (sign extension). */
  function UsizeFromI32(x: int): (r: nat)
    requires -0x8000_0000 <= x < 0x8000_0000
    ensures r < U64_LIMIT
    ensures x >= 0 ==> r == x
    ensures x < 0 ==> r >= U64_LIMIT - 0x8000_0000
  {
    if x >= 0 then x else x + U64_LIMIT
  }
}
