/** Bytes and little-endian numbers. */
module Bytes {
  import opened Prelude

  newtype byte = x: int | 0 <= x < 256

  function Pow256(width: nat): nat {
    if width == 0 then 1 else 256 * Pow256(width - 1)
  }

  /** `to_le_bytes` cut to `width` bytes. */
  function ToLe(n: nat, width: nat): (s: seq<byte>)
    ensures |s| == width
  {
    if width == 0 then [] else [(n % 256) as byte] + ToLe(n / 256, width - 1)
  }

  function FromLe(s: seq<byte>): nat {
    if s == [] then 0 else s[0] as int + 256 * FromLe(s[1..])
  }

  lemma {:induction false} LeRoundTrip(n: nat, width: nat)
    requires n < Pow256(width)
    ensures FromLe(ToLe(n, width)) == n
  {
    if width > 0 {
      LeRoundTrip(n / 256, width - 1);
      assert ToLe(n, width)[1..] == ToLe(n / 256, width - 1);
    }
  }

  lemma Pow256Of8()
    ensures Pow256(8) == U64_SPAN
  {
    assert Pow256(4) == 0x1_0000_0000;
    assert Pow256(6) == 0x1_0000_0000_0000;
  }

  /** An eight-byte number, its low four bytes written out. */
  lemma FromLe8(s: seq<byte>)
    requires |s| == 8
    ensures FromLe(s) == s[0] as int + 256 * s[1] as int + 65536 * s[2] as int + 16777216 * s[3] as int + 4294967296 * FromLe(s[4..])
  {
    assert s[1..][1..] == s[2..] && s[2..][1..] == s[3..] && s[3..][1..] == s[4..];
    assert FromLe(s[3..]) == s[3] as int + 256 * FromLe(s[4..]);
    assert FromLe(s[2..]) == s[2] as int + 256 * FromLe(s[3..]);
    assert FromLe(s[1..]) == s[1] as int + 256 * FromLe(s[2..]);
  }
}
