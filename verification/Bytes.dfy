/** Byte strings and their little-endian value, the one encoding every format here shares. */
module Bytes {

  type Byte = x: int | 0 <= x < 256

  type ByteString = seq<Byte>

  function Pow256(n: nat): (p: int)
    ensures p >= 1
  {
    if n == 0 then 1 else 256 * Pow256(n - 1)
  }

  /** The unsigned value of a byte string, least significant byte first. */
  function LittleEndian(b: ByteString): nat {
    if |b| == 0 then 0 else b[0] + 256 * LittleEndian(b[1..])
  }

  /** The low `width` bytes of a number, as a fixed-width write leaves them. */
  function FixedWidth(n: nat, width: nat): (b: ByteString)
    ensures |b| == width
  {
    if width == 0 then [] else [n % 256] + FixedWidth(n / 256, width - 1)
  }

  lemma {:induction false} LittleEndianAppend(a: ByteString, last: Byte)
    ensures LittleEndian(a + [last]) == LittleEndian(a) + last * Pow256(|a|)
  {
    if |a| == 0 {
      assert (a + [last])[1..] == [];
    } else {
      LittleEndianAppend(a[1..], last);
      assert (a + [last])[1..] == a[1..] + [last];
      calc {
        LittleEndian(a + [last]);
        a[0] + 256 * (LittleEndian(a[1..]) + last * Pow256(|a| - 1));
        LittleEndian(a) + 256 * (last * Pow256(|a| - 1));
        { assert 256 * (last * Pow256(|a| - 1)) == last * (256 * Pow256(|a| - 1)); }
        LittleEndian(a) + last * Pow256(|a|);
      }
    }
  }

  lemma {:induction false} LittleEndianBound(b: ByteString)
    ensures LittleEndian(b) < Pow256(|b|)
  {
    if |b| > 0 {
      LittleEndianBound(b[1..]);
    }
  }

  lemma {:induction false} FixedWidthValue(n: nat, width: nat)
    requires n < Pow256(width)
    ensures LittleEndian(FixedWidth(n, width)) == n
  {
    if width > 0 {
      FixedWidthValue(n / 256, width - 1);
      assert FixedWidth(n, width)[1..] == FixedWidth(n / 256, width - 1);
    }
  }

  /** A byte string is determined by its length and its value. */
  lemma {:induction false} LittleEndianInjective(a: ByteString, b: ByteString)
    requires |a| == |b| && LittleEndian(a) == LittleEndian(b)
    ensures a == b
  {
    if |a| > 0 {
      assert a[0] == LittleEndian(a) % 256 && b[0] == LittleEndian(b) % 256;
      LittleEndianInjective(a[1..], b[1..]);
      assert a == [a[0]] + a[1..] && b == [b[0]] + b[1..];
    }
  }

  lemma Pow256Seven()
    ensures Pow256(7) == 0x100_0000_0000_0000
    ensures Pow256(8) == 0x1_0000_0000_0000_0000
  {
  }
}
