/**
 The numbers of the script machine: sign-magnitude, little-endian, the sign in the top bit of the
 last byte. `Encode` is the minimal form of BIP 62 rule 4, which is what contract/settlement.go's
 bigNumBytes writes; `Decode` also reads forms that are not minimal, which OP_BIN2NUM has to.
 */
module ScriptNum {
  import opened Bytes

  function Decode(b: ByteString): (n: int) {
    if |b| == 0 then 0
    else
      var last := b[|b| - 1];
      var magnitude: int := LittleEndian(b[..|b| - 1] + [last % 128]);
      if last >= 128 then -magnitude else magnitude
  }

  /** The bytes of a magnitude, the sign in the top bit of the last: a byte of its own when that bit is taken. */
  function SignMagnitude(magnitude: nat, sign: Byte): (b: ByteString)
    requires sign == 0 || sign == 128
    ensures |b| > 0 && b[|b| - 1] / 128 == sign / 128
    ensures LittleEndian(b[..|b| - 1] + [b[|b| - 1] % 128]) == magnitude
  {
    if magnitude < 128 then
      var b: ByteString := [magnitude + sign];
      assert b[..0] + [b[0] % 128] == [magnitude] && [magnitude][1..] == [];
      b
    else
      var rest := SignMagnitude(magnitude / 256, sign);
      var b: ByteString := [magnitude % 256] + rest;
      assert (b[..|b| - 1] + [b[|b| - 1] % 128])[1..] == rest[..|rest| - 1] + [rest[|rest| - 1] % 128];
      b
  }

  function Encode(n: int): (b: ByteString)
    ensures Decode(b) == n
  {
    if n == 0 then [] else if n > 0 then SignMagnitude(n, 0) else SignMagnitude(-n, 128)
  }

  /** BIP 62 rule 4: no padding byte, and no negative zero. */
  predicate Minimal(b: ByteString) {
    |b| == 0 || b[|b| - 1] % 128 != 0 || (|b| > 1 && b[|b| - 2] >= 128)
  }

  /** A sign byte is added only where the magnitude has taken the bit. */
  lemma {:induction false} SignMagnitudeIsMinimal(magnitude: nat, sign: Byte)
    requires magnitude > 0 && (sign == 0 || sign == 128)
    ensures Minimal(SignMagnitude(magnitude, sign))
  {
    if magnitude >= 128 {
      var rest := SignMagnitude(magnitude / 256, sign);
      if magnitude >= 256 {
        SignMagnitudeIsMinimal(magnitude / 256, sign);
      } else {
        assert rest == [sign];
      }
    }
  }

  /** The low byte and the rest. */
  lemma LowByte(m: ByteString)
    requires |m| > 0
    ensures LittleEndian(m) % 256 == m[0] && LittleEndian(m) / 256 == LittleEndian(m[1..])
  {
  }

  lemma OneByteReadsBack(b: ByteString, sign: Byte)
    requires sign == 0 || sign == 128
    requires |b| == 1 && b[0] / 128 == sign / 128
    ensures LittleEndian([b[0] % 128]) == b[0] % 128 && SignMagnitude(b[0] % 128, sign) == b
  {
    assert [b[0] % 128][1..] == [];
    assert b == [b[0]];
  }

  lemma {:induction false} SignMagnitudeReadsBack(b: ByteString, sign: Byte)
    requires sign == 0 || sign == 128
    requires |b| > 0 && Minimal(b) && b[|b| - 1] / 128 == sign / 128
    ensures SignMagnitude(LittleEndian(b[..|b| - 1] + [b[|b| - 1] % 128]), sign) == b
  {
    var m := b[..|b| - 1] + [b[|b| - 1] % 128];
    if |b| == 1 {
      assert m == [b[0] % 128];
      OneByteReadsBack(b, sign);
    } else {
      var rest := b[1..];
      assert m[1..] == rest[..|rest| - 1] + [rest[|rest| - 1] % 128];
      LowByte(m);
      assert b == [b[0]] + rest;
      if Minimal(rest) {
        SignMagnitudeReadsBack(rest, sign);
        NonZero(m[1..]);
      } else {
        assert rest == [sign] && m[1..] == [0];
      }
    }
  }

  lemma {:induction false} NonZero(m: ByteString)
    requires |m| > 0 && (m[|m| - 1] != 0 || (|m| > 1 && m[|m| - 2] >= 128))
    ensures LittleEndian(m) > 0
  {
    if |m| > 1 && m[0] == 0 {
      NonZero(m[1..]);
    }
  }

  /** `Encode` writes the minimal forms and no others: a byte string survives a decode and re-encode exactly
      when it was minimal already. */
  lemma MinimalIsCanonical(b: ByteString)
    ensures Minimal(b) <==> Encode(Decode(b)) == b
  {
    var n := Decode(b);
    if |b| > 0 && Minimal(b) {
      SignMagnitudeReadsBack(b, if b[|b| - 1] >= 128 then 128 else 0);
      NonZero(b[..|b| - 1] + [b[|b| - 1] % 128]);
    }
    if n > 0 {
      SignMagnitudeIsMinimal(n, 0);
    } else if n < 0 {
      SignMagnitudeIsMinimal(-n, 128);
    }
  }

  /** Seven bytes and one more on top. */
  lemma FieldValue(init: ByteString, last: Byte)
    requires |init| == 7
    ensures var top: int := last;
            LittleEndian(init + [last]) == LittleEndian(init) + top * 0x100_0000_0000_0000
    ensures 0 <= LittleEndian(init) < 0x100_0000_0000_0000
  {
    LittleEndianAppend(init, last);
    LittleEndianBound(init);
    Pow256Seven();
  }

  lemma DecodeTop(init: ByteString, last: Byte)
    ensures last < 128 ==> Decode(init + [last]) == LittleEndian(init + [last])
    ensures last >= 128 ==> Decode(init + [last]) + LittleEndian(init + [last - 128]) == 0
  {
    var f := init + [last];
    assert f[..|f| - 1] == init;
    if last < 128 {
      assert last % 128 == last;
    } else {
      assert last % 128 == last - 128;
    }
  }

  /** What OP_BIN2NUM makes of an eight-byte field: it takes the top bit for a sign, so it agrees with the
      unsigned value exactly on the fields below 2^63. */
  lemma DecodeField(f: ByteString)
    requires |f| == 8
    ensures Decode(f) == if LittleEndian(f) < 0x8000_0000_0000_0000 then LittleEndian(f)
                         else 0x8000_0000_0000_0000 - LittleEndian(f)
    ensures Decode(f) == LittleEndian(f) <==> LittleEndian(f) < 0x8000_0000_0000_0000
  {
    var last, init := f[7], f[..7];
    assert f == init + [last];
    DecodeTop(init, last);
    FieldValue(init, last);
    if last >= 128 {
      FieldValue(init, last - 128);
    }
  }

  lemma {:induction false} SignMagnitudeLength(magnitude: nat, sign: Byte, k: nat)
    requires magnitude < Pow256(k) && (sign == 0 || sign == 128)
    ensures |SignMagnitude(magnitude, sign)| <= k + 1
  {
    if magnitude >= 128 {
      SignMagnitudeLength(magnitude / 256, sign, k - 1);
    }
  }

  /** A number below 256^k takes at most k bytes and the sign's. */
  lemma EncodeLength(n: int, k: nat)
    requires -Pow256(k) < n < Pow256(k)
    ensures |Encode(n)| <= k + 1
  {
    if n > 0 {
      SignMagnitudeLength(n, 0, k);
    } else if n < 0 {
      SignMagnitudeLength(-n, 128, k);
    }
  }

  /** No number is written as the single byte zero, which the script builder could not push. */
  lemma EncodeIsNotZeroByte(n: int)
    ensures Encode(n) != [0]
  {
  }
}
