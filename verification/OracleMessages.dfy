/** The 24 bytes the oracle signs (contract/oracle.go), and the two ways they are read back: as unsigned
    little-endian fields by Go, as signed script numbers by the covenant. */
module OracleMessages {
  import opened Prelude
  import opened Bytes
  import opened ScriptNum
  import opened Vm
  import opened Terms
  import opened Covenant
  import opened CovenantRun
  import opened CovenantCorrect

  const MESSAGE_LENGTH: nat := 24
  const MAX_PRICE: int := 0x4000_0000_0000_0000

  function Message(timestamp: Uint64, sequence: Uint64, price: Uint64): ByteString {
    FixedWidth(timestamp, 8) + FixedWidth(sequence, 8) + FixedWidth(price, 8)
  }

  /** binary.LittleEndian.PutUint64 into a slice of the buffer. */
  method PutUint64(buffer: array<Byte>, offset: nat, value: Uint64)
    requires offset + 8 <= buffer.Length
    modifies buffer
    ensures buffer[..] == old(buffer[..offset]) + FixedWidth(value, 8) + old(buffer[offset + 8..])
  {
    var rest: nat := value;
    for i := 0 to 8
      invariant buffer[..offset] == old(buffer[..offset])
      invariant buffer[offset + 8..] == old(buffer[offset + 8..])
      invariant FixedWidth(value, 8) == buffer[offset..offset + i] + FixedWidth(rest, 8 - i)
    {
      buffer[offset + i] := rest % 256;
      assert buffer[offset..offset + i + 1] == buffer[offset..offset + i] + [rest % 256];
      rest := rest / 256;
    }
    assert buffer[offset..offset + 8] == FixedWidth(value, 8);
    assert buffer[..] == buffer[..offset] + buffer[offset..offset + 8] + buffer[offset + 8..];
  }

  method OracleMessage(timestamp: Uint64, sequence: Uint64, price: Uint64) returns (msg: array<Byte>)
    ensures fresh(msg) && msg[..] == Message(timestamp, sequence, price)
  {
    msg := new Byte[MESSAGE_LENGTH];
    ghost var blank := msg[..];
    PutUint64(msg, TIMESTAMP_OFFSET, timestamp);
    PutUint64(msg, SEQUENCE_OFFSET, sequence);
    PutUint64(msg, PRICE_OFFSET, price);
    ThreeFields(blank, FixedWidth(timestamp, 8), FixedWidth(sequence, 8), FixedWidth(price, 8));
  }

  /** Three writes side by side fill the buffer. */
  lemma ThreeFields(blank: ByteString, a: ByteString, b: ByteString, c: ByteString)
    requires |blank| == MESSAGE_LENGTH && |a| == |b| == |c| == FIELD_SIZE
    ensures var one := blank[..0] + a + blank[8..];
            var two := one[..8] + b + one[16..];
            two[..16] + c + two[24..] == a + b + c
  {
  }

  /** binary.LittleEndian.Uint64 of one field. */
  function GoField(msg: ByteString, offset: nat): nat
    requires HasField(msg, offset)
  {
    LittleEndian(msg[offset..offset + FIELD_SIZE])
  }

  lemma MessageLayout(timestamp: Uint64, sequence: Uint64, price: Uint64)
    ensures var msg := Message(timestamp, sequence, price);
            && |msg| == MESSAGE_LENGTH
            && GoField(msg, TIMESTAMP_OFFSET) == timestamp
            && GoField(msg, SEQUENCE_OFFSET) == sequence
            && GoField(msg, PRICE_OFFSET) == price
  {
    Pow256Seven();
    FixedWidthValue(timestamp, 8);
    FixedWidthValue(sequence, 8);
    FixedWidthValue(price, 8);
    var msg := Message(timestamp, sequence, price);
    assert msg[0..8] == FixedWidth(timestamp, 8) && msg[8..16] == FixedWidth(sequence, 8);
    assert msg[16..24] == FixedWidth(price, 8);
  }

  /** No field is left out of what is signed: a message has one timestamp, one sequence and one price. */
  lemma MessageInjective(ts1: Uint64, seq1: Uint64, price1: Uint64, ts2: Uint64, seq2: Uint64, price2: Uint64)
    ensures Message(ts1, seq1, price1) == Message(ts2, seq2, price2) <==> ts1 == ts2 && seq1 == seq2 && price1 == price2
  {
    MessageLayout(ts1, seq1, price1);
    MessageLayout(ts2, seq2, price2);
  }

  /** The script and Go read the same number out of a field exactly when it is below 2^63. */
  lemma ReadersAgree(msg: ByteString, offset: nat)
    requires HasField(msg, offset)
    ensures MessageField(msg, offset) == GoField(msg, offset) <==> GoField(msg, offset) < 0x8000_0000_0000_0000
    ensures MessageField(msg, offset) > 0 ==> MessageField(msg, offset) == GoField(msg, offset)
  {
    DecodeField(msg[offset..offset + FIELD_SIZE]);
  }

  /** Below 2^63 the covenant reads back exactly what the oracle published. */
  lemma CovenantReadsTheMessage(timestamp: Uint64, sequence: Uint64, price: Uint64)
    requires IsInt64(timestamp) && IsInt64(sequence) && IsInt64(price)
    ensures var msg := Message(timestamp, sequence, price);
            && |msg| == MESSAGE_LENGTH
            && MessageField(msg, TIMESTAMP_OFFSET) == timestamp
            && MessageField(msg, SEQUENCE_OFFSET) == sequence
            && MessageField(msg, PRICE_OFFSET) == price
  {
    var msg := Message(timestamp, sequence, price);
    MessageLayout(timestamp, sequence, price);
    ReadersAgree(msg, TIMESTAMP_OFFSET);
    ReadersAgree(msg, SEQUENCE_OFFSET);
    ReadersAgree(msg, PRICE_OFFSET);
  }

  datatype PriceError = WrongLength | NotSigned | PriceOutOfRange

  /** Contract.PriceFrom: the price the contract's oracle signed, or why there is none. */
  function PriceFrom(t: Terms, crypto: Crypto, msg: ByteString, sig: ByteString): Result<Int64, PriceError> {
    if |msg| != MESSAGE_LENGTH then Err(WrongLength)
    else if !Signed(t, crypto, msg, sig) then Err(NotSigned)
    else
      var price := GoField(msg, PRICE_OFFSET);
      if price == 0 || price > MAX_PRICE then Err(PriceOutOfRange) else Ok(price)
  }

  /** What Go takes for a price, and which of its three objections it raises otherwise. */
  lemma PriceReadsExactly(t: Terms, crypto: Crypto, msg: ByteString, sig: ByteString)
    ensures var price := PriceFrom(t, crypto, msg, sig);
            && (price == Err(WrongLength) <==> |msg| != 24)
            && (price == Err(NotSigned) <==> |msg| == 24 && !crypto.verifies(t.oracleKey, crypto.sha256(msg), sig))
            && (price.Ok? <==> && |msg| == 24 && crypto.verifies(t.oracleKey, crypto.sha256(msg), sig)
                               && 0 < GoField(msg, PRICE_OFFSET) <= 0x4000_0000_0000_0000)
            && (price.Ok? ==> price.value == GoField(msg, PRICE_OFFSET))
  {
  }

  /** The service and the covenant read one price out of one message, and the service takes every price the
      covenant would except those above 2^62. */
  lemma PriceFromIsTheCovenantsPrice(t: Terms, crypto: Crypto, msg: ByteString, sig: ByteString)
    requires |msg| == MESSAGE_LENGTH
    ensures PriceFrom(t, crypto, msg, sig).Ok?
            <==> Signed(t, crypto, msg, sig) && 0 < MessageField(msg, PRICE_OFFSET) <= MAX_PRICE
    ensures PriceFrom(t, crypto, msg, sig).Ok? ==>
              PriceFrom(t, crypto, msg, sig).value == MessageField(msg, PRICE_OFFSET)
  {
    ReadersAgree(msg, PRICE_OFFSET);
  }

  /** Two implementations, one payout: a spend the covenant accepts pays what the service computes from the
      same signed bytes, whenever the service reads a price out of them at all. */
  lemma ServiceAndCovenantPayTheSame(t: Terms, crypto: Crypto, items: seq<ByteString>, tx: Spend)
    requires Valid(t) && |items| == 4 && |items[1]| == MESSAGE_LENGTH
    requires Accepts(Compile(t, crypto).value, items, crypto, tx)
    ensures |tx.outputs| >= 2 && Signed(t, crypto, items[1], items[0])
    ensures MessageField(items[1], PRICE_OFFSET) <= MAX_PRICE <==> PriceFrom(t, crypto, items[1], items[0]).Ok?
    ensures PriceFrom(t, crypto, items[1], items[0]).Ok?
            ==> SettlementSplit(t, PriceFrom(t, crypto, items[1], items[0]).value)
                == Ok((tx.outputs[0].value, tx.outputs[1].value))
  {
    CompiledCovenantIsCorrect(t, crypto, items, tx);
    PriceFromIsTheCovenantsPrice(t, crypto, items[1], items[0]);
  }
}
