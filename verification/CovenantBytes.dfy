/** The script the repository pins, byte for byte: what its standard contract compiles to, one operation at a time. */
module CovenantBytes {
  import opened Prelude
  import opened Bytes
  import opened ScriptNum
  import opened Script
  import opened Vm
  import opened Terms
  import opened Covenant

  // --- One operation at a time -----------------------------------------------

  function Chunk(op: Op): ByteString {
    if WellFormed(op) then OpBytes(op) else []
  }

  function Chunks(ops: seq<Op>): seq<ByteString> {
    seq(|ops|, i requires 0 <= i < |ops| => Chunk(ops[i]))
  }

  function Flat(chunks: seq<ByteString>): ByteString {
    if |chunks| == 0 then [] else Flat(chunks[..|chunks| - 1]) + chunks[|chunks| - 1]
  }

  lemma {:induction false} SerialiseIsFlat(ops: seq<Op>)
    requires AllWellFormed(ops)
    ensures Serialise(ops) == Flat(Chunks(ops))
  {
    if |ops| > 0 {
      SerialiseIsFlat(ops[..|ops| - 1]);
      assert Chunks(ops)[..|ops| - 1] == Chunks(ops[..|ops| - 1]);
    }
  }

  lemma ChunksJoin(a: seq<Op>, b: seq<Op>)
    ensures Chunks(a + b) == Chunks(a) + Chunks(b)
  {
  }

  lemma ChunksJoinSix(a: seq<Op>, b: seq<Op>, c: seq<Op>, d: seq<Op>, e: seq<Op>, f: seq<Op>)
    ensures Chunks(a + b + c + d + e + f)
            == Chunks(a) + Chunks(b) + Chunks(c) + Chunks(d) + Chunks(e) + Chunks(f)
  {
    ChunksJoin(a, b);
    ChunksJoin(a + b, c);
    ChunksJoin(a + b + c, d);
    ChunksJoin(a + b + c + d, e);
    ChunksJoin(a + b + c + d + e, f);
  }

  // --- The pinned contract ---------------------------------------------------

  const ORACLE_KEY: ByteString := [
    0x4f, 0x35, 0x5b, 0xdc, 0xb7, 0xcc, 0x0a, 0xf7, 0x28, 0xef, 0x3c, 0xce, 0xb9, 0x61, 0x5d, 0x90,
    0x68, 0x4b, 0xb5, 0xb2, 0xca, 0x5f, 0x85, 0x9a, 0xb0, 0xf0, 0xb7, 0x04, 0x07, 0x58, 0x71, 0xaa]

  /** `n` copies of one byte. */
  function Repeated(b: Byte, n: nat): (r: ByteString)
    ensures |r| == n && forall i | 0 <= i < n :: r[i] == b
  {
    if n == 0 then [] else Repeated(b, n - 1) + [b]
  }

  /** A 10,000 dollar hedge against 0.2 bitcoin between 50,000 and 200,000 dollars, for a day. */
  const STANDARD: Terms := Terms(
    100_000_000_000_000, 0, 20_000_000, 5_000_000, 20_000_000,
    [0x51, 0x20] + Repeated(0xaa, 32), [0x51, 0x20] + Repeated(0xbb, 32), ORACLE_KEY,
    1_800_000_000, 1_800_086_400)

  const PINNED_SHAPE: seq<ByteString> :=
    [[0xd4], [0x51], [0x9d], [0xcd], [0xc9], [0x04, 0x00, 0x2d, 0x31, 0x01], [0x9d]]
  const PINNED_SIGNED: seq<ByteString> := [[0x76], [0x6b], [0xa8], [0x20] + ORACLE_KEY, [0xcc], [0x69]]
  const PINNED_PREDECESSOR: seq<ByteString> :=
    [[0x76], [0x00], [0x58], [0x7f], [0xd8], [0x04, 0x80, 0x23, 0x4b, 0x6b], [0x9f], [0x69]]
  const PINNED_ADJACENCY: seq<ByteString> :=
    [[0x58], [0x58], [0x7f], [0xd8], [0x76], [0x00], [0xa0], [0x69], [0x51], [0x93], [0x78],
     [0x58], [0x58], [0x7f], [0xd8], [0x9d]]
  const PINNED_START: seq<ByteString> :=
    [[0x76], [0x00], [0x58], [0x7f], [0xd8], [0x76], [0x04, 0x00, 0xd2, 0x49, 0x6b], [0xa2], [0x69]]
  const PINNED_PRICE: seq<ByteString> :=
    [[0x7c], [0x60], [0x58], [0x7f], [0xd8], [0x76], [0x00], [0xa0], [0x69],
     [0x04, 0x00, 0x2d, 0x31, 0x01], [0xa3], [0x03, 0x40, 0x4b, 0x4c], [0xa4]]
  const PINNED_BOUNDARY: seq<ByteString> :=
    [[0x76], [0x6b], [0x76], [0x03, 0x40, 0x4b, 0x4c], [0x9c], [0x7c], [0x04, 0x00, 0x2d, 0x31, 0x01], [0x9c], [0x9b]]
  const PINNED_TRIGGER: seq<ByteString> := [[0x7c], [0x04, 0x80, 0x23, 0x4b, 0x6b], [0xa2], [0x9b], [0x69], [0x6c]]
  const PINNED_SHARE: seq<ByteString> :=
    [[0x06, 0x00, 0x40, 0x7a, 0x10, 0xf3, 0x5a], [0x7c], [0x96], [0x00], [0x94],
     [0x02, 0x34, 0x05], [0xa4], [0x04, 0xcc, 0x27, 0x31, 0x01], [0xa3]]
  const PINNED_PAYOUT: seq<ByteString> :=
    [[0x76], [0x04, 0x00, 0x2d, 0x31, 0x01], [0x7c], [0x94], [0x51], [0xcf], [0x9d], [0x00], [0xcf], [0x9c]]

  function PinnedRecipient(output: Byte, program: ByteString): seq<ByteString> {
    [[output], [0xd1], [0x51], [0x9d], [0x20] + program, [0x88]]
  }

  function PinnedEvidence(): seq<ByteString> {
    PINNED_SHAPE + PinnedRecipient(0x00, Repeated(0xaa, 32)) + PinnedRecipient(0x51, Repeated(0xbb, 32))
    + (PINNED_SIGNED + PINNED_SIGNED + [[0x6c], [0x6c]]) + PINNED_PREDECESSOR + PINNED_ADJACENCY + PINNED_START
  }

  /** The script the tests pin, segment by segment. */
  function PinnedScript(): ByteString {
    Flat(PinnedEvidence() + PINNED_PRICE + PINNED_BOUNDARY + PINNED_TRIGGER + PINNED_SHARE + PINNED_PAYOUT)
  }

  /** The constants of that contract, as the machine's numbers. */
  predicate Standard(k: Constants) {
    && Complete(k)
    && k[Nominal] == [0x00, 0x40, 0x7a, 0x10, 0xf3, 0x5a] && k[Leverage] == []
    && k[Payout] == [0x00, 0x2d, 0x31, 0x01] && k[High] == [0x00, 0x2d, 0x31, 0x01] && k[Low] == [0x40, 0x4b, 0x4c]
    && k[Dust] == [0x34, 0x05] && k[ShortCap] == [0xcc, 0x27, 0x31, 0x01]
    && k[Start] == [0x00, 0xd2, 0x49, 0x6b] && k[Maturity] == [0x80, 0x23, 0x4b, 0x6b]
  }

  /** One more byte in front. */
  lemma EncodesLonger(n: nat, low: Byte, rest: ByteString)
    requires n > 0 && Encode(n) == rest
    ensures Encode(256 * n + low) == [low] + rest
  {
  }

  lemma EncodesOne(n: nat)
    requires 0 < n < 128
    ensures Encode(n) == [n]
  {
  }

  lemma StandardTimes()
    ensures Encode(1_800_000_000) == [0x00, 0xd2, 0x49, 0x6b] && Encode(1_800_086_400) == [0x80, 0x23, 0x4b, 0x6b]
  {
    EncodesOne(0x6b);
    EncodesLonger(0x6b, 0x49, [0x6b]);
    EncodesLonger(0x6b49, 0xd2, [0x49, 0x6b]);
    EncodesLonger(0x6b49d2, 0x00, [0xd2, 0x49, 0x6b]);
    EncodesLonger(0x6b, 0x4b, [0x6b]);
    EncodesLonger(0x6b4b, 0x23, [0x4b, 0x6b]);
    EncodesLonger(0x6b4b23, 0x80, [0x23, 0x4b, 0x6b]);
  }

  lemma StandardAmounts()
    ensures Encode(20_000_000) == [0x00, 0x2d, 0x31, 0x01] && Encode(19_998_668) == [0xcc, 0x27, 0x31, 0x01]
    ensures Encode(1332) == [0x34, 0x05] && Encode(5_000_000) == [0x40, 0x4b, 0x4c]
  {
    EncodesOne(0x01);
    EncodesLonger(0x01, 0x31, [0x01]);
    EncodesLonger(0x0131, 0x2d, [0x31, 0x01]);
    EncodesLonger(0x01312d, 0x00, [0x2d, 0x31, 0x01]);
    EncodesLonger(0x0131, 0x27, [0x31, 0x01]);
    EncodesLonger(0x013127, 0xcc, [0x27, 0x31, 0x01]);
    EncodesOne(0x05);
    EncodesLonger(0x05, 0x34, [0x05]);
    EncodesOne(0x4c);
    EncodesLonger(0x4c, 0x4b, [0x4c]);
    EncodesLonger(0x4c4b, 0x40, [0x4b, 0x4c]);
  }

  lemma StandardNominal()
    ensures Encode(100_000_000_000_000) == [0x00, 0x40, 0x7a, 0x10, 0xf3, 0x5a]
  {
    EncodesOne(0x5a);
    EncodesLonger(0x5a, 0xf3, [0x5a]);
    EncodesLonger(0x5af3, 0x10, [0xf3, 0x5a]);
    EncodesLonger(0x5af310, 0x7a, [0x10, 0xf3, 0x5a]);
    EncodesLonger(0x5af3107a, 0x40, [0x7a, 0x10, 0xf3, 0x5a]);
    EncodesLonger(0x5af3107a40, 0x00, [0x40, 0x7a, 0x10, 0xf3, 0x5a]);
  }

  lemma StandardConstants(t: Terms)
    requires t.nominal == 100_000_000_000_000 && t.leverage == 0 && t.payout == 20_000_000
    requires t.low == 5_000_000 && t.high == 20_000_000 && t.start == 1_800_000_000 && t.maturity == 1_800_086_400
    ensures Standard(Encoded(t))
  {
    StandardTimes();
    StandardAmounts();
    StandardNominal();
    assert Encode(0) == [];
  }

  // --- Segment by segment ----------------------------------------------------

  lemma PushPinned(data: ByteString, chunk: ByteString)
    requires 2 <= |data| <= 75 && |chunk| == |data| + 1 && chunk[0] == |data| && chunk[1..] == data
    ensures Chunk(Push(data)) == chunk
  {
  }

  lemma AmountsPinned(k: Constants)
    requires Standard(k)
    ensures Chunk(Push(k[Payout])) == Chunk(Push(k[High])) == [0x04, 0x00, 0x2d, 0x31, 0x01]
    ensures Chunk(Push(k[Low])) == [0x03, 0x40, 0x4b, 0x4c] && Chunk(Push(k[Dust])) == [0x02, 0x34, 0x05]
    ensures Chunk(Push(k[ShortCap])) == [0x04, 0xcc, 0x27, 0x31, 0x01] && Chunk(Push(k[Leverage])) == [0x00]
  {
    PushPinned(k[Payout], [0x04, 0x00, 0x2d, 0x31, 0x01]);
    PushPinned(k[Low], [0x03, 0x40, 0x4b, 0x4c]);
    PushPinned(k[Dust], [0x02, 0x34, 0x05]);
    PushPinned(k[ShortCap], [0x04, 0xcc, 0x27, 0x31, 0x01]);
  }

  lemma NumbersPinned(k: Constants)
    requires Standard(k)
    ensures Chunk(Push(k[Nominal])) == [0x06, 0x00, 0x40, 0x7a, 0x10, 0xf3, 0x5a]
    ensures Chunk(Push(k[Start])) == [0x04, 0x00, 0xd2, 0x49, 0x6b]
    ensures Chunk(Push(k[Maturity])) == [0x04, 0x80, 0x23, 0x4b, 0x6b]
  {
    PushPinned(k[Nominal], [0x06, 0x00, 0x40, 0x7a, 0x10, 0xf3, 0x5a]);
    PushPinned(k[Start], [0x04, 0x00, 0xd2, 0x49, 0x6b]);
    PushPinned(k[Maturity], [0x04, 0x80, 0x23, 0x4b, 0x6b]);
  }

  lemma ShapePinned(k: Constants)
    requires Standard(k)
    ensures Chunks(ShapeOps(k)) == PINNED_SHAPE
  {
    AmountsPinned(k);
  }

  lemma RecipientPinned(index: nat, program: ByteString, crypto: Crypto)
    requires index <= 1 && |program| == 32
    ensures Chunks(RecipientOps(index, [0x51, 0x20] + program, crypto))
            == PinnedRecipient(if index == 0 then 0x00 else 0x51, program)
  {
    EncodesOne(1);
    assert ([0x51, 0x20] + program)[2..] == program;
  }

  lemma OraclePinned(t: Terms)
    requires t.oracleKey == ORACLE_KEY
    ensures Chunks(OracleOps(t)) == PINNED_SIGNED + PINNED_SIGNED + [[0x6c], [0x6c]]
  {
    assert Chunks(SignedOps(t)) == PINNED_SIGNED;
    ChunksJoin(SignedOps(t), SignedOps(t));
    ChunksJoin(SignedOps(t) + SignedOps(t), [Do(FROMALTSTACK), Do(FROMALTSTACK)]);
  }

  lemma AdjacencyPinned()
    ensures Chunks(AdjacencyOps()) == PINNED_ADJACENCY
  {
  }

  lemma TimesPinned(k: Constants)
    requires Standard(k)
    ensures Chunks(PredecessorOps(k)) == PINNED_PREDECESSOR && Chunks(StartOps(k)) == PINNED_START
  {
    NumbersPinned(k);
  }

  lemma PricePinned(k: Constants)
    requires Standard(k)
    ensures Chunks(PriceOps(k)) == PINNED_PRICE
  {
    AmountsPinned(k);
  }

  lemma TriggerPinned(k: Constants)
    requires Standard(k)
    ensures Chunks(BoundaryOps(k)) == PINNED_BOUNDARY && Chunks(TriggerOps(k)) == PINNED_TRIGGER
  {
    AmountsPinned(k);
    NumbersPinned(k);
  }

  lemma SharePinned(k: Constants)
    requires Standard(k)
    ensures Chunks(ShareOps(k)) == PINNED_SHARE
  {
    AmountsPinned(k);
    NumbersPinned(k);
  }

  lemma PayoutPinned(k: Constants)
    requires Standard(k)
    ensures Chunks(PayoutOps(k)) == PINNED_PAYOUT
  {
    AmountsPinned(k);
  }

  lemma EvidencePinned(crypto: Crypto)
    requires Standard(Encoded(STANDARD))
    ensures Chunks(EvidenceOps(STANDARD, crypto)) == PinnedEvidence()
  {
    var k := Encoded(STANDARD);
    var short, long := RecipientOps(0, STANDARD.shortScript, crypto), RecipientOps(1, STANDARD.longScript, crypto);
    ShapePinned(k);
    RecipientPinned(0, Repeated(0xaa, 32), crypto);
    RecipientPinned(1, Repeated(0xbb, 32), crypto);
    OraclePinned(STANDARD);
    TimesPinned(k);
    AdjacencyPinned();
    ChunksJoinSix(ShapeOps(k), short, long, OracleOps(STANDARD), PredecessorOps(k), AdjacencyOps());
    ChunksJoin(ShapeOps(k) + short + long + OracleOps(STANDARD) + PredecessorOps(k) + AdjacencyOps(), StartOps(k));
  }

  lemma ProgramPinned(evidence: seq<Op>, k: Constants)
    requires Standard(k) && Chunks(evidence) == PinnedEvidence()
    ensures Flat(Chunks(evidence + PriceOps(k) + BoundaryOps(k) + TriggerOps(k) + ShareOps(k) + PayoutOps(k)))
            == PinnedScript()
  {
    PricePinned(k);
    TriggerPinned(k);
    SharePinned(k);
    PayoutPinned(k);
    ChunksJoinSix(evidence, PriceOps(k), BoundaryOps(k), TriggerOps(k), ShareOps(k), PayoutOps(k));
  }

  /** The bytes a client compares against. */
  lemma StandardScriptIsThePinnedOne(crypto: Crypto)
    ensures Compile(STANDARD, crypto) == Ok(PinnedScript())
  {
    StandardConstants(STANDARD);
    EvidencePinned(crypto);
    ProgramPinned(EvidenceOps(STANDARD, crypto), Encoded(STANDARD));
    ProgramWellFormed(STANDARD, crypto);
    SerialiseIsFlat(Program(STANDARD, crypto));
  }
}
