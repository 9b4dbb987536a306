/**
 What the settlement covenant accepts, said without the machine, and the proof that running the compiled
 bytes says the same: the script and the Go formula pay one and the same split.
 */
module CovenantCorrect {
  import opened Prelude
  import opened Bytes
  import opened ScriptNum
  import opened Script
  import opened Vm
  import opened Terms
  import opened Covenant
  import opened CovenantRun

  /** A field of an oracle message as the covenant reads it: the top bit is a sign. */
  function MessageField(msg: ByteString, offset: nat): (v: Int64)
    requires HasField(msg, offset)
  {
    var f := msg[offset..offset + FIELD_SIZE];
    DecodeField(f);
    LittleEndianBound(f);
    Pow256Seven();
    Decode(f)
  }

  predicate Whole(prev: ByteString, settle: ByteString) {
    HasField(prev, SEQUENCE_OFFSET) && HasField(settle, PRICE_OFFSET)
  }

  /** The two messages are neighbours in the oracle's sequence, the first before maturity. */
  predicate Neighbours(t: Terms, prev: ByteString, settle: ByteString)
    requires Whole(prev, settle)
  {
    && MessageField(prev, TIMESTAMP_OFFSET) < t.maturity
    && MessageField(prev, SEQUENCE_OFFSET) > 0
    && MessageField(settle, SEQUENCE_OFFSET) == MessageField(prev, SEQUENCE_OFFSET) + 1
  }

  /** The messages entitle whoever holds them to settle. */
  predicate Entitles(t: Terms, prev: ByteString, settle: ByteString) {
    && Whole(prev, settle)
    && Neighbours(t, prev, settle)
    && MessageField(settle, TIMESTAMP_OFFSET) >= t.start
    && MessageField(settle, PRICE_OFFSET) > 0
    && Settleable(t, MessageField(settle, PRICE_OFFSET), MessageField(settle, TIMESTAMP_OFFSET))
  }

  predicate Signed(t: Terms, crypto: Crypto, msg: ByteString, sig: ByteString) {
    crypto.verifies(t.oracleKey, crypto.sha256(msg), sig)
  }

  /** The transaction spends exactly the contract and names both recipients where they belong. */
  predicate Shaped(t: Terms, crypto: Crypto, tx: Spend) {
    && |tx.inputValues| == 1 && tx.current == 0 && tx.inputValues[0] == t.payout
    && |tx.outputs| >= 2
    && Commitment(tx.outputs[0].pkScript, crypto) == Commitment(t.shortScript, crypto)
    && Commitment(tx.outputs[1].pkScript, crypto) == Commitment(t.longScript, crypto)
  }

  /** The first two outputs carry the split the Go formula gives. */
  predicate Pays(t: Terms, tx: Spend, price: Int64) {
    && |tx.outputs| >= 2
    && SettlementSplit(t, price).Ok?
    && (tx.outputs[0].value, tx.outputs[1].value) == SettlementSplit(t, price).value
  }

  /** Everything the covenant demands, for a witness of settleSig, settleMsg, prevSig, prevMsg. */
  predicate Settles(t: Terms, crypto: Crypto, items: seq<ByteString>, tx: Spend) {
    && |items| == 4
    && var (settleSig, settle, prevSig, prev) := (items[0], items[1], items[2], items[3]);
    && Shaped(t, crypto, tx)
    && Signed(t, crypto, prev, prevSig) && Signed(t, crypto, settle, settleSig)
    && Entitles(t, prev, settle)
    && Pays(t, tx, MessageField(settle, PRICE_OFFSET))
  }

  function RunContext(crypto: Crypto, tx: Spend): Context {
    Context(crypto, tx, SCRIPT_NUMBERS)
  }

  lemma EncodedDecodes(t: Terms, ctx: Context)
    requires ctx.numbers == SCRIPT_NUMBERS
    ensures Decodes(Encoded(t), t, ctx)
  {
    ScriptNumbersFaithful();
  }

  /** The rules checked before a price is worked out. */
  predicate EvidenceHolds(t: Terms, prev: ByteString, prevSig: ByteString, settle: ByteString, settleSig: ByteString,
                          ctx: Context) {
    && Shaped(t, ctx.crypto, ctx.tx)
    && OracleSigned(t, prev, prevSig, ctx) && OracleSigned(t, settle, settleSig, ctx)
    && HasField(prev, TIMESTAMP_OFFSET) && Field(prev, TIMESTAMP_OFFSET, ctx) < t.maturity
    && Adjacent(prev, settle, ctx)
    && Field(settle, TIMESTAMP_OFFSET, ctx) >= t.start
  }

  lemma EvidenceRun(t: Terms, prev: ByteString, prevSig: ByteString, settle: ByteString, settleSig: ByteString,
                    ctx: Context)
    requires ctx.numbers == SCRIPT_NUMBERS
    ensures var m := Run(Running(Cons(prev, Cons(prevSig, Cons(settle, Cons(settleSig, Empty)))), Empty),
                         EvidenceOps(t, ctx.crypto), ctx);
            if EvidenceHolds(t, prev, prevSig, settle, settleSig, ctx)
            then m == Running(Cons(ctx.numbers.encode(Field(settle, TIMESTAMP_OFFSET, ctx)),
                          Cons(settle, Empty)), Empty)
            else m.Fault? && Refusal(m.error)
  {
    var k := Encoded(t);
    EncodedDecodes(t, ctx);
    var supplied := Cons(prev, Cons(prevSig, Cons(settle, Cons(settleSig, Empty))));
    var m := Running(supplied, Empty);
    var (shortDigest, shortVersion) := Commitment(t.shortScript, ctx.crypto);
    var (longDigest, longVersion) := Commitment(t.longScript, ctx.crypto);
    var p := ShapeOps(k);
    ShapeRun(supplied, Empty, k, t, ctx);
    RecipientRun(supplied, Empty, 0, shortDigest, Encode(shortVersion), ctx);
    RecipientRun(supplied, Empty, 1, longDigest, Encode(longVersion), ctx);
    OracleRun(prev, prevSig, settle, settleSig, t, ctx);
    PredecessorRun(prev, Cons(settle, Empty), Empty, k, t, ctx);
    AdjacencyRun(prev, settle, Empty, Empty, ctx);
    StartRun(settle, Empty, Empty, k, t, ctx);
    var m1 := Then(m, p, RecipientOps(0, t.shortScript, ctx.crypto), ctx);
    p := p + RecipientOps(0, t.shortScript, ctx.crypto);
    var m2 := Then(m, p, RecipientOps(1, t.longScript, ctx.crypto), ctx);
    p := p + RecipientOps(1, t.longScript, ctx.crypto);
    var m3 := Then(m, p, OracleOps(t), ctx);
    p := p + OracleOps(t);
    var m4 := Then(m, p, PredecessorOps(k), ctx);
    p := p + PredecessorOps(k);
    var m5 := Then(m, p, AdjacencyOps(), ctx);
    p := p + AdjacencyOps();
    var m6 := Then(m, p, StartOps(k), ctx);
  }

  /** Two clamps, two divisions, one answer: the script caps before it floors and works without a width, the
      Go code floors before it caps and works in int64, and for valid terms they agree. */
  lemma ScriptArithmeticIsTheSplit(t: Terms, price: Int64)
    requires Valid(t) && price > 0
    ensures ScriptClamp(t, price) == Clamp(t, price) > 0
    ensures SettlementSplit(t, price)
            == Ok((ScriptShort(t, ScriptClamp(t, price)), t.payout - ScriptShort(t, ScriptClamp(t, price))))
  {
  }

  /** From an authenticated message to the verdict, whatever program `p` led there. */
  lemma PaymentRun(m: Machine, p: seq<Op>, ts: ByteString, settle: ByteString, k: Constants, t: Terms, ctx: Context)
    requires Complete(k) && Decodes(k, t, ctx) && Valid(t)
    requires Run(m, p, ctx) == Running(Cons(ts, Cons(settle, Empty)), Empty)
    ensures var end := Run(m, p + PriceOps(k) + BoundaryOps(k) + TriggerOps(k) + ShareOps(k) + PayoutOps(k), ctx);
            if HasField(settle, PRICE_OFFSET) && Field(settle, PRICE_OFFSET, ctx) > 0 then
              var clamped := ScriptClamp(t, Field(settle, PRICE_OFFSET, ctx));
              var short := ScriptShort(t, clamped);
              if (clamped == t.low || clamped == t.high || ctx.numbers.decode(ts) >= t.maturity)
                 && |ctx.tx.outputs| >= 2 && ctx.tx.outputs[1].value == t.payout - short
              then end == Running(Cons(ctx.numbers.encode(FromBool(ctx.tx.outputs[0].value == short)), Empty), Empty)
              else end.Fault? && Refusal(end.error)
            else end.Fault? && Refusal(end.error)
  {
    PriceRun(ts, settle, Empty, Empty, k, t, ctx);
    var m1 := Then(m, p, PriceOps(k), ctx);
    var m2 := Then(m, p + PriceOps(k), BoundaryOps(k), ctx);
    var m3 := Then(m, p + PriceOps(k) + BoundaryOps(k), TriggerOps(k), ctx);
    var m4 := Then(m, p + PriceOps(k) + BoundaryOps(k) + TriggerOps(k), ShareOps(k), ctx);
    var m5 := Then(m, p + PriceOps(k) + BoundaryOps(k) + TriggerOps(k) + ShareOps(k), PayoutOps(k), ctx);
    if m2.Running? {
      BoundaryRun(m2.stack.top, Cons(ts, Empty), Empty, k, t, ctx);
      TriggerRun(m3.stack.top, ts, m2.stack.top, Empty, Empty, k, t, ctx);
      if m4.Running? {
        ShareRun(m4.stack.top, Empty, Empty, k, t, ctx);
        PayoutRun(m5.stack.top, Empty, Empty, k, t, ctx);
      }
    }
  }

  /** The rules checked from there on, in the machine's own arithmetic. */
  predicate PaymentHolds(t: Terms, settle: ByteString, ctx: Context)
    requires Valid(t) && HasField(settle, TIMESTAMP_OFFSET)
  {
    && HasField(settle, PRICE_OFFSET) && Field(settle, PRICE_OFFSET, ctx) > 0
    && var clamped := ScriptClamp(t, Field(settle, PRICE_OFFSET, ctx));
    && (clamped == t.low || clamped == t.high || Field(settle, TIMESTAMP_OFFSET, ctx) >= t.maturity)
    && |ctx.tx.outputs| >= 2
    && ctx.tx.outputs[1].value == t.payout - ScriptShort(t, clamped)
    && ctx.tx.outputs[0].value == ScriptShort(t, clamped)
  }

  lemma ProgramRun(t: Terms, prev: ByteString, prevSig: ByteString, settle: ByteString, settleSig: ByteString,
                   ctx: Context)
    requires Valid(t) && ctx.numbers == SCRIPT_NUMBERS
    ensures var m := Run(Running(Cons(prev, Cons(prevSig, Cons(settle, Cons(settleSig, Empty)))), Empty),
                         Program(t, ctx.crypto), ctx);
            if EvidenceHolds(t, prev, prevSig, settle, settleSig, ctx) && PaymentHolds(t, settle, ctx)
            then m == Running(Cons(ctx.numbers.encode(1), Empty), Empty)
            else m == Running(Cons(ctx.numbers.encode(0), Empty), Empty) || (m.Fault? && Refusal(m.error))
  {
    var k := Encoded(t);
    var p := EvidenceOps(t, ctx.crypto);
    var m := Running(Cons(prev, Cons(prevSig, Cons(settle, Cons(settleSig, Empty)))), Empty);
    EncodedDecodes(t, ctx);
    EvidenceRun(t, prev, prevSig, settle, settleSig, ctx);
    if EvidenceHolds(t, prev, prevSig, settle, settleSig, ctx) {
      PaymentRun(m, p, ctx.numbers.encode(Field(settle, TIMESTAMP_OFFSET, ctx)), settle, k, t, ctx);
    } else {
      FaultedEvidence(m, p, k, ctx);
    }
  }

  lemma SettlesWhenAllHolds(t: Terms, crypto: Crypto, items: seq<ByteString>, tx: Spend)
    requires Valid(t) && |items| == 4
    ensures var ctx := RunContext(crypto, tx);
            Settles(t, crypto, items, tx) <==>
            EvidenceHolds(t, items[3], items[2], items[1], items[0], ctx) && PaymentHolds(t, items[1], ctx)
  {
  }

  /** Whatever four-item witness and transaction a spender brings, the program ends in one of three ways: one
      true item when the spend settles, one false item or a refused check when it does not. It never
      underflows a stack and never divides by zero. */
  lemma ProgramVerdict(t: Terms, crypto: Crypto, items: seq<ByteString>, tx: Spend)
    requires Valid(t) && |items| == 4
    ensures var m := Run(Running(WitnessStack(items), Empty), Program(t, crypto), RunContext(crypto, tx));
            if Settles(t, crypto, items, tx) then m == Running(Cons(Encode(1), Empty), Empty)
            else m == Running(Cons(Encode(0), Empty), Empty) || (m.Fault? && Refusal(m.error))
  {
    WitnessOfFour(items);
    ProgramRun(t, items[3], items[2], items[1], items[0], RunContext(crypto, tx));
    SettlesWhenAllHolds(t, crypto, items, tx);
  }

  lemma FaultedEvidence(m: Machine, p: seq<Op>, k: Constants, ctx: Context)
    requires Complete(k) && Run(m, p, ctx).Fault?
    ensures Run(m, p + PriceOps(k) + BoundaryOps(k) + TriggerOps(k) + ShareOps(k) + PayoutOps(k), ctx) == Run(m, p, ctx)
  {
    var m1 := Then(m, p, PriceOps(k), ctx);
    var m2 := Then(m, p + PriceOps(k), BoundaryOps(k), ctx);
    var m3 := Then(m, p + PriceOps(k) + BoundaryOps(k), TriggerOps(k), ctx);
    var m4 := Then(m, p + PriceOps(k) + BoundaryOps(k) + TriggerOps(k), ShareOps(k), ctx);
    var m5 := Then(m, p + PriceOps(k) + BoundaryOps(k) + TriggerOps(k) + ShareOps(k), PayoutOps(k), ctx);
  }

  lemma WitnessOfFour(items: seq<ByteString>)
    requires |items| == 4
    ensures WitnessStack(items) == Cons(items[3], Cons(items[2], Cons(items[1], Cons(items[0], Empty))))
  {
    assert items[..3][..2] == items[..2] && items[..2][..1] == items[..1];
    assert WitnessStack(items[..1]) == Cons(items[0], Empty);
    assert WitnessStack(items[..2]) == Cons(items[1], WitnessStack(items[..1]));
    assert WitnessStack(items[..3]) == Cons(items[2], WitnessStack(items[..2]));
  }

  /** The covenant is correct: the bytes the compiler emits accept a spend exactly when the declarative rule
      holds, for every valid contract, every four-item witness and every transaction. */
  lemma CompiledCovenantIsCorrect(t: Terms, crypto: Crypto, items: seq<ByteString>, tx: Spend)
    requires Valid(t) && |items| == 4
    ensures Accepts(Compile(t, crypto).value, items, crypto, tx) <==> Settles(t, crypto, items, tx)
  {
    ProgramWellFormed(t, crypto);
    ParseSerialise(Program(t, crypto));
    ProgramVerdict(t, crypto, items, tx);
  }

  /** Nothing is left over for a third output: what an accepted spend pays its first two outputs is all that
      its one input held, and neither of them is dust. */
  lemma AcceptedSpendConserves(t: Terms, crypto: Crypto, items: seq<ByteString>, tx: Spend)
    requires Valid(t) && |items| == 4
    requires Accepts(Compile(t, crypto).value, items, crypto, tx)
    ensures |tx.inputValues| == 1 && |tx.outputs| >= 2
    ensures tx.outputs[0].value + tx.outputs[1].value == tx.inputValues[0]
    ensures tx.outputs[0].value >= DUST && tx.outputs[1].value >= DUST
  {
    CompiledCovenantIsCorrect(t, crypto, items, tx);
  }
}
