/** What each segment of the covenant's program does to the machine, for every stack it can meet. */
module CovenantRun {
  import opened Prelude
  import opened Bytes
  import opened Script
  import opened Vm
  import opened Terms
  import opened Covenant

  lemma RunOne(m: Machine, a: Op, ctx: Context)
    ensures Run(m, [a], ctx) == Step(m, a, ctx)
  {
  }

  lemma RunTwo(m: Machine, a: Op, b: Op, ctx: Context)
    ensures Run(m, [a, b], ctx) == Step(Step(m, a, ctx), b, ctx)
  {
    RunOne(m, a, ctx);
    assert [a, b][..1] == [a];
  }

  lemma RunThree(m: Machine, a: Op, b: Op, c: Op, ctx: Context)
    ensures Run(m, [a, b, c], ctx) == Step(Step(Step(m, a, ctx), b, ctx), c, ctx)
  {
    RunTwo(m, a, b, ctx);
    assert [a, b, c][..2] == [a, b];
  }

  lemma RunFour(m: Machine, a: Op, b: Op, c: Op, d: Op, ctx: Context)
    ensures Run(m, [a, b, c, d], ctx) == Step(Step(Step(Step(m, a, ctx), b, ctx), c, ctx), d, ctx)
  {
    RunThree(m, a, b, c, ctx);
    assert [a, b, c, d][..3] == [a, b, c];
  }

  lemma RunFive(m: Machine, a: Op, b: Op, c: Op, d: Op, e: Op, ctx: Context)
    ensures Run(m, [a, b, c, d, e], ctx) == Step(Step(Step(Step(Step(m, a, ctx), b, ctx), c, ctx), d, ctx), e, ctx)
  {
    RunFour(m, a, b, c, d, ctx);
    assert [a, b, c, d, e][..4] == [a, b, c, d];
  }

  /** A program split in two: the second half picks up where the first left off, unless it faulted. */
  lemma Then(m: Machine, p: seq<Op>, q: seq<Op>, ctx: Context) returns (mid: Machine)
    ensures mid == Run(m, p, ctx)
    ensures Run(m, p + q, ctx) == Run(mid, q, ctx)
    ensures mid.Fault? ==> Run(m, p + q, ctx) == mid
  {
    mid := Run(m, p, ctx);
    RunAppend(m, p, q, ctx);
    if mid.Fault? {
      RunFault(mid, q, ctx);
    }
  }

  /** Failures a spender can cause. The rest, an empty stack or a division by zero, would be the compiler's. */
  predicate Refusal(e: Error) {
    e == VerifyFailed || e == OutOfRange || e == NoSuchItem
  }

  /** A segment that checks: it goes on to `next` exactly when what it checks holds. */
  predicate Checks(m: Machine, holds: bool, next: Machine) {
    if holds then m == next else m.Fault? && Refusal(m.error)
  }

  /** The constants in the program stand for the contract's terms. */
  ghost predicate Decodes(k: Constants, t: Terms, ctx: Context)
    requires Complete(k)
  {
    Faithful(ctx.numbers) && forall c :: c in ALL_CONSTANTS ==> ctx.numbers.decode(k[c]) == ValueOf(c, t)
  }

  predicate HasField(msg: ByteString, offset: nat) {
    offset + FIELD_SIZE <= |msg|
  }

  /** A field of an oracle message as the script reads it. */
  function Field(msg: ByteString, offset: nat, ctx: Context): int
    requires HasField(msg, offset)
  {
    ctx.numbers.decode(msg[offset..offset + FIELD_SIZE])
  }

  lemma FieldRun(msg: ByteString, s: Stack, alt: Stack, offset: nat, ctx: Context)
    requires offset <= 16 && Faithful(ctx.numbers)
    ensures var m := Run(Running(Cons(msg, s), alt), FieldExtract(offset), ctx);
            if HasField(msg, offset)
            then m == Running(Cons(ctx.numbers.encode(Field(msg, offset, ctx)), s), alt)
            else m == Fault(OutOfRange)
  {
    RunFour(Running(Cons(msg, s), alt), Int(offset), Int(FIELD_SIZE), Do(SUBSTR), Do(BIN2NUM), ctx);
  }

  lemma ShapeRun(s: Stack, alt: Stack, k: Constants, t: Terms, ctx: Context)
    requires Complete(k) && Decodes(k, t, ctx)
    ensures Checks(Run(Running(s, alt), ShapeOps(k), ctx),
                   |ctx.tx.inputValues| == 1 && ctx.tx.current == 0 && ctx.tx.inputValues[0] == t.payout,
                   Running(s, alt))
  {
    var m := Running(s, alt);
    var count := [Do(INSPECTNUMINPUTS), Int(1), Do(NUMEQUALVERIFY)];
    var value := [Do(PUSHCURRENTINPUTINDEX), Do(INSPECTINPUTVALUE), Push(k[Payout]), Do(NUMEQUALVERIFY)];
    RunThree(m, count[0], count[1], count[2], ctx);
    RunFour(Run(m, count, ctx), value[0], value[1], value[2], value[3], ctx);
    RunAppend(m, count, value, ctx);
  }

  /** The output pays the script the contract committed to, whatever that script is. */
  lemma RecipientRun(s: Stack, alt: Stack, index: nat, digest: ByteString, version: ByteString, ctx: Context)
    requires index <= 16 && Faithful(ctx.numbers)
    ensures Checks(Run(Running(s, alt), LockScriptCheck(index, digest, version), ctx),
                   index < |ctx.tx.outputs|
                   && Commitment(ctx.tx.outputs[index].pkScript, ctx.crypto) == (digest, ctx.numbers.decode(version)),
                   Running(s, alt))
  {
    var m := Running(s, alt);
    var kind := [Int(index), Do(INSPECTOUTPUTSCRIPTPUBKEY), Push(version), Do(NUMEQUALVERIFY)];
    var same := [Push(digest), Do(EQUALVERIFY)];
    RunFour(m, kind[0], kind[1], kind[2], kind[3], ctx);
    RunTwo(Run(m, kind, ctx), same[0], same[1], ctx);
    RunAppend(m, kind, same, ctx);
  }

  predicate OracleSigned(t: Terms, msg: ByteString, sig: ByteString, ctx: Context) {
    ctx.crypto.verifies(t.oracleKey, ctx.crypto.sha256(msg), sig)
  }

  lemma SignedRun(msg: ByteString, sig: ByteString, s: Stack, alt: Stack, t: Terms, ctx: Context)
    requires Faithful(ctx.numbers)
    ensures Checks(Run(Running(Cons(msg, Cons(sig, s)), alt), SignedOps(t), ctx),
                   OracleSigned(t, msg, sig, ctx), Running(s, Cons(msg, alt)))
  {
    var m := Running(Cons(msg, Cons(sig, s)), alt);
    var hash := [Do(DUP), Do(TOALTSTACK), Do(SHA256)];
    var check := [Push(t.oracleKey), Do(CHECKSIGFROMSTACK), Do(VERIFY)];
    RunThree(m, hash[0], hash[1], hash[2], ctx);
    RunThree(Run(m, hash, ctx), check[0], check[1], check[2], ctx);
    RunAppend(m, hash, check, ctx);
  }

  /** The witness, and what is left of it once both messages are authenticated. */
  lemma OracleRun(prev: ByteString, prevSig: ByteString, settle: ByteString, settleSig: ByteString,
                  t: Terms, ctx: Context)
    requires Faithful(ctx.numbers)
    ensures Checks(Run(Running(Cons(prev, Cons(prevSig, Cons(settle, Cons(settleSig, Empty)))), Empty),
                       OracleOps(t), ctx),
                   OracleSigned(t, prev, prevSig, ctx) && OracleSigned(t, settle, settleSig, ctx),
                   Running(Cons(prev, Cons(settle, Empty)), Empty))
  {
    var rest := Cons(settle, Cons(settleSig, Empty));
    var m := Running(Cons(prev, Cons(prevSig, rest)), Empty);
    SignedRun(prev, prevSig, rest, Empty, t, ctx);
    SignedRun(settle, settleSig, Empty, Cons(prev, Empty), t, ctx);
    var m1 := Run(m, SignedOps(t), ctx);
    if m1.Fault? {
      RunFault(m1, SignedOps(t), ctx);
    }
    RunAppend(m, SignedOps(t), SignedOps(t), ctx);
    var m2 := Run(m1, SignedOps(t), ctx);
    RunTwo(m2, Do(FROMALTSTACK), Do(FROMALTSTACK), ctx);
    RunAppend(m, SignedOps(t) + SignedOps(t), [Do(FROMALTSTACK), Do(FROMALTSTACK)], ctx);
  }

  lemma CopiedFieldRun(msg: ByteString, s: Stack, alt: Stack, offset: nat, ctx: Context)
    requires offset <= 16 && Faithful(ctx.numbers)
    ensures var m := Run(Running(Cons(msg, s), alt), [Do(DUP)] + FieldExtract(offset), ctx);
            if HasField(msg, offset)
            then m == Running(Cons(ctx.numbers.encode(Field(msg, offset, ctx)), Cons(msg, s)), alt)
            else m == Fault(OutOfRange)
  {
    var m := Running(Cons(msg, s), alt);
    RunOne(m, Do(DUP), ctx);
    FieldRun(msg, Cons(msg, s), alt, offset, ctx);
    RunAppend(m, [Do(DUP)], FieldExtract(offset), ctx);
  }

  /** A number compared with a constant and dropped. */
  lemma BelowRun(x: ByteString, limit: ByteString, s: Stack, alt: Stack, ctx: Context)
    requires Faithful(ctx.numbers)
    ensures Checks(Run(Running(Cons(x, s), alt), [Push(limit), Do(LESSTHAN), Do(VERIFY)], ctx),
                   ctx.numbers.decode(x) < ctx.numbers.decode(limit), Running(s, alt))
  {
    RunThree(Running(Cons(x, s), alt), Push(limit), Do(LESSTHAN), Do(VERIFY), ctx);
  }

  /** A number compared with a constant and kept. */
  lemma ComparedRun(x: ByteString, limit: ByteString, code: Opcode, s: Stack, alt: Stack, ctx: Context)
    requires Faithful(ctx.numbers) && (code == GREATERTHAN || code == GREATERTHANOREQUAL)
    ensures var (a, b) := (ctx.numbers.decode(x), ctx.numbers.decode(limit));
            Checks(Run(Running(Cons(x, s), alt), [Do(DUP), Push(limit), Do(code), Do(VERIFY)], ctx),
                   if code == GREATERTHAN then a > b else a >= b, Running(Cons(x, s), alt))
  {
    RunFour(Running(Cons(x, s), alt), Do(DUP), Push(limit), Do(code), Do(VERIFY), ctx);
  }

  lemma PredecessorRun(prev: ByteString, s: Stack, alt: Stack, k: Constants, t: Terms, ctx: Context)
    requires Complete(k) && Decodes(k, t, ctx)
    ensures Checks(Run(Running(Cons(prev, s), alt), PredecessorOps(k), ctx),
                   HasField(prev, TIMESTAMP_OFFSET) && Field(prev, TIMESTAMP_OFFSET, ctx) < t.maturity,
                   Running(Cons(prev, s), alt))
  {
    var m := Running(Cons(prev, s), alt);
    CopiedFieldRun(prev, s, alt, TIMESTAMP_OFFSET, ctx);
    var mid := Then(m, [Do(DUP)] + FieldExtract(TIMESTAMP_OFFSET), [Push(k[Maturity]), Do(LESSTHAN), Do(VERIFY)], ctx);
    if mid.Running? {
      BelowRun(mid.stack.top, k[Maturity], Cons(prev, s), alt, ctx);
    }
  }

  predicate Adjacent(prev: ByteString, settle: ByteString, ctx: Context) {
    && HasField(prev, SEQUENCE_OFFSET) && HasField(settle, SEQUENCE_OFFSET)
    && Field(prev, SEQUENCE_OFFSET, ctx) > 0
    && Field(settle, SEQUENCE_OFFSET, ctx) == Field(prev, SEQUENCE_OFFSET, ctx) + 1
  }

  lemma SuccessorRun(x: ByteString, y: ByteString, s: Stack, alt: Stack, ctx: Context)
    requires Faithful(ctx.numbers)
    ensures Run(Running(Cons(x, Cons(y, s)), alt), [Int(1), Do(ADD), Do(OVER)], ctx)
            == Running(Cons(y, Cons(ctx.numbers.encode(ctx.numbers.decode(x) + 1), Cons(y, s))), alt)
  {
    RunThree(Running(Cons(x, Cons(y, s)), alt), Int(1), Do(ADD), Do(OVER), ctx);
  }

  lemma PredecessorSequenceRun(prev: ByteString, settle: ByteString, s: Stack, alt: Stack, ctx: Context)
    requires Faithful(ctx.numbers)
    ensures var m := Run(Running(Cons(prev, Cons(settle, s)), alt), SuccessorOps(), ctx);
            if HasField(prev, SEQUENCE_OFFSET) && Field(prev, SEQUENCE_OFFSET, ctx) > 0
            then m == Running(Cons(settle, Cons(ctx.numbers.encode(Field(prev, SEQUENCE_OFFSET, ctx) + 1),
                                                Cons(settle, s))), alt)
            else m.Fault? && Refusal(m.error)
  {
    var field := FieldExtract(SEQUENCE_OFFSET);
    var positive := [Do(DUP), Int(0), Do(GREATERTHAN), Do(VERIFY)];
    var m := Running(Cons(prev, Cons(settle, s)), alt);
    FieldRun(prev, Cons(settle, s), alt, SEQUENCE_OFFSET, ctx);
    var m1 := Then(m, field, positive, ctx);
    if m1.Running? {
      ComparedRun(m1.stack.top, SmallInt(0), GREATERTHAN, Cons(settle, s), alt, ctx);
    }
    var m2 := Then(m, field + positive, [Int(1), Do(ADD), Do(OVER)], ctx);
    if m2.Running? {
      SuccessorRun(m2.stack.top, settle, s, alt, ctx);
    }
  }

  lemma AdjacencyRun(prev: ByteString, settle: ByteString, s: Stack, alt: Stack, ctx: Context)
    requires Faithful(ctx.numbers)
    ensures Checks(Run(Running(Cons(prev, Cons(settle, s)), alt), AdjacencyOps(), ctx),
                   Adjacent(prev, settle, ctx), Running(Cons(settle, s), alt))
  {
    var m := Running(Cons(prev, Cons(settle, s)), alt);
    PredecessorSequenceRun(prev, settle, s, alt, ctx);
    var m1 := Then(m, SuccessorOps(), FieldExtract(SEQUENCE_OFFSET), ctx);
    if m1.Running? {
      FieldRun(settle, m1.stack.below, alt, SEQUENCE_OFFSET, ctx);
    }
    var m2 := Then(m, SuccessorOps() + FieldExtract(SEQUENCE_OFFSET), [Do(NUMEQUALVERIFY)], ctx);
    RunOne(m2, Do(NUMEQUALVERIFY), ctx);
  }

  lemma StartRun(settle: ByteString, s: Stack, alt: Stack, k: Constants, t: Terms, ctx: Context)
    requires Complete(k) && Decodes(k, t, ctx)
    ensures var m := Run(Running(Cons(settle, s), alt), StartOps(k), ctx);
            if HasField(settle, TIMESTAMP_OFFSET) && Field(settle, TIMESTAMP_OFFSET, ctx) >= t.start
            then m == Running(Cons(ctx.numbers.encode(Field(settle, TIMESTAMP_OFFSET, ctx)), Cons(settle, s)), alt)
            else m.Fault? && Refusal(m.error)
  {
    var late := [Do(DUP), Push(k[Start]), Do(GREATERTHANOREQUAL), Do(VERIFY)];
    CopiedFieldRun(settle, s, alt, TIMESTAMP_OFFSET, ctx);
    var mid := Then(Running(Cons(settle, s), alt), [Do(DUP)] + FieldExtract(TIMESTAMP_OFFSET), late, ctx);
    if mid.Running? {
      ComparedRun(mid.stack.top, k[Start], GREATERTHANOREQUAL, Cons(settle, s), alt, ctx);
    }
  }

  /** The script's clamp: capped at the high boundary first, then raised to the low one. */
  function ScriptClamp(t: Terms, price: int): int {
    Max(Min(price, t.high), t.low)
  }

  lemma ClampRun(x: ByteString, s: Stack, alt: Stack, k: Constants, t: Terms, ctx: Context)
    requires Complete(k) && Decodes(k, t, ctx)
    ensures Run(Running(Cons(x, s), alt), [Push(k[High]), Do(MIN), Push(k[Low]), Do(MAX)], ctx)
            == Running(Cons(ctx.numbers.encode(ScriptClamp(t, ctx.numbers.decode(x))), s), alt)
  {
    RunFour(Running(Cons(x, s), alt), Push(k[High]), Do(MIN), Push(k[Low]), Do(MAX), ctx);
  }

  lemma PriceReadRun(ts: ByteString, settle: ByteString, s: Stack, alt: Stack, ctx: Context)
    requires Faithful(ctx.numbers)
    ensures var m := Run(Running(Cons(ts, Cons(settle, s)), alt), [Do(SWAP)] + FieldExtract(PRICE_OFFSET), ctx);
            m == Run(Running(Cons(settle, Cons(ts, s)), alt), FieldExtract(PRICE_OFFSET), ctx)
  {
    var m := Running(Cons(ts, Cons(settle, s)), alt);
    RunOne(m, Do(SWAP), ctx);
    RunAppend(m, [Do(SWAP)], FieldExtract(PRICE_OFFSET), ctx);
  }

  lemma PriceRun(ts: ByteString, settle: ByteString, s: Stack, alt: Stack, k: Constants, t: Terms, ctx: Context)
    requires Complete(k) && Decodes(k, t, ctx)
    ensures var m := Run(Running(Cons(ts, Cons(settle, s)), alt), PriceOps(k), ctx);
            if HasField(settle, PRICE_OFFSET) && Field(settle, PRICE_OFFSET, ctx) > 0
            then m == Running(Cons(ctx.numbers.encode(ScriptClamp(t, Field(settle, PRICE_OFFSET, ctx))),
                          Cons(ts, s)), alt)
            else m.Fault? && Refusal(m.error)
  {
    var m := Running(Cons(ts, Cons(settle, s)), alt);
    var read := [Do(SWAP)] + FieldExtract(PRICE_OFFSET);
    var positive := [Do(DUP), Int(0), Do(GREATERTHAN), Do(VERIFY)];
    var clamp := [Push(k[High]), Do(MIN), Push(k[Low]), Do(MAX)];
    PriceReadRun(ts, settle, s, alt, ctx);
    FieldRun(settle, Cons(ts, s), alt, PRICE_OFFSET, ctx);
    var m1 := Then(m, read, positive, ctx);
    if m1.Running? {
      ComparedRun(m1.stack.top, SmallInt(0), GREATERTHAN, Cons(ts, s), alt, ctx);
    }
    var m2 := Then(m, read + positive, clamp, ctx);
    if m2.Running? {
      ClampRun(m2.stack.top, Cons(ts, s), alt, k, t, ctx);
    }
  }

  lemma OnLowRun(c: ByteString, s: Stack, alt: Stack, low: ByteString, ctx: Context)
    requires Faithful(ctx.numbers)
    ensures Run(Running(Cons(c, s), alt), [Do(DUP), Do(TOALTSTACK), Do(DUP), Push(low), Do(NUMEQUAL)], ctx)
            == Running(Cons(ctx.numbers.encode(FromBool(ctx.numbers.decode(c) == ctx.numbers.decode(low))), Cons(c, s)),
                       Cons(c, alt))
  {
    RunFive(Running(Cons(c, s), alt), Do(DUP), Do(TOALTSTACK), Do(DUP), Push(low), Do(NUMEQUAL), ctx);
  }

  lemma OrHighRun(onLow: bool, c: ByteString, s: Stack, alt: Stack, high: ByteString, ctx: Context)
    requires Faithful(ctx.numbers)
    ensures Run(Running(Cons(ctx.numbers.encode(FromBool(onLow)), Cons(c, s)), alt),
                [Do(SWAP), Push(high), Do(NUMEQUAL), Do(BOOLOR)], ctx)
            == Running(Cons(ctx.numbers.encode(FromBool(onLow || ctx.numbers.decode(c) == ctx.numbers.decode(high))),
                     s),
                       alt)
  {
    RunFour(Running(Cons(ctx.numbers.encode(FromBool(onLow)), Cons(c, s)), alt),
            Do(SWAP), Push(high), Do(NUMEQUAL), Do(BOOLOR), ctx);
  }

  lemma BoundaryRun(c: ByteString, s: Stack, alt: Stack, k: Constants, t: Terms, ctx: Context)
    requires Complete(k) && Decodes(k, t, ctx)
    ensures var price := ctx.numbers.decode(c);
            Run(Running(Cons(c, s), alt), BoundaryOps(k), ctx)
            == Running(Cons(ctx.numbers.encode(FromBool(price == t.low || price == t.high)), s), Cons(c, alt))
  {
    var low := [Do(DUP), Do(TOALTSTACK), Do(DUP), Push(k[Low]), Do(NUMEQUAL)];
    var high := [Do(SWAP), Push(k[High]), Do(NUMEQUAL), Do(BOOLOR)];
    OnLowRun(c, s, alt, k[Low], ctx);
    OrHighRun(ctx.numbers.decode(c) == t.low, c, s, Cons(c, alt), k[High], ctx);
    RunAppend(Running(Cons(c, s), alt), low, high, ctx);
  }

  lemma MaturedRun(out: ByteString, ts: ByteString, s: Stack, alt: Stack, maturity: ByteString, ctx: Context)
    requires Faithful(ctx.numbers)
    ensures Run(Running(Cons(out, Cons(ts, s)), alt), [Do(SWAP), Push(maturity), Do(GREATERTHANOREQUAL)], ctx)
            == Running(Cons(ctx.numbers.encode(FromBool(ctx.numbers.decode(ts) >= ctx.numbers.decode(maturity))),
                            Cons(out, s)), alt)
  {
    RunThree(Running(Cons(out, Cons(ts, s)), alt), Do(SWAP), Push(maturity), Do(GREATERTHANOREQUAL), ctx);
  }

  lemma EitherRun(a: ByteString, b: ByteString, c: ByteString, s: Stack, alt: Stack, ctx: Context)
    requires Faithful(ctx.numbers)
    ensures Checks(Run(Running(Cons(a, Cons(b, s)), Cons(c, alt)), [Do(BOOLOR), Do(VERIFY), Do(FROMALTSTACK)], ctx),
                   ctx.numbers.decode(a) != 0 || ctx.numbers.decode(b) != 0, Running(Cons(c, s), alt))
  {
    RunThree(Running(Cons(a, Cons(b, s)), Cons(c, alt)), Do(BOOLOR), Do(VERIFY), Do(FROMALTSTACK), ctx);
  }

  /** Out of bounds, or matured: the clamped price comes back from the alternative stack. */
  lemma TriggerRun(out: ByteString, ts: ByteString, c: ByteString, s: Stack, alt: Stack,
                   k: Constants, t: Terms, ctx: Context)
    requires Complete(k) && Decodes(k, t, ctx)
    ensures Checks(Run(Running(Cons(out, Cons(ts, s)), Cons(c, alt)), TriggerOps(k), ctx),
                   ctx.numbers.decode(out) != 0 || ctx.numbers.decode(ts) >= t.maturity,
                   Running(Cons(c, s), alt))
  {
    var matured := [Do(SWAP), Push(k[Maturity]), Do(GREATERTHANOREQUAL)];
    var either := [Do(BOOLOR), Do(VERIFY), Do(FROMALTSTACK)];
    MaturedRun(out, ts, s, Cons(c, alt), k[Maturity], ctx);
    EitherRun(ctx.numbers.encode(FromBool(ctx.numbers.decode(ts) >= t.maturity)), out, c, s, alt, ctx);
    RunAppend(Running(Cons(out, Cons(ts, s)), Cons(c, alt)), matured, either, ctx);
  }

  /** The short's sats at a clamped price, in the machine's unbounded arithmetic. */
  function ScriptShort(t: Terms, clamped: int): int
    requires clamped != 0
  {
    Min(Max(TruncDiv(t.nominal, clamped) - t.leverage, DUST), t.payout - DUST)
  }

  lemma RawShareRun(c: ByteString, s: Stack, alt: Stack, k: Constants, t: Terms, ctx: Context)
    requires Complete(k) && Decodes(k, t, ctx) && ctx.numbers.decode(c) != 0
    ensures Run(Running(Cons(c, s), alt), [Push(k[Nominal]), Do(SWAP), Do(DIV), Push(k[Leverage]), Do(SUB)], ctx)
            == Running(Cons(ctx.numbers.encode(TruncDiv(t.nominal, ctx.numbers.decode(c)) - t.leverage), s), alt)
  {
    RunFive(Running(Cons(c, s), alt), Push(k[Nominal]), Do(SWAP), Do(DIV), Push(k[Leverage]), Do(SUB), ctx);
  }

  lemma BoundedRun(x: ByteString, s: Stack, alt: Stack, k: Constants, t: Terms, ctx: Context)
    requires Complete(k) && Decodes(k, t, ctx)
    ensures Run(Running(Cons(x, s), alt), [Push(k[Dust]), Do(MAX), Push(k[ShortCap]), Do(MIN)], ctx)
            == Running(Cons(ctx.numbers.encode(Min(Max(ctx.numbers.decode(x), DUST), t.payout - DUST)), s), alt)
  {
    RunFour(Running(Cons(x, s), alt), Push(k[Dust]), Do(MAX), Push(k[ShortCap]), Do(MIN), ctx);
  }

  lemma ShareRun(c: ByteString, s: Stack, alt: Stack, k: Constants, t: Terms, ctx: Context)
    requires Complete(k) && Decodes(k, t, ctx) && ctx.numbers.decode(c) != 0
    ensures Run(Running(Cons(c, s), alt), ShareOps(k), ctx)
            == Running(Cons(ctx.numbers.encode(ScriptShort(t, ctx.numbers.decode(c))), s), alt)
  {
    var raw := [Push(k[Nominal]), Do(SWAP), Do(DIV), Push(k[Leverage]), Do(SUB)];
    var bounded := [Push(k[Dust]), Do(MAX), Push(k[ShortCap]), Do(MIN)];
    RawShareRun(c, s, alt, k, t, ctx);
    BoundedRun(ctx.numbers.encode(TruncDiv(t.nominal, ctx.numbers.decode(c)) - t.leverage), s, alt, k, t, ctx);
    RunAppend(Running(Cons(c, s), alt), raw, bounded, ctx);
  }

  lemma RemainderRun(x: ByteString, s: Stack, alt: Stack, payout: ByteString, ctx: Context)
    requires Faithful(ctx.numbers)
    ensures Run(Running(Cons(x, s), alt), [Do(DUP), Push(payout), Do(SWAP), Do(SUB)], ctx)
            == Running(Cons(ctx.numbers.encode(ctx.numbers.decode(payout) - ctx.numbers.decode(x)), Cons(x, s)), alt)
  {
    RunFour(Running(Cons(x, s), alt), Do(DUP), Push(payout), Do(SWAP), Do(SUB), ctx);
  }

  lemma LongRun(y: ByteString, s: Stack, alt: Stack, ctx: Context)
    requires Faithful(ctx.numbers)
    ensures Checks(Run(Running(Cons(y, s), alt), [Int(1), Do(INSPECTOUTPUTVALUE), Do(NUMEQUALVERIFY)], ctx),
                   |ctx.tx.outputs| >= 2 && ctx.tx.outputs[1].value == ctx.numbers.decode(y), Running(s, alt))
  {
    RunThree(Running(Cons(y, s), alt), Int(1), Do(INSPECTOUTPUTVALUE), Do(NUMEQUALVERIFY), ctx);
  }

  lemma ShortRun(x: ByteString, s: Stack, alt: Stack, ctx: Context)
    requires Faithful(ctx.numbers) && |ctx.tx.outputs| > 0
    ensures Run(Running(Cons(x, s), alt), [Int(0), Do(INSPECTOUTPUTVALUE), Do(NUMEQUAL)], ctx)
            == Running(Cons(ctx.numbers.encode(FromBool(ctx.tx.outputs[0].value == ctx.numbers.decode(x))), s), alt)
  {
    RunThree(Running(Cons(x, s), alt), Int(0), Do(INSPECTOUTPUTVALUE), Do(NUMEQUAL), ctx);
  }

  /** The last segment leaves its verdict on the stack rather than checking it. */
  lemma PayoutRun(x: ByteString, s: Stack, alt: Stack, k: Constants, t: Terms, ctx: Context)
    requires Complete(k) && Decodes(k, t, ctx)
    ensures var short := ctx.numbers.decode(x);
            var m := Run(Running(Cons(x, s), alt), PayoutOps(k), ctx);
            if |ctx.tx.outputs| >= 2 && ctx.tx.outputs[1].value == t.payout - short
            then m == Running(Cons(ctx.numbers.encode(FromBool(ctx.tx.outputs[0].value == short)), s), alt)
            else m.Fault? && Refusal(m.error)
  {
    var m := Running(Cons(x, s), alt);
    var remainder := [Do(DUP), Push(k[Payout]), Do(SWAP), Do(SUB)];
    var long := [Int(1), Do(INSPECTOUTPUTVALUE), Do(NUMEQUALVERIFY)];
    var short := [Int(0), Do(INSPECTOUTPUTVALUE), Do(NUMEQUAL)];
    RemainderRun(x, s, alt, k[Payout], ctx);
    LongRun(ctx.numbers.encode(t.payout - ctx.numbers.decode(x)), Cons(x, s), alt, ctx);
    RunAppend(m, remainder, long, ctx);
    var mid := Then(m, remainder + long, short, ctx);
    if mid.Running? {
      ShortRun(x, s, alt, ctx);
    }
  }
}
