/**
 The exit and the arbitration after it: the transaction both parties pre-sign (contract/exit.go) and the
 split of what it leaves (contract/arbitration.go), in Go's 64-bit arithmetic.
 */
module Arbitrations {
  import opened Prelude
  import opened Bytes
  import opened Vm
  import opened Terms
  import opened CovenantCorrect
  import opened OracleMessages

  datatype Outpoint = Outpoint(txid: ByteString, vout: nat)

  datatype TxIn = TxIn(previous: Outpoint, sequence: nat)

  datatype Tx = Tx(version: nat, inputs: seq<TxIn>, outputs: seq<TxOut>)

  const MAX_SEQUENCE: nat := 0xFFFF_FFFF

  // --- Sharing a shortfall ---------------------------------------------------

  datatype ArbitrationError =
    | NoSweep | NegativeFee | BadPrice(price: PriceError) | BadSplit(split: SplitError) | BelowDust

  /** scaleToAvailable. The product is int64 and wraps; the quotient truncates. */
  function ScaleToAvailable(short: Int64, owed: Int64, payable: Int64): Result<(Int64, Int64), ArbitrationError>
    requires owed > 0
  {
    if payable < 2 * DUST then Err(BelowDust)
    else
      var product := Wrap64(short * payable);
      WrappedQuotientFits(product, owed);
      var scaled: Int64 := Min(Max(TruncDiv(product, owed), DUST), payable - DUST);
      Ok((scaled, payable - scaled))
  }

  lemma WrappedQuotientFits(product: Int64, owed: Int64)
    requires owed > 0
    ensures IsInt64(TruncDiv(product, owed))
  {
  }

  /** The share the formula means: proportional, rounded down, kept above dust on both sides. */
  function FairShare(short: int, owed: int, payable: int): int
    requires owed > 0
  {
    Min(Max(TruncDiv(short * payable, owed), DUST), payable - DUST)
  }

  predicate IsShortfall(short: int, owed: int, payable: int) {
    DUST <= short <= owed - DUST && 2 * DUST <= payable <= owed
  }

  lemma ProductNonNegative(a: int, b: int)
    requires a >= 0 && b >= 0
    ensures a * b >= 0
  {
  }

  /** Sharing a shortfall fairly: the shares add up, neither side drops below dust or gains, nothing changes
      when nothing is missing, and away from dust the short is within one sat of exact proportion. */
  lemma FairShareIsFair(short: int, owed: int, payable: int)
    requires owed > 0 && IsShortfall(short, owed, payable)
    ensures var share := FairShare(short, owed, payable);
            && DUST <= share <= short
            && DUST <= payable - share <= owed - short
            && (payable == owed ==> share == short)
            && (DUST < share < payable - DUST ==> share * owed <= short * payable < (share + 1) * owed)
  {
    var p := short * payable;
    var q := p / owed;
    ProductNonNegative(short, payable);
    QuotientAtLeast(p, owed, q);
    QuotientAtLeast(p, owed, q + 1);
    // q <= short, because short * payable <= short * owed
    MulMonotone(short, payable, owed);
    QuotientAtLeast(p, owed, short + 1);
    assert (short + 1) * owed == short * owed + owed;
    // payable - q <= owed - short, because (owed - short) * (owed - payable) >= 0
    ProductNonNegative(owed - short, owed - payable);
    var k := payable + short - owed;
    assert k * owed <= p by {
      assert (owed - short) * (owed - payable) == owed * owed - owed * payable - short * owed + p;
      assert k * owed == payable * owed + short * owed - owed * owed;
    }
    QuotientAtLeast(p, owed, k);
    if payable == owed {
      QuotientAtLeast(p, owed, short);
    }
  }

  /** The most there can ever be to share: 21 million bitcoin in sats. */
  const MAX_MONEY: int := 2_100_000_000_000_000

  /** Within int64 the code computes the fair share. */
  lemma ScaleWithinRange(short: Int64, owed: Int64, payable: Int64)
    requires owed > 0 && payable >= 2 * DUST && IsInt64(short * payable)
    ensures ScaleToAvailable(short, owed, payable)
            == Ok((FairShare(short, owed, payable), payable - FairShare(short, owed, payable)))
  {
  }

  lemma WrapDropsAMultiple(x: int)
    requires x > MAX_INT64
    ensures Wrap64(x) <= x - TWO_TO_THE_64
  {
  }

  /** Dropping 2^64 from a product takes thousands of sats off any quotient there is money for. */
  lemma WrappedQuotientIsFarBelow(p: int, wrapped: int, owed: int)
    requires 0 < owed <= MAX_MONEY && p > MAX_INT64 && wrapped <= p - TWO_TO_THE_64
    ensures p / owed >= 4000
    ensures TruncDiv(wrapped, owed) <= 0 || TruncDiv(wrapped, owed) < p / owed - 4000
  {
    var q := p / owed;
    QuotientAtLeast(p, owed, 4000);
    QuotientAtLeast(p, owed, q + 1);
    if wrapped >= 0 {
      QuotientAtLeast(wrapped, owed, q - 4000);
      assert (q - 4000) * owed == (q + 1) * owed - 4001 * owed;
    } else {
      QuotientAtLeast(-wrapped, owed, 0);
    }
  }

  /** A product past int64 wraps, and then the short is paid less than its share, always. */
  lemma OverflowUnderpaysTheShort(short: Int64, owed: Int64, payable: Int64)
    requires owed > 0 && IsShortfall(short, owed, payable) && owed <= MAX_MONEY
    requires short * payable > MAX_INT64
    ensures ScaleToAvailable(short, owed, payable).value.0 < FairShare(short, owed, payable)
  {
    var p := short * payable;
    WrapDropsAMultiple(p);
    WrappedQuotientIsFarBelow(p, Wrap64(p), owed);
    MulMonotone(payable, short, owed);
    QuotientAtMost(p, payable, owed);
  }

  lemma QuotientAtMost(p: int, bound: int, owed: int)
    requires p >= 0 && owed > 0 && p <= bound * owed
    ensures p / owed <= bound
  {
  }

  /** The arbitrated share is the fair one exactly when the product of the two amounts fits in 63 bits, which
      a caller can check before the call. */
  lemma ScaleIsFairWithoutOverflow(short: Int64, owed: Int64, payable: Int64)
    requires owed > 0 && IsShortfall(short, owed, payable) && owed <= MAX_MONEY
    ensures ScaleToAvailable(short, owed, payable)
            == Ok((FairShare(short, owed, payable), payable - FairShare(short, owed, payable)))
            <==> short * payable <= MAX_INT64
  {
    ProductNonNegative(short, payable);
    if short * payable <= MAX_INT64 {
      ScaleWithinRange(short, owed, payable);
    } else {
      OverflowUnderpaysTheShort(short, owed, payable);
    }
  }

  /** Up to 3,037,000,499 sats the product cannot overflow at all. */
  lemma SmallContractsNeverOverflow(short: Int64, owed: Int64, payable: Int64)
    requires IsShortfall(short, owed, payable) && owed <= 3_037_000_499
    ensures 0 <= short * payable <= MAX_INT64
  {
    ProductNonNegative(short, payable);
    MulMonotone(short, payable, 3_037_000_499);
    MulMonotone(3_037_000_499, short, 3_037_000_499);
  }

  /** A 40 bitcoin contract that owes the short 30 of them pays it dust after an exit. */
  lemma OverflowExample()
    ensures IsShortfall(3_000_000_000, 4_000_000_000, 3_999_996_000)
    ensures FairShare(3_000_000_000, 4_000_000_000, 3_999_996_000) == 2_999_997_000
    ensures ScaleToAvailable(3_000_000_000, 4_000_000_000, 3_999_996_000) == Ok((1332, 3_999_994_668))
  {
  }

  // --- Arbitrating -----------------------------------------------------------

  datatype Arbitration =
    Arbitration(tx: Option<Tx>, short: Int64, long: Int64, price: Int64, message: ByteString, signature: ByteString)

  function PayoutTx(t: Terms, outpoint: Outpoint, short: Int64, long: Int64): Tx {
    Tx(2, [TxIn(outpoint, MAX_SEQUENCE)], [TxOut(short, t.shortScript), TxOut(long, t.longScript)])
  }

  function Arbitrate(t: Terms, crypto: Crypto, hasSweep: bool, outpoint: Outpoint, available: Int64, fee: Int64,
                     message: ByteString, signature: ByteString): Result<Arbitration, ArbitrationError>
  {
    if !hasSweep then Err(NoSweep)
    else if fee < 0 then Err(NegativeFee)
    else
      match PriceFrom(t, crypto, message, signature)
      case Err(e) => Err(BadPrice(e))
      case Ok(price) =>
        match SettlementSplit(t, price)
        case Err(e) => Err(BadSplit(e))
        case Ok((short, _)) =>
          match ScaleToAvailable(short, t.payout, Wrap64(available - fee))
          case Err(e) => Err(e)
          case Ok((s, l)) =>
            Ok(Arbitration(Some(PayoutTx(t, outpoint, s, l)), s, l, Clamp(t, price), message, signature))
  }

  /** When there is an arbitration: for any contract there could be a split of, whenever two dust outputs are left. */
  lemma ArbitratesExactly(t: Terms, crypto: Crypto, hasSweep: bool, outpoint: Outpoint, available: Int64, fee: Int64,
                          message: ByteString, signature: ByteString)
    requires available >= 0
    ensures Arbitrate(t, crypto, hasSweep, outpoint, available, fee, message, signature).Ok?
            <==> && hasSweep && fee >= 0 && Valid(t) && PriceFrom(t, crypto, message, signature).Ok?
                 && available >= 2 * DUST + fee
  {
  }

  /** What an arbitration pays, whenever there is one: all of what is available after the fee, to the two parties' own
      scripts, dust at least on each side, out of the sweep and nothing else. It carries the evidence it was made
      from, and a price inside the range that splits as the signed one does. */
  lemma ArbitrationPaysEverything(t: Terms, crypto: Crypto, hasSweep: bool, outpoint: Outpoint, available: Int64,
                                  fee: Int64, message: ByteString, signature: ByteString)
    requires Arbitrate(t, crypto, hasSweep, outpoint, available, fee, message, signature).Ok?
    requires available >= 0
    ensures var a := Arbitrate(t, crypto, hasSweep, outpoint, available, fee, message, signature).value;
            && a.short + a.long == available - fee && a.short >= DUST && a.long >= DUST
            && a.tx == Some(PayoutTx(t, outpoint, a.short, a.long))
            && a.tx.value.version == 2 && a.tx.value.inputs == [TxIn(outpoint, 0xFFFF_FFFF)]
            && a.tx.value.outputs == [TxOut(a.short, t.shortScript), TxOut(a.long, t.longScript)]
            && a.message == message && a.signature == signature && t.low <= a.price <= t.high
            && fee >= 0 && Valid(t) && PriceFrom(t, crypto, message, signature).Ok?
            && SettlementSplit(t, a.price) == SettlementSplit(t, PriceFrom(t, crypto, message, signature).value)
  {
  }

  /** A 40 bitcoin contract on three million dollars. */
  const LARGE: Terms := Terms(
    30_000_000_000_000_000, 0, 4_000_000_000, 5_000_000, 20_000_000, [1], [2], SOME_KEY, 1, 1_000)

  /** What Go reads out of a message the oracle signed. */
  lemma PriceOf(t: Terms, crypto: Crypto, timestamp: Uint64, sequence: Uint64, price: Uint64, sig: ByteString)
    requires 0 < price <= MAX_PRICE && Signed(t, crypto, Message(timestamp, sequence, price), sig)
    ensures PriceFrom(t, crypto, Message(timestamp, sequence, price), sig) == Ok(price)
  {
    MessageLayout(timestamp, sequence, price);
  }

  /** The overflow, from the terms on: at 100,000 dollars that contract owes its short 30 bitcoin, and an arbitration
      of an exit that lost 3,000 sats on the way pays it 1332 sats. */
  lemma OverflowIsReached(crypto: Crypto, outpoint: Outpoint, sig: ByteString)
    requires Signed(LARGE, crypto, Message(10, 1, 10_000_000), sig)
    ensures SettlementSplit(LARGE, 10_000_000) == Ok((3_000_000_000, 1_000_000_000))
    ensures var a := Arbitrate(LARGE, crypto, true, outpoint, 3_999_997_000, 1_000, Message(10, 1, 10_000_000), sig);
            a.Ok? && a.value.short == 1332 && a.value.long == 3_999_994_668
  {
    PriceOf(LARGE, crypto, 10, 1, 10_000_000, sig);
    OverflowExample();
  }

  // --- Checking --------------------------------------------------------------

  datatype Refusal =
    | NothingToVerify | CannotRecompute(why: ArbitrationError) | OutputCount | WrongAmount(i: nat)
    | WrongRecipient(i: nat) | InputCount

  /** A transaction without inputs is not refused: reading its first input panics. */
  datatype Verdict = Verified | Refused(why: Refusal) | Panicked

  /** The proposal is the one the oracle's own bytes give. */
  predicate MatchesEvidence(t: Terms, crypto: Crypto, hasSweep: bool, available: Int64, fee: Int64, a: Arbitration) {
    && a.tx.Some? && |a.tx.value.inputs| == 1
    && var expected
       := Arbitrate(t, crypto, hasSweep, a.tx.value.inputs[0].previous, available, fee, a.message, a.signature);
    && expected.Ok? && a.tx.value.outputs == expected.value.tx.value.outputs
  }

  /** Contract.VerifyArbitration. */
  method VerifyArbitration(t: Terms, crypto: Crypto, a: Arbitration, hasSweep: bool, available: Int64, fee: Int64)
    returns (verdict: Verdict)
    requires available >= 0
    ensures verdict.Verified? <==> MatchesEvidence(t, crypto, hasSweep, available, fee, a)
    ensures verdict.Panicked? <==> a.tx.Some? && |a.tx.value.inputs| == 0
    ensures verdict == Refused(NothingToVerify) <==> a.tx.None?
    ensures a.tx.Some? && |a.tx.value.inputs| > 0 ==>
              var expected := Arbitrate(t, crypto, hasSweep, a.tx.value.inputs[0].previous, available, fee, a.message,
                                        a.signature);
              && (expected.Err? ==> verdict == Refused(CannotRecompute(expected.error)))
              && (expected.Ok? ==>
                    (verdict == Refused(OutputCount) <==> |a.tx.value.outputs| != 2)
                    && (verdict == Refused(InputCount) <==>
                          a.tx.value.outputs == expected.value.tx.value.outputs && |a.tx.value.inputs| > 1))
  {
    if a.tx.None? {
      return Refused(NothingToVerify);
    }
    var tx := a.tx.value;
    if |tx.inputs| == 0 {
      return Panicked;
    }
    var expected := Arbitrate(t, crypto, hasSweep, tx.inputs[0].previous, available, fee, a.message, a.signature);
    if expected.Err? {
      return Refused(CannotRecompute(expected.error));
    }
    ArbitrationPaysEverything(t, crypto, hasSweep, tx.inputs[0].previous, available, fee, a.message, a.signature);
    if |tx.outputs| != 2 {
      return Refused(OutputCount);
    }
    var want := expected.value.tx.value.outputs;
    for i := 0 to |want|
      invariant tx.outputs[..i] == want[..i]
    {
      if tx.outputs[i].value != want[i].value {
        return Refused(WrongAmount(i));
      }
      if tx.outputs[i].pkScript != want[i].pkScript {
        return Refused(WrongRecipient(i));
      }
    }
    assert tx.outputs[..2] == tx.outputs && want[..2] == want;
    if |tx.inputs| != 1 {
      return Refused(InputCount);
    }
    return Verified;
  }

  /** The checker accepts everything the service builds. */
  lemma BuiltArbitrationVerifies(t: Terms, crypto: Crypto, hasSweep: bool, outpoint: Outpoint, available: Int64,
                                 fee: Int64, message: ByteString, signature: ByteString)
    requires Arbitrate(t, crypto, hasSweep, outpoint, available, fee, message, signature).Ok?
    ensures MatchesEvidence(t, crypto, hasSweep, available, fee,
                            Arbitrate(t, crypto, hasSweep, outpoint, available, fee, message, signature).value)
  {
  }

  /** The amounts a signed price and a sweep determine, with nothing left to the service. */
  predicate OwedAfterExit(t: Terms, price: Int64, payable: int, short: int, long: int)
    requires Valid(t) && price > 0
  {
    && short == FairShare(SettlementSplit(t, price).value.0, t.payout, payable)
    && long == payable - short
  }

  /** And everything it accepts is exact: one input, and to each party's own script the share the signed
      price determines, as long as the product fits; the two add up to what is available after the fee. */
  lemma VerifiedArbitrationIsExact(t: Terms, crypto: Crypto, hasSweep: bool, available: Int64, fee: Int64,
                                   a: Arbitration)
    requires available >= 0 && MatchesEvidence(t, crypto, hasSweep, available, fee, a)
    ensures Valid(t) && PriceFrom(t, crypto, a.message, a.signature).Ok?
    ensures var outputs := a.tx.value.outputs;
            && |outputs| == 2 && outputs[0].pkScript == t.shortScript && outputs[1].pkScript == t.longScript
            && outputs[0].value + outputs[1].value == available - fee
            && outputs[0].value >= DUST && outputs[1].value >= DUST
    ensures var price := PriceFrom(t, crypto, a.message, a.signature).value;
            IsInt64(SettlementSplit(t, price).value.0 * (available - fee))
            ==> OwedAfterExit(t, price, available - fee, a.tx.value.outputs[0].value, a.tx.value.outputs[1].value)
  {
    var outpoint := a.tx.value.inputs[0].previous;
    ArbitrationPaysEverything(t, crypto, hasSweep, outpoint, available, fee, a.message, a.signature);
    var price := PriceFrom(t, crypto, a.message, a.signature).value;
    var short := SettlementSplit(t, price).value.0;
    if IsInt64(short * (available - fee)) {
      ScaleWithinRange(short, t.payout, available - fee);
    }
  }

  // --- The exit --------------------------------------------------------------

  datatype ExitError = AmountNotPositive | ExitFeeNegative | LeavesDust | NoSweepScript | BadDelay

  /** Contract.ExitTx: one output, the sweep, holding what the fee leaves. `sequence` is what BIP 68 makes of
      the contract's exit delay, when it can. */
  function ExitTx(outpoint: Outpoint, amount: Int64, fee: Int64, sweepScript: ByteString, sequence: Option<nat>)
    : Result<Tx, ExitError>
  {
    if amount <= 0 then Err(AmountNotPositive)
    else if fee < 0 then Err(ExitFeeNegative)
    else if amount - fee < DUST then Err(LeavesDust)
    else if |sweepScript| == 0 then Err(NoSweepScript)
    else if sequence.None? then Err(BadDelay)
    else Ok(Tx(2, [TxIn(outpoint, sequence.value)], [TxOut(amount - fee, sweepScript)]))
  }

  /** When there is an exit, and what it is: one input with the sequence the delay makes, one output with all but the
      fee. */
  lemma ExitsExactly(outpoint: Outpoint, amount: Int64, fee: Int64, sweepScript: ByteString, sequence: Option<nat>)
    ensures ExitTx(outpoint, amount, fee, sweepScript, sequence).Ok?
            <==> fee >= 0 && amount >= DUST + fee && sweepScript != [] && sequence.Some?
    ensures var exit := ExitTx(outpoint, amount, fee, sweepScript, sequence);
            exit.Ok? ==>
              && exit.value.version == 2 && |exit.value.inputs| == |exit.value.outputs| == 1
              && exit.value.inputs[0].previous == outpoint && Some(exit.value.inputs[0].sequence) == sequence
              && exit.value.outputs[0].pkScript == sweepScript && exit.value.outputs[0].value + fee == amount
  {
  }

  // --- Relative locks --------------------------------------------------------

  /** BIP 68: bit 31 switches the lock off, bit 22 makes it time rather than blocks, the low 16 bits count blocks or
      units of 512 seconds. */
  predicate Disabled(sequence: nat) {
    sequence / 0x8000_0000 % 2 == 1
  }

  predicate InTime(sequence: nat) {
    sequence / 0x40_0000 % 2 == 1
  }

  function Units(sequence: nat): nat {
    sequence % 0x1_0000
  }

  /** How old the output is that is being spent. */
  datatype Age = Age(blocks: nat, seconds: nat)

  /** BIP 68: when a version 2 transaction may be in a block. */
  predicate OldEnough(tx: Tx, age: Age)
    requires |tx.inputs| == 1
  {
    var sequence := tx.inputs[0].sequence;
    tx.version < 2 || Disabled(sequence)
    || (if InTime(sequence) then age.seconds >= 512 * Units(sequence) else age.blocks >= Units(sequence))
  }

  /** BIP 112: whether CHECKSEQUENCEVERIFY lets the transaction through. */
  predicate PassesCsv(operand: nat, tx: Tx)
    requires |tx.inputs| == 1
  {
    var sequence := tx.inputs[0].sequence;
    Disabled(operand)
    || (tx.version >= 2 && !Disabled(sequence) && InTime(operand) == InTime(sequence)
        && Units(operand) <= Units(sequence))
  }

  /** The exit leaf: the delay's own sequence is what CHECKSEQUENCEVERIFY is given, and the block the transaction would
      be in has to come late enough for its input. */
  predicate LeavesAt(operand: nat, tx: Tx, age: Age)
    requires |tx.inputs| == 1
  {
    PassesCsv(operand, tx) && OldEnough(tx, age)
  }

  /** A sequence that stands for a delay, as BIP 68 writes it. */
  predicate StandsFor(sequence: nat, delay: nat, inBlocks: bool) {
    && !Disabled(sequence) && (InTime(sequence) <==> !inBlocks)
    && delay == if inBlocks then Units(sequence) else 512 * Units(sequence)
  }

  predicate Waited(age: Age, delay: nat, inBlocks: bool) {
    if inBlocks then age.blocks >= delay else age.seconds >= delay
  }

  /** The exit can be broadcast exactly from the contract's own delay on. */
  lemma ExitLeavesExactly(outpoint: Outpoint, amount: Int64, fee: Int64, sweepScript: ByteString, sequence: nat,
                          delay: nat, inBlocks: bool, age: Age)
    requires StandsFor(sequence, delay, inBlocks)
    requires ExitTx(outpoint, amount, fee, sweepScript, Some(sequence)).Ok?
    ensures var exit := ExitTx(outpoint, amount, fee, sweepScript, Some(sequence)).value;
            |exit.inputs| == 1 && (LeavesAt(sequence, exit, age) <==> Waited(age, delay, inBlocks))
  {
  }

  /** The whole way out of Arkade: the exit of the payout, then the arbitration of what it leaves. */
  predicate CanLeave(t: Terms, crypto: Crypto, funding: Outpoint, swept: Outpoint, exitFee: Int64,
                     arbitrationFee: Int64,
                     sweepScript: ByteString, sequence: Option<nat>, message: ByteString, signature: ByteString)
  {
    var exit := ExitTx(funding, t.payout, exitFee, sweepScript, sequence);
    exit.Ok? && Arbitrate(t, crypto, true, swept, exit.value.outputs[0].value, arbitrationFee, message, signature).Ok?
  }

  /** A contract can be exited and arbitrated exactly when it holds both fees and two dust outputs. Funding
      only checks the first of the two transactions. */
  lemma LeavingNeedsBothFees(t: Terms, crypto: Crypto, funding: Outpoint, swept: Outpoint, exitFee: Int64,
                             arbitrationFee: Int64, sweepScript: ByteString, sequence: Option<nat>,
                             message: ByteString, signature: ByteString)
    requires Valid(t) && exitFee >= 0 && arbitrationFee >= 0 && |sweepScript| > 0 && sequence.Some?
    requires PriceFrom(t, crypto, message, signature).Ok?
    ensures CanLeave(t, crypto, funding, swept, exitFee, arbitrationFee, sweepScript, sequence, message, signature)
            <==> t.payout >= 2 * DUST + exitFee + arbitrationFee
  {
  }

  /** Conservation over a whole exit: what the two parties staked is what they are paid in the end, plus the
      two fees. */
  lemma ExitConserves(t: Terms, crypto: Crypto, funding: Outpoint, swept: Outpoint, exitFee: Int64,
                      arbitrationFee: Int64,
                      sweepScript: ByteString, sequence: Option<nat>, message: ByteString, signature: ByteString,
                      openingPrice: Int64)
    requires Valid(t) && openingPrice > 0
    requires CanLeave(t, crypto, funding, swept, exitFee, arbitrationFee, sweepScript, sequence, message, signature)
    ensures var (shortStake, longStake) := SettlementSplit(t, openingPrice).value;
            var available := ExitTx(funding, t.payout, exitFee, sweepScript, sequence).value.outputs[0].value;
            var a := Arbitrate(t, crypto, true, swept, available, arbitrationFee, message, signature).value;
            shortStake + longStake == a.short + a.long + exitFee + arbitrationFee
  {
    var available := ExitTx(funding, t.payout, exitFee, sweepScript, sequence).value.outputs[0].value;
    ArbitrationPaysEverything(t, crypto, true, swept, available, arbitrationFee, message, signature);
  }
}
