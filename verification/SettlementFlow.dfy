/** The settlement transaction the service builds (arkade/settle.go, service/internal/app/settlement.go), and
    when the covenant accepts it. */
module SettlementFlow {
  import opened Prelude
  import opened Bytes
  import opened Vm
  import opened Terms
  import opened Covenant
  import opened CovenantCorrect
  import opened OracleMessages

  /** The pay-to-anchor script every Arkade transaction ends with. */
  const ANCHOR_SCRIPT: ByteString := [0x51, 0x02, 0x4e, 0x73]

  datatype SignedPrice = SignedPrice(message: ByteString, signature: ByteString)

  /** A publication and its immediate predecessor. */
  datatype Pair = Pair(settlement: SignedPrice, previous: SignedPrice)

  /** The four witness items in the order they are pushed: each message above its signature, the predecessor on top. */
  function SettlementWitness(pair: Pair): seq<ByteString> {
    [pair.settlement.signature, pair.settlement.message, pair.previous.signature, pair.previous.message]
  }

  predicate EndsInAnchor(outputs: seq<TxOut>) {
    |outputs| > 0 && outputs[|outputs| - 1].pkScript == ANCHOR_SCRIPT
  }

  function WithExtension(outputs: seq<TxOut>, extension: TxOut): seq<TxOut> {
    if EndsInAnchor(outputs) then
      outputs[..|outputs| - 1] + [extension, outputs[|outputs| - 1]]
    else
      outputs + [extension]
  }

  /** A transaction being put together: its outputs, and how many output records the packet carries. */
  class Packet {
    var txOut: seq<TxOut>
    var records: nat

    constructor (outputs: seq<TxOut>)
      ensures txOut == outputs && records == |outputs|
    {
      txOut, records := outputs, |outputs|;
    }

    /** The extension goes in before the anchor, which is swapped out and appended again. */
    method AddEmulatorPacket(extension: TxOut)
      modifies this
      ensures txOut == WithExtension(old(txOut), extension)
      ensures records == old(records) + 1
    {
      var last := |txOut| - 1;
      if last >= 0 && txOut[last].pkScript == ANCHOR_SCRIPT {
        var anchor := txOut[last];
        txOut := txOut[last := extension];
        txOut := txOut + [anchor];
      } else {
        txOut := txOut + [extension];
      }
      records := records + 1;
    }
  }

  /** Inserting the packet moves no output, except an anchor that came last. */
  lemma ExtensionMovesOnlyTheAnchor(outputs: seq<TxOut>, extension: TxOut, i: nat)
    requires i < |outputs| && extension.pkScript != ANCHOR_SCRIPT
    ensures |WithExtension(outputs, extension)| == |outputs| + 1
    ensures multiset(WithExtension(outputs, extension)) == multiset(outputs) + multiset{extension}
    ensures EndsInAnchor(WithExtension(outputs, extension)) <==> EndsInAnchor(outputs)
    ensures WithExtension(outputs, extension)[i] == outputs[i] <==> !(EndsInAnchor(outputs) && i == |outputs| - 1)
  {
    var n := |outputs| - 1;
    assert outputs == outputs[..n] + [outputs[n]];
    assert multiset(WithExtension(outputs, extension)) == multiset(outputs) + multiset{extension};
  }

  /** What offchain.BuildTxs lays out: the outputs it was given, and the anchor last. */
  function BuiltOutputs(outputs: seq<TxOut>): seq<TxOut> {
    outputs + [TxOut(0, ANCHOR_SCRIPT)]
  }

  datatype SettlementError = BadPrice(price: PriceError) | BadSplit(split: SplitError)

  /** The transaction finishSettling ends up submitting: one input holding the payout, the two payouts at the
      price read out of the signed bytes, the emulator packet, the anchor. */
  function SettlementSpend(t: Terms, crypto: Crypto, pair: Pair, extension: TxOut): Result<Spend, SettlementError> {
    match PriceFrom(t, crypto, pair.settlement.message, pair.settlement.signature)
    case Err(e) => Err(BadPrice(e))
    case Ok(price) =>
      match SettlementSplit(t, price)
      case Err(e) => Err(BadSplit(e))
      case Ok((short, long)) =>
        var payouts := [TxOut(short, t.shortScript), TxOut(long, t.longScript)];
        Ok(Spend([t.payout], 0, WithExtension(BuiltOutputs(payouts), extension)))
  }

  /** What the transaction is made of: the contract's one input, the two payouts in the covenant's order, the packet,
      and the anchor last, which holds nothing. */
  lemma SettlementsAreMadeOf(t: Terms, crypto: Crypto, pair: Pair, extension: TxOut)
    ensures SettlementSpend(t, crypto, pair, extension).Ok?
            <==> Valid(t) && PriceFrom(t, crypto, pair.settlement.message, pair.settlement.signature).Ok?
    ensures var tx := SettlementSpend(t, crypto, pair, extension);
            tx.Ok? ==>
              && tx.value.inputValues == [t.payout] && tx.value.current == 0 && |tx.value.outputs| == 4
              && tx.value.outputs[0].pkScript == t.shortScript && tx.value.outputs[1].pkScript == t.longScript
              && tx.value.outputs[0].value + tx.value.outputs[1].value == t.payout
              && tx.value.outputs[2] == extension && tx.value.outputs[3] == TxOut(0, ANCHOR_SCRIPT)
  {
  }

  method BuildSettlement(t: Terms, crypto: Crypto, pair: Pair, extension: TxOut)
    returns (r: Result<Spend, SettlementError>)
    ensures r == SettlementSpend(t, crypto, pair, extension)
  {
    var price := PriceFrom(t, crypto, pair.settlement.message, pair.settlement.signature);
    if price.Err? {
      return Err(BadPrice(price.error));
    }
    var split := SettlementSplit(t, price.value);
    if split.Err? {
      return Err(BadSplit(split.error));
    }
    var (short, long) := split.value;
    var packet := new Packet(BuiltOutputs([TxOut(short, t.shortScript), TxOut(long, t.longScript)]));
    packet.AddEmulatorPacket(extension);
    return Ok(Spend([t.payout], 0, packet.txOut));
  }

  /** End to end: the transaction the service builds from a pair is accepted by the compiled covenant exactly
      when the pair entitles its holder to settle and the predecessor is signed too. Everything the service
      itself contributes, amounts, recipients and output order, is always right. */
  lemma BuiltSettlementIsAccepted(t: Terms, crypto: Crypto, pair: Pair, extension: TxOut)
    requires Valid(t)
    requires SettlementSpend(t, crypto, pair, extension).Ok?
    ensures Accepts(Compile(t, crypto).value, SettlementWitness(pair), crypto,
                    SettlementSpend(t, crypto, pair, extension).value)
            <==> Signed(t, crypto, pair.previous.message, pair.previous.signature)
                 && Entitles(t, pair.previous.message, pair.settlement.message)
  {
    var tx := SettlementSpend(t, crypto, pair, extension).value;
    CompiledCovenantIsCorrect(t, crypto, SettlementWitness(pair), tx);
    PriceFromIsTheCovenantsPrice(t, crypto, pair.settlement.message, pair.settlement.signature);
    assert Shaped(t, crypto, tx);
  }

  /** No valid contract is unspendable: whenever the oracle signs two messages in a row, the first before maturity
      and the second calling for settlement at any price Go can read, the service's transaction is accepted. */
  lemma EveryContractCanBeSettled(t: Terms, crypto: Crypto, sequence: Uint64, before: Uint64, at: Uint64,
                                  lastPrice: Uint64, price: Uint64, lastSig: ByteString, sig: ByteString,
                                   extension: TxOut)
    requires Valid(t) && 0 < sequence < MAX_INT64 && IsInt64(before) && IsInt64(at) && IsInt64(lastPrice)
    requires before < t.maturity && at >= t.start && 0 < price <= MAX_PRICE && Settleable(t, price, at)
    requires Signed(t, crypto, Message(before, sequence, lastPrice), lastSig)
    requires Signed(t, crypto, Message(at, sequence + 1, price), sig)
    ensures var pair := Pair(SignedPrice(Message(at, sequence + 1, price), sig),
                             SignedPrice(Message(before, sequence, lastPrice), lastSig));
            && SettlementSpend(t, crypto, pair, extension).Ok?
            && Accepts(Compile(t, crypto).value, SettlementWitness(pair), crypto,
                       SettlementSpend(t, crypto, pair, extension).value)
  {
    var pair := Pair(SignedPrice(Message(at, sequence + 1, price), sig),
                     SignedPrice(Message(before, sequence, lastPrice), lastSig));
    EntitlingMessages(t, sequence, before, at, lastPrice, price);
    PriceFromIsTheCovenantsPrice(t, crypto, pair.settlement.message, sig);
    BuiltSettlementIsAccepted(t, crypto, pair, extension);
  }

  lemma EntitlingMessages(t: Terms, sequence: Uint64, before: Uint64, at: Uint64, lastPrice: Uint64, price: Uint64)
    requires 0 < sequence < MAX_INT64 && IsInt64(before) && IsInt64(at) && IsInt64(lastPrice)
    requires before < t.maturity && at >= t.start && 0 < price <= MAX_PRICE && Settleable(t, price, at)
    ensures Entitles(t, Message(before, sequence, lastPrice), Message(at, sequence + 1, price))
    ensures |Message(at, sequence + 1, price)| == MESSAGE_LENGTH
    ensures MessageField(Message(at, sequence + 1, price), PRICE_OFFSET) == price
  {
    CovenantReadsTheMessage(before, sequence, lastPrice);
    CovenantReadsTheMessage(at, sequence + 1, price);
  }
}
