/**
 Where an arbitration waits for its signatures (service/internal/postgres/arbitrations.go,
 service/internal/app/exit.go): what the store keeps when a proposal is made a second time, and who can still be
 paid.
 */
module ArbitrationStore {
  import opened Prelude
  import opened Bytes
  import opened Terms
  import opened Arbitrations
  import opened OracleMessages
  import opened Sweep
  import CovenantCorrect
  import Vm

  /** The stored proposal: what the transaction pays, the evidence, and the signatures by key. */
  datatype Pending = Pending(arbitration: Arbitration, available: Int64, signatures: Signatures, txid: ByteString)

  /** Signing the sweep, by key, transaction and the value the sweep holds. */
  datatype Scheme = Scheme(
    sign: (ByteString, Tx, Int64) -> ByteString,
    verifies: (ByteString, Tx, Int64, ByteString) -> bool)

  /** A signature over one of two transactions is good for the other only when they are the same. */
  predicate TellsApart(scheme: Scheme, key: ByteString, signed: Tx, other: Tx, amount: Int64) {
    var sig := scheme.sign(key, signed, amount);
    sig != [] && (scheme.verifies(key, other, amount, sig) <==> other == signed)
  }

  /** ArbitrationRepo.Put: a row that exists takes the signatures and the txid, and nothing else. */
  function Put(stored: Option<Pending>, p: Pending): Option<Pending> {
    match stored
    case None => Some(p)
    case Some(first) => Some(first.(signatures := p.signatures, txid := p.txid))
  }

  /** A new proposal by the service, with its own signature on it. */
  function ByService(scheme: Scheme, service: ByteString, a: Arbitration, available: Int64): Pending
    requires a.tx.Some?
  {
    Pending(a, available, map[service := scheme.sign(service, a.tx.value, available)], [])
  }

  /** Arbitrate again after a give-up: the same sweep, whatever the price is by then. */
  function PutAgain(stored: Option<Pending>, scheme: Scheme, service: ByteString, again: seq<Arbitration>,
                    available: Int64)
    : Option<Pending>
    requires forall a :: a in again ==> a.tx.Some?
  {
    if |again| == 0 then stored
    else
      Put(PutAgain(stored, scheme, service, again[..|again| - 1], available),
          ByService(scheme, service, again[|again| - 1], available))
  }

  /** What is stored after any number of proposals: the first one's transaction and evidence, the last one's
      signature. */
  lemma {:induction false} StoreMixesFirstAndLast(scheme: Scheme, service: ByteString, proposals: seq<Arbitration>,
                                                  available: Int64)
    requires |proposals| > 0 && forall a :: a in proposals ==> a.tx.Some?
    ensures PutAgain(None, scheme, service, proposals, available)
            == Some(ByService(scheme, service, proposals[|proposals| - 1], available).(arbitration := proposals[0]))
    ensures var stored := PutAgain(None, scheme, service, proposals, available).value;
            && stored.arbitration == proposals[0] && stored.available == available && stored.txid == []
            && stored.signatures
               == map[service := scheme.sign(service, proposals[|proposals| - 1].tx.value, available)]
  {
    var earlier := proposals[..|proposals| - 1];
    if |earlier| > 0 {
      StoreMixesFirstAndLast(scheme, service, earlier, available);
    }
  }

  /** A key's signature is good for the stored transaction. */
  predicate GoodFor(scheme: Scheme, p: Pending, key: ByteString) {
    p.arbitration.tx.Some? && scheme.verifies(key, p.arbitration.tx.value, p.available, SignatureOf(p.signatures, key))
  }

  /** The service's own signature survives being asked again exactly when the price since then leaves the short
      with the same share. Otherwise the row holds one split and a signature over another. */
  lemma ServiceSignatureSurvives(scheme: Scheme, service: ByteString, t: Terms, crypto: Vm.Crypto, outpoint: Outpoint,
                                 available: Int64, fee: Int64, messages: seq<ByteString>, signatures: seq<ByteString>,
                                 proposals: seq<Arbitration>)
    requires available >= 0 && |proposals| > 0 && |messages| == |signatures| == |proposals|
    requires forall i | 0 <= i < |proposals| ::
               Arbitrate(t, crypto, true, outpoint, available, fee, messages[i], signatures[i]) == Ok(proposals[i])
    requires var last := proposals[|proposals| - 1];
             last.tx.Some? && proposals[0].tx.Some?
             && TellsApart(scheme, service, last.tx.value, proposals[0].tx.value, available)
    ensures forall a :: a in proposals ==> a.tx.Some?
    ensures GoodFor(scheme, PutAgain(None, scheme, service, proposals, available).value, service)
            <==> proposals[|proposals| - 1].short == proposals[0].short
  {
    var last := |proposals| - 1;
    forall i | 0 <= i < |proposals|
      ensures proposals[i].tx == Some(PayoutTx(t, outpoint, proposals[i].short, proposals[i].long))
      ensures proposals[i].short + proposals[i].long == available - fee
    {
      ArbitrationPaysEverything(t, crypto, true, outpoint, available, fee, messages[i], signatures[i]);
    }
    StoreMixesFirstAndLast(scheme, service, proposals, available);
    SplitsDiffer(t, outpoint, proposals[0], proposals[last]);
  }

  lemma SplitsDiffer(t: Terms, outpoint: Outpoint, a: Arbitration, b: Arbitration)
    requires a.tx == Some(PayoutTx(t, outpoint, a.short, a.long))
    requires b.tx == Some(PayoutTx(t, outpoint, b.short, b.long))
    requires a.short + a.long == b.short + b.long
    ensures a.tx == b.tx <==> a.short == b.short
  {
  }

  /** The three of the sweep, in the order its script checks them. */
  function SweepKeys(short: ByteString, long: ByteString, service: ByteString): seq<ByteString> {
    [short, long, service]
  }

  /** PayOut: the witness made of what is stored spends the sweep. */
  predicate PaysOut(scheme: Scheme, p: Pending, keys: seq<ByteString>)
    requires |keys| > 0 && p.arbitration.tx.Some?
  {
    var elements := Elements(keys, SWEEP_THRESHOLD, p.signatures);
    elements.Ok? && LeafAccepts(keys, SWEEP_THRESHOLD, elements.value, (key, sig) =>
      scheme.verifies(key, p.arbitration.tx.value, p.available, sig))
  }

  lemma ChosenOfThree(a: ByteString, b: ByteString, c: ByteString, sigs: Signatures)
    ensures var (x, y, z) := (SignatureOf(sigs, a), SignatureOf(sigs, b), SignatureOf(sigs, c));
            && Available([a, b, c], sigs)
               == (if x != [] then 1 else 0) + (if y != [] then 1 else 0) + (if z != [] then 1 else 0)
            && Chosen([a, b, c], sigs, 2) == [x, y, if x != [] && y != [] then [] else z]
  {
    var keys := [a, b, c];
    assert keys[1..] == [b, c] && [b, c][1..] == [c] && [c][1..] == [];
    var n := if SignatureOf(sigs, a) != [] then 1 else 2;
    var m := if SignatureOf(sigs, b) != [] then n - 1 else n;
    assert Chosen([c], sigs, m) == [if m > 0 then SignatureOf(sigs, c) else []];
    assert Chosen([b, c], sigs, n) == [SignatureOf(sigs, b), if m > 0 then SignatureOf(sigs, c) else []];
    assert Available([c], sigs) == if SignatureOf(sigs, c) != [] then 1 else 0;
    assert Available([b, c], sigs) == (if SignatureOf(sigs, b) != [] then 1 else 0) + Available([c], sigs);
  }

  lemma AllValidOfThree(keys: seq<ByteString>, chosen: seq<ByteString>, valid: (ByteString, ByteString) -> bool)
    requires |keys| == |chosen| == 3
    ensures AllValid(keys, chosen, valid)
            <==> && (chosen[0] != [] ==> valid(keys[0], chosen[0]))
                 && (chosen[1] != [] ==> valid(keys[1], chosen[1]))
                 && (chosen[2] != [] ==> valid(keys[2], chosen[2]))
  {
  }

  /** Who can be paid, for whatever signatures are stored: both parties, or one party and a service whose
      signature is still good. The choice never looks at whether a signature is good, so a bad one in the first
      two there are spoils it. */
  lemma PayOutNeedsTwoGood(scheme: Scheme, p: Pending, short: ByteString, long: ByteString, service: ByteString)
    requires p.arbitration.tx.Some?
    ensures var (x, y, z) := (SignatureOf(p.signatures, short), SignatureOf(p.signatures, long),
                        SignatureOf(p.signatures, service));
            PaysOut(scheme, p, SweepKeys(short, long, service))
            <==> || (x != [] && y != [] && GoodFor(scheme, p, short) && GoodFor(scheme, p, long))
                 || (x != [] && y == [] && z != [] && GoodFor(scheme, p, short) && GoodFor(scheme, p, service))
                 || (x == [] && y != [] && z != [] && GoodFor(scheme, p, long) && GoodFor(scheme, p, service))
  {
    var keys := SweepKeys(short, long, service);
    var valid := (key, sig) => scheme.verifies(key, p.arbitration.tx.value, p.available, sig);
    ChosenOfThree(short, long, service, p.signatures);
    WitnessSpendsTheSweep(keys, SWEEP_THRESHOLD, p.signatures, valid);
    AllValidOfThree(keys, Chosen(keys, p.signatures, SWEEP_THRESHOLD), valid);
  }

  /** So once the service's stored signature is stale, its third of the sweep is no help to a party whose
      counterparty is gone, however good that party's own signature is. */
  lemma OnePartyIsStuck(scheme: Scheme, p: Pending, short: ByteString, long: ByteString, service: ByteString,
                        party: ByteString, sig: ByteString)
    requires p.arbitration.tx.Some? && short != service && long != service && short != long
    requires p.signatures.Keys == {service} && (party == short || party == long)
    requires !GoodFor(scheme, p, service)
    ensures !PaysOut(scheme, p.(signatures := p.signatures[party := sig]), SweepKeys(short, long, service))
  {
    PayOutNeedsTwoGood(scheme, p.(signatures := p.signatures[party := sig]), short, long, service);
  }

  // --- A stale signature -----------------------------------------------------

  /** The same exit arbitrated at 100,000 dollars and, after a give-up, at 125,000. */
  function AtPrice(crypto: Vm.Crypto, outpoint: Outpoint, sequence: Uint64, price: Uint64, sig: ByteString)
    : Result<Arbitration, ArbitrationError>
  {
    Arbitrate(EXAMPLE, crypto, true, outpoint, 19_999_000, 1_000, Message(10, sequence, price), sig)
  }

  lemma ExampleShares(price: Uint64)
    requires price == 10_000_000 || price == 12_500_000
    ensures var short := if price == 10_000_000 then 10_000_000 else 8_000_000;
            var scaled := short / 10_000 * 9_999;
            && SettlementSplit(EXAMPLE, price) == Ok((short, 20_000_000 - short))
            && ScaleToAvailable(short, 20_000_000, 19_998_000) == Ok((scaled, 19_998_000 - scaled))
  {
  }

  lemma ExampleAt(crypto: Vm.Crypto, outpoint: Outpoint, sequence: Uint64, price: Uint64, sig: ByteString)
    requires price == 10_000_000 || price == 12_500_000
    requires CovenantCorrect.Signed(EXAMPLE, crypto, Message(10, sequence, price), sig)
    ensures AtPrice(crypto, outpoint, sequence, price, sig).Ok?
    ensures var a := AtPrice(crypto, outpoint, sequence, price, sig).value;
            a.tx.Some? && a.short == if price == 10_000_000 then 9_999_000 else 7_999_200
  {
    PriceOf(EXAMPLE, crypto, 10, sequence, price, sig);
    ExampleShares(price);
  }

  /** The failing inputs, from the terms on: two prices the oracle signed for one exit give two splits, the row ends up
      with the first and the service's signature over the second, and neither party can be paid without the other. */
  lemma SignatureGoesStale(scheme: Scheme, crypto: Vm.Crypto, outpoint: Outpoint, firstSig: ByteString,
                           lastSig: ByteString, short: ByteString, long: ByteString, service: ByteString,
                           party: ByteString, sig: ByteString)
    requires CovenantCorrect.Signed(EXAMPLE, crypto, Message(10, 1, 10_000_000), firstSig)
    requires CovenantCorrect.Signed(EXAMPLE, crypto, Message(10, 2, 12_500_000), lastSig)
    requires short != service && long != service && short != long && (party == short || party == long)
    requires var (first, last) := (AtPrice(crypto, outpoint, 1, 10_000_000, firstSig),
                                   AtPrice(crypto, outpoint, 2, 12_500_000, lastSig));
             first.Ok? && last.Ok? && first.value.tx.Some? && last.value.tx.Some?
             ==> TellsApart(scheme, service, last.value.tx.value, first.value.tx.value, 19_999_000)
    ensures var (first, last) := (AtPrice(crypto, outpoint, 1, 10_000_000, firstSig),
                                  AtPrice(crypto, outpoint, 2, 12_500_000, lastSig));
            && first.Ok? && last.Ok? && first.value.tx.Some? && last.value.tx.Some?
            && var stored := PutAgain(None, scheme, service, [first.value, last.value], 19_999_000).value;
               && stored.arbitration.tx.Some? && !GoodFor(scheme, stored, service)
               && !PaysOut(scheme, stored.(signatures := stored.signatures[party := sig]),
                           SweepKeys(short, long, service))
  {
    ExampleAt(crypto, outpoint, 1, 10_000_000, firstSig);
    ExampleAt(crypto, outpoint, 2, 12_500_000, lastSig);
    var first := AtPrice(crypto, outpoint, 1, 10_000_000, firstSig).value;
    var last := AtPrice(crypto, outpoint, 2, 12_500_000, lastSig).value;
    ServiceSignatureSurvives(scheme, service, EXAMPLE, crypto, outpoint, 19_999_000, 1_000,
                             [Message(10, 1, 10_000_000), Message(10, 2, 12_500_000)],
                             [firstSig, lastSig], [first, last]);
    StoreMixesFirstAndLast(scheme, service, [first, last], 19_999_000);
    var stored := PutAgain(None, scheme, service, [first, last], 19_999_000).value;
    OnePartyIsStuck(scheme, stored, short, long, service, party, sig);
  }
}
