/**
 The early close through leaf 2 (service/internal/app/redemption.go, contract/redemption.go): a proposal, the
 packets it travels on, and the signatures that accumulate on them over two requests.
 */
module Redemptions {
  import opened Prelude
  import opened Bytes
  import opened Vm
  import opened Terms
  import opened OracleMessages
  import opened Arbitrations
  import opened ContractStore

  // --- Packets ---------------------------------------------------------------

  /** A revealed leaf and the keys its closure names. */
  datatype Leaf = Leaf(script: ByteString, keys: set<ByteString>)

  /** What a signature is over: what the transaction spends and what it pays. */
  datatype Body = Body(spends: seq<Outpoint>, outputs: seq<TxOut>)

  datatype LeafSignature = LeafSignature(key: ByteString, leaf: ByteString, over: Body)

  datatype PacketInput =
    PacketInput(spends: Outpoint, hasWitnessUtxo: bool, leaves: seq<Leaf>, signatures: seq<LeafSignature>)

  datatype Packet = Packet(inputs: seq<PacketInput>, outputs: seq<TxOut>)

  function Spends(inputs: seq<PacketInput>): seq<Outpoint> {
    seq(|inputs|, i requires 0 <= i < |inputs| => inputs[i].spends)
  }

  function BodyOf(packet: Packet): Body {
    Body(Spends(packet.inputs), packet.outputs)
  }

  datatype SignError = NoWitnessUtxo(input: nat) | SignsNothing

  /** One signature for every leaf that names the key. */
  function SignaturesFor(leaves: seq<Leaf>, key: ByteString, over: Body): seq<LeafSignature> {
    if |leaves| == 0 then []
    else
      var last := leaves[|leaves| - 1];
      var earlier := SignaturesFor(leaves[..|leaves| - 1], key, over);
      if key in last.keys then earlier + [LeafSignature(key, last.script, over)] else earlier
  }

  function SignedInput(input: PacketInput, key: ByteString, over: Body): PacketInput {
    input.(signatures := input.signatures + SignaturesFor(input.leaves, key, over))
  }

  predicate Names(input: PacketInput, key: ByteString) {
    exists j | 0 <= j < |input.leaves| :: key in input.leaves[j].keys
  }

  predicate CanSign(inputs: seq<PacketInput>, key: ByteString) {
    && (forall i | 0 <= i < |inputs| :: inputs[i].hasWitnessUtxo)
    && (exists i | 0 <= i < |inputs| :: Names(inputs[i], key))
  }

  function SignedInputs(inputs: seq<PacketInput>, key: ByteString, over: Body): seq<PacketInput> {
    seq(|inputs|, i requires 0 <= i < |inputs| => SignedInput(inputs[i], key, over))
  }

  /** SignTapscript: the key's signature over the transaction goes on every input whose revealed leaf names it,
      in place. */
  method SignTapscript(key: ByteString, inputs: array<PacketInput>,
                       outputs: seq<TxOut>) returns (err: Option<SignError>)
    modifies inputs
    ensures err.None? <==> CanSign(old(inputs[..]), key)
    ensures err.None? ==> inputs[..] == SignedInputs(old(inputs[..]), key, Body(Spends(old(inputs[..])), outputs))
  {
    for i := 0 to inputs.Length
      invariant forall k | 0 <= k < i :: inputs[k].hasWitnessUtxo
      invariant inputs[..] == old(inputs[..])
    {
      if !inputs[i].hasWitnessUtxo {
        return Some(NoWitnessUtxo(i));
      }
    }
    var over := Body(Spends(inputs[..]), outputs);
    var signed := 0;
    for i := 0 to inputs.Length
      invariant forall k | 0 <= k < i :: inputs[k] == SignedInput(old(inputs[..])[k], key, over)
      invariant forall k | i <= k < inputs.Length :: inputs[k] == old(inputs[..])[k]
      invariant signed > 0 <==> exists k | 0 <= k < i :: Names(old(inputs[..])[k], key)
      invariant signed >= 0
    {
      ghost var before := old(inputs[..])[i];
      ghost var earlier := signed;
      var leaves := inputs[i].leaves;
      for j := 0 to |leaves|
        invariant inputs[i] == before.(signatures := before.signatures + SignaturesFor(leaves[..j], key, over))
        invariant forall k | 0 <= k < i :: inputs[k] == SignedInput(old(inputs[..])[k], key, over)
        invariant forall k | i < k < inputs.Length :: inputs[k] == old(inputs[..])[k]
        invariant signed >= earlier && (signed > earlier <==> exists k | 0 <= k < j :: key in leaves[k].keys)
      {
        assert leaves[..j + 1][..j] == leaves[..j];
        if key in leaves[j].keys {
          var signature := LeafSignature(key, leaves[j].script, over);
          inputs[i] := inputs[i].(signatures := inputs[i].signatures + [signature]);
          signed := signed + 1;
        }
      }
      assert leaves[..|leaves|] == leaves;
      assert Names(before, key) <==> signed > earlier;
    }
    if signed == 0 {
      return Some(SignsNothing);
    }
    return None;
  }

  /** The signer's whole call: a packet in, the packet with one more party on it out. */
  function SignLeaf(packet: Packet, key: ByteString): Option<Packet> {
    if CanSign(packet.inputs, key) then Some(packet.(inputs := SignedInputs(packet.inputs, key, BodyOf(packet))))
    else None
  }

  /** Every leaf that names the key carries its signature over this transaction and no other. */
  predicate InputSignedBy(input: PacketInput, key: ByteString, over: Body) {
    forall j | 0 <= j < |input.leaves| ::
      key in input.leaves[j].keys ==> LeafSignature(key, input.leaves[j].script, over) in input.signatures
  }

  predicate SignedBy(packet: Packet, key: ByteString) {
    && (exists i | 0 <= i < |packet.inputs| :: Names(packet.inputs[i], key))
    && (forall i | 0 <= i < |packet.inputs| :: InputSignedBy(packet.inputs[i], key, BodyOf(packet)))
  }

  predicate InputFree(input: PacketInput, key: ByteString) {
    forall s :: s in input.signatures ==> s.key != key
  }

  /** Nothing on the packet was signed by the key. */
  predicate FreeOf(packet: Packet, key: ByteString) {
    forall i | 0 <= i < |packet.inputs| :: InputFree(packet.inputs[i], key)
  }

  lemma {:induction false} SignaturesForAre(leaves: seq<Leaf>, key: ByteString, over: Body)
    ensures forall s :: s in SignaturesFor(leaves, key, over) ==> s.key == key
    ensures forall j | 0 <= j < |leaves| ::
              key in leaves[j].keys ==> LeafSignature(key, leaves[j].script, over) in SignaturesFor(leaves, key, over)
  {
    if |leaves| > 0 {
      SignaturesForAre(leaves[..|leaves| - 1], key, over);
    }
  }

  lemma SigningAnInput(input: PacketInput, key: ByteString, other: ByteString, over: Body)
    ensures InputSignedBy(SignedInput(input, key, over), key, over)
    ensures InputSignedBy(input, other, over) ==> InputSignedBy(SignedInput(input, key, over), other, over)
    ensures InputFree(input, other) && other != key ==> InputFree(SignedInput(input, key, over), other)
    ensures forall k :: Names(SignedInput(input, key, over), k) <==> Names(input, k)
  {
    SignaturesForAre(input.leaves, key, over);
  }

  /** Signing leaves the transaction as it is, and whoever could sign it still can. */
  lemma SigningKeepsTheBody(packet: Packet, key: ByteString, other: ByteString)
    requires SignLeaf(packet, key).Some?
    ensures BodyOf(SignLeaf(packet, key).value) == BodyOf(packet)
    ensures CanSign(SignLeaf(packet, key).value.inputs, other) <==> CanSign(packet.inputs, other)
  {
    var signed := SignLeaf(packet, key).value;
    forall i | 0 <= i < |packet.inputs| ensures Names(signed.inputs[i], other) <==> Names(packet.inputs[i], other) {
      SigningAnInput(packet.inputs[i], key, other, BodyOf(packet));
    }
  }

  /** Signing puts the key everywhere it is needed. */
  lemma SigningAdds(packet: Packet, key: ByteString)
    requires SignLeaf(packet, key).Some?
    ensures SignedBy(SignLeaf(packet, key).value, key)
  {
    var signed := SignLeaf(packet, key).value;
    SigningKeepsTheBody(packet, key, key);
    forall i | 0 <= i < |packet.inputs| ensures InputSignedBy(signed.inputs[i], key, BodyOf(packet)) {
      SigningAnInput(packet.inputs[i], key, key, BodyOf(packet));
    }
  }

  lemma SigningKeepsOthers(packet: Packet, key: ByteString, other: ByteString)
    requires SignLeaf(packet, key).Some? && SignedBy(packet, other)
    ensures SignedBy(SignLeaf(packet, key).value, other)
  {
    var signed := SignLeaf(packet, key).value;
    SigningKeepsTheBody(packet, key, other);
    forall i | 0 <= i < |packet.inputs| ensures InputSignedBy(signed.inputs[i], other, BodyOf(packet)) {
      SigningAnInput(packet.inputs[i], key, other, BodyOf(packet));
    }
    var m :| 0 <= m < |packet.inputs| && Names(packet.inputs[m], other);
    assert Names(signed.inputs[m], other);
  }

  lemma SigningAddsNobodyElse(packet: Packet, key: ByteString, other: ByteString)
    requires SignLeaf(packet, key).Some? && FreeOf(packet, other) && other != key
    ensures FreeOf(SignLeaf(packet, key).value, other)
  {
    var signed := SignLeaf(packet, key).value;
    forall i | 0 <= i < |packet.inputs| ensures InputFree(signed.inputs[i], other) {
      SigningAnInput(packet.inputs[i], key, other, BodyOf(packet));
    }
  }

  /** Signing puts the key everywhere it is needed, keeps the other party's signatures, and adds nobody else's. */
  lemma SigningSigns(packet: Packet, key: ByteString, other: ByteString)
    requires SignLeaf(packet, key).Some?
    ensures var signed := SignLeaf(packet, key).value;
            && SignedBy(signed, key) && BodyOf(signed) == BodyOf(packet)
            && (SignedBy(packet, other) ==> SignedBy(signed, other))
            && (FreeOf(packet, other) && other != key ==> FreeOf(signed, other))
  {
    SigningKeepsTheBody(packet, key, other);
    SigningAdds(packet, key);
    if SignedBy(packet, other) {
      SigningKeepsOthers(packet, key, other);
    }
    if FreeOf(packet, other) && other != key {
      SigningAddsNobodyElse(packet, key, other);
    }
  }

  // --- Proposals -------------------------------------------------------------

  datatype Proposal = Proposal(
    id: nat, short: Int64, long: Int64, price: Int64, message: ByteString, signature: ByteString,
    arkTx: Packet, checkpoints: seq<Packet>, shortSigned: bool, longSigned: bool)

  predicate Signed(p: Proposal) {
    p.shortSigned && p.longSigned
  }

  predicate HasSigned(p: Proposal, side: Side) {
    if side.Short? then p.shortSigned else p.longSigned
  }

  function MarkSigned(p: Proposal, side: Side): Proposal {
    if side.Short? then p.(shortSigned := true) else p.(longSigned := true)
  }

  predicate FromOracle(p: Proposal) {
    |p.signature| > 0
  }

  /** Every packet that has to be signed: the transaction, then its checkpoints. */
  function Packets(p: Proposal): seq<Packet> {
    [p.arkTx] + p.checkpoints
  }

  predicate AllSignedBy(packets: seq<Packet>, key: ByteString) {
    forall i | 0 <= i < |packets| :: SignedBy(packets[i], key)
  }

  predicate AllFreeOf(packets: seq<Packet>, key: ByteString) {
    forall i | 0 <= i < |packets| :: FreeOf(packets[i], key)
  }

  /** signRedemption: the transaction, then every checkpoint, then the flag; or nothing. */
  function SignAll(packets: seq<Packet>, key: ByteString): Option<seq<Packet>> {
    if |packets| == 0 then Some([])
    else
      var n := |packets| - 1;
      match (SignAll(packets[..n], key), SignLeaf(packets[n], key))
      case (Some(earlier), Some(last)) => Some(earlier + [last])
      case _ => None
  }

  function SignProposal(p: Proposal, side: Side, key: ByteString): Option<Proposal> {
    match (SignLeaf(p.arkTx, key), SignAll(p.checkpoints, key))
    case (Some(arkTx), Some(checkpoints)) => Some(MarkSigned(p.(arkTx := arkTx, checkpoints := checkpoints), side))
    case _ => None
  }

  /** A proposal in memory. Its packets are replaced one by one as they come back from the signer. */
  class Redemption {
    const offer: Proposal
    var arkTx: Packet
    var checkpoints: seq<Packet>
    var shortSigned: bool
    var longSigned: bool

    constructor (p: Proposal)
      ensures Value() == p
    {
      offer := p;
      arkTx, checkpoints, shortSigned, longSigned := p.arkTx, p.checkpoints, p.shortSigned, p.longSigned;
    }

    function Value(): Proposal
      reads this
    {
      offer.(arkTx := arkTx, checkpoints := checkpoints, shortSigned := shortSigned, longSigned := longSigned)
    }

    /** signRedemption. An error part of the way leaves signed packets behind without the flag, in an object
        nobody stores. */
    method Sign(side: Side, key: ByteString) returns (ok: bool)
      modifies this
      ensures ok <==> SignProposal(old(Value()), side, key).Some?
      ensures ok ==> Value() == SignProposal(old(Value()), side, key).value
      ensures !ok ==> shortSigned == old(shortSigned) && longSigned == old(longSigned)
    {
      var signed := SignLeaf(arkTx, key);
      if signed.None? {
        return false;
      }
      arkTx := signed.value;
      ok := SignCheckpoints(key);
      if ok {
        if side.Short? {
          shortSigned := true;
        } else {
          longSigned := true;
        }
      }
    }

    method SignCheckpoints(key: ByteString) returns (ok: bool)
      modifies this`checkpoints
      ensures ok <==> SignAll(old(checkpoints), key).Some?
      ensures ok ==> checkpoints == SignAll(old(checkpoints), key).value
    {
      ghost var was := checkpoints;
      for i := 0 to |checkpoints|
        invariant |checkpoints| == |was|
        invariant forall k | i <= k < |was| :: checkpoints[k] == was[k]
        invariant SignAll(was[..i], key) == Some(checkpoints[..i])
      {
        assert was[..i + 1][..i] == was[..i];
        var next := SignLeaf(checkpoints[i], key);
        if next.None? {
          SignAllFails(was, i, key);
          return false;
        }
        checkpoints := checkpoints[i := next.value];
        assert checkpoints[..i + 1] == checkpoints[..i] + [next.value];
      }
      assert was[..|was|] == was && checkpoints[..|was|] == checkpoints;
      return true;
    }
  }

  lemma {:induction false} SignAllFails(packets: seq<Packet>, i: nat, key: ByteString)
    requires i < |packets| && SignLeaf(packets[i], key).None?
    ensures SignAll(packets, key).None?
  {
    if i < |packets| - 1 {
      SignAllFails(packets[..|packets| - 1], i, key);
    }
  }

  lemma {:induction false} SignAllSignsEach(packets: seq<Packet>, key: ByteString)
    requires SignAll(packets, key).Some?
    ensures |SignAll(packets, key).value| == |packets|
    ensures forall i | 0 <= i < |packets| :: SignLeaf(packets[i], key) == Some(SignAll(packets, key).value[i])
  {
    if |packets| > 0 {
      SignAllSignsEach(packets[..|packets| - 1], key);
    }
  }

  lemma SigningAllKeepsTheBodies(packets: seq<Packet>, key: ByteString)
    requires SignAll(packets, key).Some?
    ensures var signed := SignAll(packets, key).value;
            |signed| == |packets| && forall i | 0 <= i < |packets| :: BodyOf(signed[i]) == BodyOf(packets[i])
  {
    SignAllSignsEach(packets, key);
    forall i | 0 <= i < |packets| ensures BodyOf(SignAll(packets, key).value[i]) == BodyOf(packets[i]) {
      SigningKeepsTheBody(packets[i], key, key);
    }
  }

  // --- Checks ----------------------------------------------------------------

  /** What the early close needs to know about the world around it. */
  datatype Operator = Operator(crypto: Crypto, dust: Int64, leafScript: Core -> ByteString, anchor: TxOut,
                               checkpointOutputs: seq<TxOut>, txid: Body -> ByteString)

  /** The service's checkSplit: int64 addition, then the operator's dust. */
  predicate SplitChecks(op: Operator, t: Terms, short: Int64, long: Int64) {
    Wrap64(short + long) == t.payout && short >= op.dust && long >= op.dust
  }

  /** contract.checkSplit, run again by the builder. */
  predicate BuilderChecks(t: Terms, short: Int64, long: Int64) {
    short >= DUST && long >= DUST && Wrap64(short + long) == t.payout
  }

  /** Amounts chosen to wrap do not get through: two amounts that clear dust and add up in 64 bits add up. */
  lemma SplitCheckCannotWrap(t: Terms, short: Int64, long: Int64)
    requires BuilderChecks(t, short, long) && t.payout >= 0
    ensures short + long == t.payout
  {
  }

  /** The one checkpoint: it spends the contract through leaf 2. */
  function Checkpoint(op: Operator, core: Core, outpoint: Outpoint): Packet {
    var leaf := Leaf(op.leafScript(core), {core.shortKey, core.longKey, core.arkdSigner});
    Packet([PacketInput(outpoint, true, [leaf], [])], op.checkpointOutputs)
  }

  /** BuildRedemption: one transaction spending one checkpoint, both revealing leaf 2, unsigned. */
  function BuildClose(op: Operator, core: Core, outpoint: Outpoint, short: Int64, long: Int64)
    : Option<(Packet, seq<Packet>)>
  {
    if !core.mutualRedemption || !BuilderChecks(core.terms, short, long) then None
    else
      var checkpoint := Checkpoint(op, core, outpoint);
      var input := checkpoint.inputs[0].(spends := Outpoint(op.txid(BodyOf(checkpoint)), 0));
      Some((Packet([input], [TxOut(short, core.terms.shortScript), TxOut(long, core.terms.longScript), op.anchor]),
            [checkpoint]))
  }

  /** Contract.SideOf: the short side is looked at first. */
  function SideOf(core: Core, who: User): Option<Side> {
    if core.shortUser == Some(who) then Some(Short)
    else if core.longUser == Some(who) then Some(Long)
    else None
  }

  function Other(side: Side): Side {
    if side.Short? then Long else Short
  }

  /** An empty split means the oracle's price. */
  function Offered(op: Operator, core: Core, short: Int64, long: Int64, message: ByteString, signature: ByteString)
    : Option<(Int64, Int64, Int64, ByteString, ByteString)>
  {
    if short != 0 || long != 0 then Some((short, long, 0, [], []))
    else
      match PriceFrom(core.terms, op.crypto, message, signature)
      case Err(_) => None
      case Ok(price) =>
        match SettlementSplit(core.terms, price)
        case Err(_) => None
        case Ok((s, l)) => Some((s, l, price, message, signature))
  }

  /** What a proposer asks for. The id is a fresh uuid. */
  datatype Request =
    Request(id: nat, who: User, short: Int64, long: Int64, message: ByteString, signature: ByteString)

  /** ProposeRedemption before anyone signs: split, checks, packets. */
  function Draft(op: Operator, core: Core, outpoint: Outpoint, q: Request): Option<Proposal> {
    match Offered(op, core, q.short, q.long, q.message, q.signature)
    case None => None
    case Some((s, l, price, message, signature)) =>
      if !SplitChecks(op, core.terms, s, l) then None
      else
        match BuildClose(op, core, outpoint, s, l)
        case None => None
        case Some((arkTx, checkpoints)) =>
          Some(Proposal(q.id, s, l, price, message, signature, arkTx, checkpoints, false, false))
  }

  /** And up to its Put: the proposer signs on the way out. */
  function Propose(op: Operator, core: Core, outpoint: Outpoint, q: Request, key: ByteString): Option<Proposal> {
    match (SideOf(core, q.who), Draft(op, core, outpoint, q))
    case (Some(side), Some(draft)) => SignProposal(draft, side, key)
    case _ => None
  }

  /** verifyRedemption: the split again, from the proposal's own evidence. */
  predicate Verifies(op: Operator, core: Core, p: Proposal) {
    && SplitChecks(op, core.terms, p.short, p.long)
    && (FromOracle(p) ==>
          && PriceFrom(core.terms, op.crypto, p.message, p.signature) == Ok(p.price)
          && SettlementSplit(core.terms, p.price) == Ok((p.short, p.long)))
  }

  /** SignRedemption up to its Put. A side that has signed already stores nothing. */
  function Countersign(op: Operator, core: Core, who: User, key: ByteString, p: Proposal): Option<Proposal> {
    match SideOf(core, who)
    case None => None
    case Some(side) =>
      if HasSigned(p, side) || !Verifies(op, core, p) then None
      else SignProposal(p, side, key)
  }

  // --- What every stored proposal keeps --------------------------------------

  function KeyOn(core: Core, side: Side): ByteString {
    if side.Short? then core.shortKey else core.longKey
  }

  /** Every leaf that names the side's key carries its signature, or, before the side has signed, none does. */
  predicate FlagMatches(core: Core, p: Proposal, side: Side) {
    if HasSigned(p, side) then AllSignedBy(Packets(p), KeyOn(core, side))
    else core.shortKey != core.longKey ==> AllFreeOf(Packets(p), KeyOn(core, side))
  }

  /** One input, revealing one leaf that names both parties. */
  predicate RevealsOneLeaf(core: Core, packet: Packet) {
    && |packet.inputs| == 1 && |packet.inputs[0].leaves| == 1 && packet.inputs[0].hasWitnessUtxo
    && core.shortKey in packet.inputs[0].leaves[0].keys && core.longKey in packet.inputs[0].leaves[0].keys
  }

  function Once(has: bool, signature: LeafSignature): multiset<LeafSignature> {
    if has then multiset{signature} else multiset{}
  }

  /** The signatures on a packet, counted: one of each side that has signed, and not one more. */
  predicate CarriesOneEach(core: Core, packet: Packet, short: bool, long: bool) {
    && RevealsOneLeaf(core, packet)
    && var leaf := packet.inputs[0].leaves[0].script;
       multiset(packet.inputs[0].signatures)
       == Once(short, LeafSignature(core.shortKey, leaf, BodyOf(packet)))
          + Once(long, LeafSignature(core.longKey, leaf, BodyOf(packet)))
  }

  predicate AllCarryOneEach(core: Core, packets: seq<Packet>, short: bool, long: bool) {
    forall i | 0 <= i < |packets| :: CarriesOneEach(core, packets[i], short, long)
  }

  /** The flags say what the packets carry, to the signature. */
  predicate FlagsExact(core: Core, p: Proposal) {
    AllCarryOneEach(core, Packets(p), p.shortSigned, p.longSigned)
  }

  /** A proposal worth storing: it pays both sides what it says, that adds up to what the contract holds, it is
      the formula's own split when it comes with evidence, and its flags are true. */
  predicate Sound(op: Operator, core: Core, p: Proposal) {
    && p.short + p.long == core.terms.payout && p.short >= DUST && p.long >= DUST
    && |p.arkTx.outputs| >= 2
    && p.arkTx.outputs[0] == TxOut(p.short, core.terms.shortScript)
    && p.arkTx.outputs[1] == TxOut(p.long, core.terms.longScript)
    && (FromOracle(p) ==>
          && PriceFrom(core.terms, op.crypto, p.message, p.signature) == Ok(p.price)
          && SettlementSplit(core.terms, p.price) == Ok((p.short, p.long)))
    && FlagsExact(core, p)
  }

  /** The close is of this outpoint: the checkpoint spends it alone, and the transaction spends the checkpoint. */
  predicate Closes(op: Operator, p: Proposal, outpoint: Outpoint) {
    && |p.checkpoints| == 1 && BodyOf(p.checkpoints[0]).spends == [outpoint]
    && BodyOf(p.arkTx).spends == [Outpoint(op.txid(BodyOf(p.checkpoints[0])), 0)]
  }

  /** Each side's key is its user's. */
  predicate KeysAreTheirs(core: Core, keyOf: User -> ByteString) {
    && (core.shortUser.Some? ==> core.shortKey == keyOf(core.shortUser.value))
    && (core.longUser.Some? ==> core.longKey == keyOf(core.longUser.value))
  }

  lemma OneLeafOneSignature(leaf: Leaf, key: ByteString, over: Body)
    requires key in leaf.keys
    ensures SignaturesFor([leaf], key, over) == [LeafSignature(key, leaf.script, over)]
  {
    assert [leaf][..0] == [];
  }

  /** A side that had not signed adds its one signature. */
  lemma SigningCarriesOneMore(core: Core, packet: Packet, short: bool, long: bool, side: Side)
    requires CarriesOneEach(core, packet, short, long) && !(if side.Short? then short else long)
    requires SignLeaf(packet, KeyOn(core, side)).Some?
    ensures CarriesOneEach(core, SignLeaf(packet, KeyOn(core, side)).value, short || side.Short?, long || side.Long?)
  {
    var key := KeyOn(core, side);
    var input := packet.inputs[0];
    SigningKeepsTheBody(packet, key, key);
    OneLeafOneSignature(input.leaves[0], key, BodyOf(packet));
    assert input.leaves == [input.leaves[0]];
    assert multiset(input.signatures + [LeafSignature(key, input.leaves[0].script, BodyOf(packet))])
        == multiset(input.signatures) + multiset{LeafSignature(key, input.leaves[0].script, BodyOf(packet))};
  }

  lemma SigningKeepsFlags(core: Core, p: Proposal, side: Side)
    requires FlagsExact(core, p) && !HasSigned(p, side)
    requires SignProposal(p, side, KeyOn(core, side)).Some?
    ensures FlagsExact(core, SignProposal(p, side, KeyOn(core, side)).value)
  {
    var signed := SignProposal(p, side, KeyOn(core, side)).value;
    var packets, after := Packets(p), Packets(signed);
    SignAllSignsEach(p.checkpoints, KeyOn(core, side));
    forall i | 0 <= i < |after| ensures CarriesOneEach(core, after[i], signed.shortSigned, signed.longSigned) {
      assert SignLeaf(packets[i], KeyOn(core, side)) == Some(after[i]);
      SigningCarriesOneMore(core, packets[i], p.shortSigned, p.longSigned, side);
    }
  }

  /** Where it is counted it is there, and where it is not counted it is not. */
  lemma CountedIsThere(core: Core, packet: Packet, short: bool, long: bool, side: Side)
    requires CarriesOneEach(core, packet, short, long)
    ensures if if side.Short? then short else long then SignedBy(packet, KeyOn(core, side))
            else core.shortKey != core.longKey ==> FreeOf(packet, KeyOn(core, side))
  {
    var input := packet.inputs[0];
    assert Names(input, KeyOn(core, side));
    assert forall s :: s in input.signatures <==> s in multiset(input.signatures);
  }

  lemma ExactFlagsMatch(core: Core, p: Proposal, side: Side)
    requires FlagsExact(core, p)
    ensures FlagMatches(core, p, side)
  {
    var packets := Packets(p);
    forall i | 0 <= i < |packets|
      ensures if HasSigned(p, side) then SignedBy(packets[i], KeyOn(core, side))
              else core.shortKey != core.longKey ==> FreeOf(packets[i], KeyOn(core, side)) {
      CountedIsThere(core, packets[i], p.shortSigned, p.longSigned, side);
    }
  }

  /** Two parties with a key each sign once each. One key for both would be on every packet twice, which no operator
      takes: that, and nothing else, is what stands in the way. */
  lemma SignedTwiceExactly(core: Core, packet: Packet)
    requires CarriesOneEach(core, packet, true, true)
    ensures var input := packet.inputs[0];
            && |input.signatures| == 2
            && (input.signatures[0].key == input.signatures[1].key <==> core.shortKey == core.longKey)
            && {input.signatures[0].key, input.signatures[1].key} == {core.shortKey, core.longKey}
  {
    var input := packet.inputs[0];
    var leaf := input.leaves[0].script;
    var short, long := LeafSignature(core.shortKey, leaf, BodyOf(packet)),
                       LeafSignature(core.longKey, leaf, BodyOf(packet));
    assert |multiset(input.signatures)| == 2;
    var a, b := input.signatures[0], input.signatures[1];
    assert input.signatures == [a, b];
    assert multiset{a, b} == multiset{short, long};
    assert a in multiset{short, long} && short in multiset{a, b} && long in multiset{a, b};
    assert a == b ==> multiset{a, b}[a] == 2;
  }

  lemma SigningKeepsSound(op: Operator, core: Core, p: Proposal, side: Side)
    requires Sound(op, core, p) && !HasSigned(p, side) && SignProposal(p, side, KeyOn(core, side)).Some?
    ensures Sound(op, core, SignProposal(p, side, KeyOn(core, side)).value)
  {
    var signed := SignProposal(p, side, KeyOn(core, side)).value;
    SigningKeepsFlags(core, p, side);
    SigningKeepsTheBody(p.arkTx, KeyOn(core, side), []);
    assert BodyOf(signed.arkTx).outputs == BodyOf(p.arkTx).outputs;
  }

  lemma SigningKeepsTheOutpoint(op: Operator, p: Proposal, side: Side, key: ByteString, outpoint: Outpoint)
    requires SignProposal(p, side, key).Some?
    ensures Closes(op, SignProposal(p, side, key).value, outpoint) <==> Closes(op, p, outpoint)
  {
    SigningKeepsTheBody(p.arkTx, key, key);
    SigningAllKeepsTheBodies(p.checkpoints, key);
  }

  lemma OfferedIsTheFormula(op: Operator, core: Core, short: Int64, long: Int64, message: ByteString,
                            signature: ByteString)
    requires Offered(op, core, short, long, message, signature).Some?
    ensures var (s, l, price, m, sig) := Offered(op, core, short, long, message, signature).value;
            |sig| > 0 ==>
              PriceFrom(core.terms, op.crypto, m, sig) == Ok(price) && SettlementSplit(core.terms, price) == Ok((s, l))
  {
  }

  lemma DraftsAreSound(op: Operator, core: Core, outpoint: Outpoint, q: Request)
    requires Draft(op, core, outpoint, q).Some? && core.terms.payout >= 0
    ensures var p := Draft(op, core, outpoint, q).value;
            Sound(op, core, p) && Closes(op, p, outpoint) && Verifies(op, core, p)
  {
    var p := Draft(op, core, outpoint, q).value;
    OfferedIsTheFormula(op, core, q.short, q.long, q.message, q.signature);
    SplitCheckCannotWrap(core.terms, p.short, p.long);
    assert BodyOf(p.checkpoints[0]).spends == [outpoint];
    assert forall packet | packet in Packets(p) :: CarriesOneEach(core, packet, false, false);
  }

  /** Whatever is proposed is sound and closes the contract it was made for, wherever its numbers came from. */
  lemma ProposalsAreSound(op: Operator, core: Core, outpoint: Outpoint, q: Request, keyOf: User -> ByteString)
    requires KeysAreTheirs(core, keyOf) && core.terms.payout >= 0
    requires Propose(op, core, outpoint, q, keyOf(q.who)).Some?
    ensures var p := Propose(op, core, outpoint, q, keyOf(q.who)).value;
            Sound(op, core, p) && Closes(op, p, outpoint)
  {
    var side := SideOf(core, q.who).value;
    assert KeyOn(core, side) == keyOf(q.who);
    DraftsAreSound(op, core, outpoint, q);
    SigningKeepsSound(op, core, Draft(op, core, outpoint, q).value, side);
    SigningKeepsTheOutpoint(op, Draft(op, core, outpoint, q).value, side, keyOf(q.who), outpoint);
  }

  /** And stays sound, and of the same contract, when the other party signs. */
  lemma CountersigningKeepsSound(op: Operator, core: Core, who: User, keyOf: User -> ByteString, p: Proposal)
    requires KeysAreTheirs(core, keyOf) && Sound(op, core, p)
    requires Countersign(op, core, who, keyOf(who), p).Some?
    ensures Sound(op, core, Countersign(op, core, who, keyOf(who), p).value)
    ensures forall outpoint :: Closes(op, Countersign(op, core, who, keyOf(who), p).value, outpoint)
                               <==> Closes(op, p, outpoint)
  {
    var side := SideOf(core, who).value;
    assert KeyOn(core, side) == keyOf(who);
    SigningKeepsSound(op, core, p, side);
    forall outpoint ensures Closes(op, Countersign(op, core, who, keyOf(who), p).value, outpoint)
                     <==> Closes(op, p, outpoint) {
      SigningKeepsTheOutpoint(op, p, side, keyOf(who), outpoint);
    }
  }

  // --- The second signature --------------------------------------------------

  /** A key that every packet of a proposal has a place for. */
  predicate CanSignAll(packets: seq<Packet>, key: ByteString) {
    forall i | 0 <= i < |packets| :: CanSign(packets[i].inputs, key)
  }

  lemma {:induction false} SignAllSucceeds(packets: seq<Packet>, key: ByteString)
    requires CanSignAll(packets, key)
    ensures SignAll(packets, key).Some?
  {
    if |packets| > 0 {
      SignAllSucceeds(packets[..|packets| - 1], key);
    }
  }

  lemma {:induction false} SigningAllLeavesRoom(packets: seq<Packet>, key: ByteString, other: ByteString)
    requires SignAll(packets, key).Some? && CanSignAll(packets, other)
    ensures CanSignAll(SignAll(packets, key).value, other)
  {
    if |packets| > 0 {
      var n := |packets| - 1;
      SigningAllLeavesRoom(packets[..n], key, other);
      SigningKeepsTheBody(packets[n], key, other);
    }
  }

  lemma SecondSignatureSucceeds(p: Proposal, side: Side, mine: ByteString, theirs: ByteString)
    requires SignProposal(p, side, mine).Some?
    requires CanSign(p.arkTx.inputs, theirs) && CanSignAll(p.checkpoints, theirs)
    ensures forall other :: SignProposal(SignProposal(p, side, mine).value, other, theirs).Some?
  {
    SigningKeepsTheBody(p.arkTx, mine, theirs);
    SigningAllLeavesRoom(p.checkpoints, mine, theirs);
    SignAllSucceeds(SignProposal(p, side, mine).value.checkpoints, theirs);
  }

  lemma LeafTwoNamesBoth(packet: Packet, op: Operator, core: Core, side: Side)
    requires |packet.inputs| == 1 && packet.inputs[0].hasWitnessUtxo
    requires packet.inputs[0].leaves == [Leaf(op.leafScript(core), {core.shortKey, core.longKey, core.arkdSigner})]
    ensures CanSign(packet.inputs, KeyOn(core, side))
  {
    assert KeyOn(core, side) in packet.inputs[0].leaves[0].keys;
    assert Names(packet.inputs[0], KeyOn(core, side));
  }

  lemma DraftsNameBoth(op: Operator, core: Core, outpoint: Outpoint, q: Request, side: Side)
    requires Draft(op, core, outpoint, q).Some?
    ensures var p := Draft(op, core, outpoint, q).value;
            CanSign(p.arkTx.inputs, KeyOn(core, side)) && CanSignAll(p.checkpoints, KeyOn(core, side))
  {
    var p := Draft(op, core, outpoint, q).value;
    LeafTwoNamesBoth(p.arkTx, op, core, side);
    LeafTwoNamesBoth(p.checkpoints[0], op, core, side);
  }

  /** Both amounts clear both dust limits, and add up in 64 bits. */
  predicate Payable(op: Operator, t: Terms, short: Int64, long: Int64) {
    && short >= DUST && long >= DUST && short >= op.dust && long >= op.dust
    && Wrap64(short + long) == t.payout
  }

  /** When there is a proposal: a party asks for it, the contract has a second leaf, and the amounts asked for, or the
      formula's at a readable price when none are, can be paid. */
  lemma ProposesExactly(op: Operator, core: Core, outpoint: Outpoint, q: Request, keyOf: User -> ByteString)
    requires KeysAreTheirs(core, keyOf)
    ensures Propose(op, core, outpoint, q, keyOf(q.who)).Some?
            <==> && SideOf(core, q.who).Some? && core.mutualRedemption
                 && if q.short == 0 && q.long == 0 then
                      && var price := PriceFrom(core.terms, op.crypto, q.message, q.signature);
                         price.Ok? && Valid(core.terms)
                         && Payable(op, core.terms, SettlementSplit(core.terms, price.value).value.0,
                                    SettlementSplit(core.terms, price.value).value.1)
                    else Payable(op, core.terms, q.short, q.long)
  {
    var draft := Draft(op, core, outpoint, q);
    if SideOf(core, q.who).Some? && draft.Some? {
      var side := SideOf(core, q.who).value;
      assert KeyOn(core, side) == keyOf(q.who);
      DraftsNameBoth(op, core, outpoint, q, side);
      SignAllSucceeds(draft.value.checkpoints, keyOf(q.who));
    }
  }

  /** A proposal is what was asked for: the short gets what was asked for the short and the long what was asked for the
      long, without evidence; or, when nothing was, the evidence is the message that was read. Its proposer has signed
      it and nobody else. */
  lemma ProposalsAreAsAsked(op: Operator, core: Core, outpoint: Outpoint, q: Request, key: ByteString)
    requires Propose(op, core, outpoint, q, key).Some?
    ensures var p := Propose(op, core, outpoint, q, key).value;
            && p.id == q.id && SideOf(core, q.who).Some?
            && (if q.short != 0 || q.long != 0 then
                  && p.short == q.short && p.long == q.long && p.price == 0 && p.message == [] && !FromOracle(p)
                else && p.message == q.message && p.signature == q.signature
                     && (FromOracle(p) <==> q.signature != [])
                     && PriceFrom(core.terms, op.crypto, q.message, q.signature) == Ok(p.price)
                     && SettlementSplit(core.terms, p.price) == Ok((p.short, p.long)))
            && (p.shortSigned <==> SideOf(core, q.who) == Some(Short))
            && (p.longSigned <==> SideOf(core, q.who) == Some(Long))
  {
  }

  /** And it is made of: one transaction paying the two and the anchor, one checkpoint, each with one input that reveals
      the one leaf of both parties and the operator. */
  lemma ProposalsAreMadeOf(op: Operator, core: Core, outpoint: Outpoint, q: Request, key: ByteString)
    requires Propose(op, core, outpoint, q, key).Some?
    ensures var p := Propose(op, core, outpoint, q, key).value;
            && p.arkTx.outputs
               == [TxOut(p.short, core.terms.shortScript), TxOut(p.long, core.terms.longScript), op.anchor]
            && |p.checkpoints| == 1 && p.checkpoints[0].outputs == op.checkpointOutputs
            && forall i | 0 <= i < |Packets(p)| ::
                 && |Packets(p)[i].inputs| == 1
                 && Packets(p)[i].inputs[0].leaves
                    == [Leaf(op.leafScript(core), {core.shortKey, core.longKey, core.arkdSigner})]
  {
    var p := Propose(op, core, outpoint, q, key).value;
    var draft := Draft(op, core, outpoint, q).value;
    SigningKeepsTheBody(draft.arkTx, key, key);
    SignAllSignsEach(draft.checkpoints, key);
    SigningKeepsTheBody(draft.checkpoints[0], key, key);
    assert p.checkpoints[0] == SignLeaf(draft.checkpoints[0], key).value;
  }

  /** Nobody signs what does not add up: a side signs exactly what it has not signed yet, whose amounts clear the
      operator's dust and add up, and, when it comes with evidence, are the formula's at the price the oracle signed. */
  lemma CountersignsExactly(op: Operator, core: Core, who: User, key: ByteString, p: Proposal)
    ensures Countersign(op, core, who, key, p).Some?
            <==> && SideOf(core, who).Some? && !HasSigned(p, SideOf(core, who).value)
                 && p.short >= op.dust && p.long >= op.dust && Wrap64(p.short + p.long) == core.terms.payout
                 && (FromOracle(p) ==>
                       && PriceFrom(core.terms, op.crypto, p.message, p.signature) == Ok(p.price)
                       && SettlementSplit(core.terms, p.price) == Ok((p.short, p.long)))
                 && CanSignAll(Packets(p), key)
    ensures Countersign(op, core, who, key, p).Some? ==>
              var signed := Countersign(op, core, who, key, p).value;
              var side := SideOf(core, who).value;
              && HasSigned(signed, side) && (HasSigned(signed, Other(side)) <==> HasSigned(p, Other(side)))
              && signed.(arkTx := p.arkTx, checkpoints := p.checkpoints, shortSigned := p.shortSigned,
                         longSigned := p.longSigned) == p
  {
    CanSignSplit(p, key);
    if CanSignAll(p.checkpoints, key) {
      SignAllSucceeds(p.checkpoints, key);
    } else {
      var i :| 0 <= i < |p.checkpoints| && !CanSign(p.checkpoints[i].inputs, key);
      SignAllFails(p.checkpoints, i, key);
    }
  }

  lemma CanSignSplit(p: Proposal, key: ByteString)
    ensures CanSignAll(Packets(p), key) <==> CanSign(p.arkTx.inputs, key) && CanSignAll(p.checkpoints, key)
  {
    var packets := Packets(p);
    assert packets[0] == p.arkTx;
    assert forall i | 0 <= i < |p.checkpoints| :: packets[i + 1] == p.checkpoints[i];
    assert forall i | 1 <= i < |packets| :: packets[i] == p.checkpoints[i - 1];
  }

  /** What one party proposes the other can sign. */
  lemma ProposalsCanBeCountersigned(op: Operator, core: Core, outpoint: Outpoint, q: Request, who: User,
                                    keyOf: User -> ByteString)
    requires KeysAreTheirs(core, keyOf) && core.terms.payout >= 0
    requires Propose(op, core, outpoint, q, keyOf(q.who)).Some?
    requires SideOf(core, who).Some? && SideOf(core, who) != SideOf(core, q.who)
    ensures var p := Propose(op, core, outpoint, q, keyOf(q.who)).value;
            && Countersign(op, core, who, keyOf(who), p).Some?
            && Signed(Countersign(op, core, who, keyOf(who), p).value)
  {
    var side, mine := SideOf(core, who).value, SideOf(core, q.who).value;
    assert KeyOn(core, side) == keyOf(who);
    DraftsAreSound(op, core, outpoint, q);
    DraftsNameBoth(op, core, outpoint, q, side);
    SecondSignatureSucceeds(Draft(op, core, outpoint, q).value, mine, keyOf(q.who), keyOf(who));
  }
}
