/**
 The settlement covenant's compiler: the program contract/settlement.go emits for a contract's terms, and
 the builder calls that emit it.
 */
module Covenant {
  import opened Prelude
  import opened Bytes
  import opened ScriptNum
  import opened Script
  import opened Vm
  import opened Terms

  const TIMESTAMP_OFFSET: nat := 0
  const SEQUENCE_OFFSET: nat := 8
  const PRICE_OFFSET: nat := 16
  const FIELD_SIZE: nat := 8

  /** The constants the script carries, by the name they are encoded under. */
  datatype Constant = Nominal | Leverage | Payout | Low | High | Dust | ShortCap | Start | Maturity

  const ALL_CONSTANTS: set<Constant> := {Nominal, Leverage, Payout, Low, High, Dust, ShortCap, Start, Maturity}

  function ValueOf(c: Constant, t: Terms): int {
    match c
    case Nominal => t.nominal
    case Leverage => t.leverage
    case Payout => t.payout
    case Low => t.low
    case High => t.high
    case Dust => DUST
    case ShortCap => t.payout - DUST
    case Start => t.start
    case Maturity => t.maturity
  }

  type Constants = map<Constant, ByteString>

  predicate Complete(k: Constants) {
    k.Keys == ALL_CONSTANTS
  }

  /** Every constant as the machine's number. */
  function Encoded(t: Terms): (k: Constants)
    ensures Complete(k)
  {
    map c | c in ALL_CONSTANTS :: Encode(ValueOf(c, t))
  }

  function Int(n: nat): Op
    requires n <= 16
  {
    Push(SmallInt(n))
  }

  function FieldExtract(offset: nat): seq<Op>
    requires offset <= 16
  {
    [Int(offset), Int(FIELD_SIZE), Do(SUBSTR), Do(BIN2NUM)]
  }

  function LockScriptCheck(index: nat, digest: ByteString, version: ByteString): seq<Op>
    requires index <= 16
  {
    [Int(index), Do(INSPECTOUTPUTSCRIPTPUBKEY), Push(version), Do(NUMEQUALVERIFY)] + [Push(digest), Do(EQUALVERIFY)]
  }

  /** The comparison against one side's scriptPubKey, in either of the shapes the machine pushes. */
  function RecipientOps(index: nat, lockScript: ByteString, crypto: Crypto): seq<Op>
    requires index <= 16
  {
    var (digest, version) := Commitment(lockScript, crypto);
    LockScriptCheck(index, digest, Encode(version))
  }

  /** One input, and it holds the payout. */
  function ShapeOps(k: Constants): seq<Op>
    requires Complete(k)
  {
    [Do(INSPECTNUMINPUTS), Int(1), Do(NUMEQUALVERIFY)]
    + [Do(PUSHCURRENTINPUTINDEX), Do(INSPECTINPUTVALUE), Push(k[Payout]), Do(NUMEQUALVERIFY)]
  }

  /** Stashes the message on top and requires the oracle's signature over its digest. */
  function SignedOps(t: Terms): seq<Op> {
    [Do(DUP), Do(TOALTSTACK), Do(SHA256)] + [Push(t.oracleKey), Do(CHECKSIGFROMSTACK), Do(VERIFY)]
  }

  function OracleOps(t: Terms): seq<Op> {
    SignedOps(t) + SignedOps(t) + [Do(FROMALTSTACK), Do(FROMALTSTACK)]
  }

  /** The predecessor is before maturity. */
  function PredecessorOps(k: Constants): seq<Op>
    requires Complete(k)
  {
    [Do(DUP)] + FieldExtract(TIMESTAMP_OFFSET) + [Push(k[Maturity]), Do(LESSTHAN), Do(VERIFY)]
  }

  /** The predecessor's sequence, which must be a price's, and one more than it. */
  function SuccessorOps(): seq<Op> {
    FieldExtract(SEQUENCE_OFFSET)
    + [Do(DUP), Int(0), Do(GREATERTHAN), Do(VERIFY)] + [Int(1), Do(ADD), Do(OVER)]
  }

  /** The successor of the predecessor's number against the number the settlement message carries. */
  function AdjacencyOps(): seq<Op> {
    SuccessorOps() + FieldExtract(SEQUENCE_OFFSET) + [Do(NUMEQUALVERIFY)]
  }

  function StartOps(k: Constants): seq<Op>
    requires Complete(k)
  {
    [Do(DUP)] + FieldExtract(TIMESTAMP_OFFSET) + [Do(DUP), Push(k[Start]), Do(GREATERTHANOREQUAL), Do(VERIFY)]
  }

  function PriceOps(k: Constants): seq<Op>
    requires Complete(k)
  {
    [Do(SWAP)] + FieldExtract(PRICE_OFFSET)
    + [Do(DUP), Int(0), Do(GREATERTHAN), Do(VERIFY)] + [Push(k[High]), Do(MIN), Push(k[Low]), Do(MAX)]
  }

  /** Whether the clamped price equals low or high: what is left of a price from outside the range. */
  function BoundaryOps(k: Constants): seq<Op>
    requires Complete(k)
  {
    [Do(DUP), Do(TOALTSTACK), Do(DUP), Push(k[Low]), Do(NUMEQUAL)]
    + [Do(SWAP), Push(k[High]), Do(NUMEQUAL), Do(BOOLOR)]
  }

  /** Either out of bounds, or the message is at or past maturity. */
  function TriggerOps(k: Constants): seq<Op>
    requires Complete(k)
  {
    [Do(SWAP), Push(k[Maturity]), Do(GREATERTHANOREQUAL)] + [Do(BOOLOR), Do(VERIFY), Do(FROMALTSTACK)]
  }

  function ShareOps(k: Constants): seq<Op>
    requires Complete(k)
  {
    [Push(k[Nominal]), Do(SWAP), Do(DIV), Push(k[Leverage]), Do(SUB)]
    + [Push(k[Dust]), Do(MAX), Push(k[ShortCap]), Do(MIN)]
  }

  function PayoutOps(k: Constants): seq<Op>
    requires Complete(k)
  {
    [Do(DUP), Push(k[Payout]), Do(SWAP), Do(SUB)] + [Int(1), Do(INSPECTOUTPUTVALUE), Do(NUMEQUALVERIFY)]
    + [Int(0), Do(INSPECTOUTPUTVALUE), Do(NUMEQUAL)]
  }

  /** Everything that is checked before a price is worked out. */
  function EvidenceOps(t: Terms, crypto: Crypto): seq<Op> {
    var k := Encoded(t);
    ShapeOps(k) + RecipientOps(0, t.shortScript, crypto) + RecipientOps(1, t.longScript, crypto)
    + OracleOps(t) + PredecessorOps(k) + AdjacencyOps() + StartOps(k)
  }

  /** The whole program, segment by segment in the order it is emitted. */
  function Program(t: Terms, crypto: Crypto): seq<Op> {
    var k := Encoded(t);
    EvidenceOps(t, crypto) + PriceOps(k) + BoundaryOps(k) + TriggerOps(k) + ShareOps(k) + PayoutOps(k)
  }

  predicate AllPushable(k: Constants) {
    Complete(k) && forall c :: c in k ==> Pushable(k[c])
  }

  lemma NumberPushable(n: int)
    requires -Pow256(8) < n < Pow256(8)
    ensures Pushable(Encode(n))
  {
    EncodeLength(n, 8);
    EncodeIsNotZeroByte(n);
  }

  lemma ConstantPushable(t: Terms, c: Constant)
    requires Valid(t)
    ensures Pushable(Encode(ValueOf(c, t)))
  {
    Pow256Seven();
    NumberPushable(ValueOf(c, t));
  }

  lemma ConstantsPushable(t: Terms)
    requires Valid(t)
    ensures AllPushable(Encoded(t))
  {
    forall c | c in ALL_CONSTANTS ensures Pushable(Encoded(t)[c]) {
      ConstantPushable(t, c);
    }
  }

  lemma LockScriptWellFormed(index: nat, lockScript: ByteString, crypto: Crypto)
    requires index <= 16
    ensures AllWellFormed(RecipientOps(index, lockScript, crypto))
  {
  }

  lemma RulesWellFormed(k: Constants)
    requires AllPushable(k)
    ensures AllWellFormed(ShapeOps(k)) && AllWellFormed(PredecessorOps(k)) && AllWellFormed(AdjacencyOps())
    ensures AllWellFormed(StartOps(k))
  {
  }

  lemma PaymentWellFormed(k: Constants)
    requires AllPushable(k)
    ensures AllWellFormed(PriceOps(k)) && AllWellFormed(BoundaryOps(k)) && AllWellFormed(TriggerOps(k))
    ensures AllWellFormed(ShareOps(k)) && AllWellFormed(PayoutOps(k))
  {
  }

  lemma OracleWellFormed(t: Terms)
    requires Valid(t)
    ensures AllWellFormed(OracleOps(t))
  {
  }

  lemma JoinedWellFormed(a: seq<Op>, b: seq<Op>, c: seq<Op>, d: seq<Op>, e: seq<Op>, f: seq<Op>, g: seq<Op>)
    requires AllWellFormed(a) && AllWellFormed(b) && AllWellFormed(c) && AllWellFormed(d)
    requires AllWellFormed(e) && AllWellFormed(f) && AllWellFormed(g)
    ensures AllWellFormed(a + b + c + d + e + f + g)
  {
  }

  lemma JoinedWellFormedSix(a: seq<Op>, b: seq<Op>, c: seq<Op>, d: seq<Op>, e: seq<Op>, f: seq<Op>)
    requires AllWellFormed(a) && AllWellFormed(b) && AllWellFormed(c) && AllWellFormed(d)
    requires AllWellFormed(e) && AllWellFormed(f)
    ensures AllWellFormed(a + b + c + d + e + f)
  {
  }

  lemma EvidenceWellFormed(t: Terms, crypto: Crypto)
    requires Valid(t)
    ensures AllWellFormed(EvidenceOps(t, crypto))
  {
    var k := Encoded(t);
    ConstantsPushable(t);
    LockScriptWellFormed(0, t.shortScript, crypto);
    LockScriptWellFormed(1, t.longScript, crypto);
    OracleWellFormed(t);
    RulesWellFormed(k);
    JoinedWellFormed(ShapeOps(k), RecipientOps(0, t.shortScript, crypto), RecipientOps(1, t.longScript, crypto),
                     OracleOps(t), PredecessorOps(k), AdjacencyOps(), StartOps(k));
  }

  lemma ProgramWellFormed(t: Terms, crypto: Crypto)
    requires Valid(t)
    ensures AllWellFormed(Program(t, crypto))
  {
    var k := Encoded(t);
    ConstantsPushable(t);
    PaymentWellFormed(k);
    EvidenceWellFormed(t, crypto);
    JoinedWellFormedSix(EvidenceOps(t, crypto), PriceOps(k), BoundaryOps(k), TriggerOps(k), ShareOps(k), PayoutOps(k));
  }

  /** The bytes of a contract's settlement script, or the rule its terms break. */
  function Compile(t: Terms, crypto: Crypto): Result<ByteString, TermsError> {
    if Validate(t).Some? then Err(Validate(t).value)
    else
      ProgramWellFormed(t, crypto);
      Ok(Serialise(Program(t, crypto)))
  }

  // --- The emitter -----------------------------------------------------------

  /** Go ranges over the table in no particular order. */
  method EncodeConstants(t: Terms) returns (k: Constants)
    ensures k == Encoded(t)
  {
    k := map[];
    var left := ALL_CONSTANTS;
    while left != {}
      invariant left <= ALL_CONSTANTS && k.Keys == ALL_CONSTANTS - left
      invariant forall c :: c in k ==> k[c] == Encoded(t)[c]
    {
      var c :| c in left;
      k := k[c := Encode(ValueOf(c, t))];
      left := left - {c};
    }
  }

  method AddFieldExtract(b: ScriptBuilder, offset: nat)
    requires offset <= 16
    modifies b
    ensures b.ops == old(b.ops) + FieldExtract(offset)
  {
    b.AddSmallInt(offset);
    b.AddSmallInt(FIELD_SIZE);
    b.AddOp(SUBSTR);
    b.AddOp(BIN2NUM);
  }

  method AddLockScriptCheck(b: ScriptBuilder, index: nat, lockScript: ByteString, crypto: Crypto)
    requires index <= 16
    modifies b
    ensures b.ops == old(b.ops) + RecipientOps(index, lockScript, crypto)
  {
    var (digest, version) := Commitment(lockScript, crypto);
    b.AddSmallInt(index);
    b.AddOp(INSPECTOUTPUTSCRIPTPUBKEY);
    b.AddData(Encode(version));
    b.AddOp(NUMEQUALVERIFY);
    b.AddData(digest);
    b.AddOp(EQUALVERIFY);
  }

  method AddShape(b: ScriptBuilder, k: Constants)
    requires Complete(k)
    modifies b
    ensures b.ops == old(b.ops) + ShapeOps(k)
  {
    b.AddOp(INSPECTNUMINPUTS);
    b.AddSmallInt(1);
    b.AddOp(NUMEQUALVERIFY);
    b.AddOp(PUSHCURRENTINPUTINDEX);
    b.AddOp(INSPECTINPUTVALUE);
    b.AddData(k[Payout]);
    b.AddOp(NUMEQUALVERIFY);
  }

  method AddSigned(b: ScriptBuilder, t: Terms)
    modifies b
    ensures b.ops == old(b.ops) + SignedOps(t)
  {
    b.AddOp(DUP);
    b.AddOp(TOALTSTACK);
    b.AddOp(SHA256);
    b.AddData(t.oracleKey);
    b.AddOp(CHECKSIGFROMSTACK);
    b.AddOp(VERIFY);
  }

  method AddOracle(b: ScriptBuilder, t: Terms)
    modifies b
    ensures b.ops == old(b.ops) + OracleOps(t)
  {
    AddSigned(b, t);
    AddSigned(b, t);
    b.AddOp(FROMALTSTACK);
    b.AddOp(FROMALTSTACK);
  }

  method AddPredecessor(b: ScriptBuilder, k: Constants)
    requires Complete(k)
    modifies b
    ensures b.ops == old(b.ops) + PredecessorOps(k)
  {
    b.AddOp(DUP);
    AddFieldExtract(b, TIMESTAMP_OFFSET);
    b.AddData(k[Maturity]);
    b.AddOp(LESSTHAN);
    b.AddOp(VERIFY);
  }

  method AddAdjacency(b: ScriptBuilder)
    modifies b
    ensures b.ops == old(b.ops) + AdjacencyOps()
  {
    AddFieldExtract(b, SEQUENCE_OFFSET);
    b.AddOp(DUP);
    b.AddSmallInt(0);
    b.AddOp(GREATERTHAN);
    b.AddOp(VERIFY);
    b.AddSmallInt(1);
    b.AddOp(ADD);
    b.AddOp(OVER);
    AddFieldExtract(b, SEQUENCE_OFFSET);
    b.AddOp(NUMEQUALVERIFY);
  }

  method AddStart(b: ScriptBuilder, k: Constants)
    requires Complete(k)
    modifies b
    ensures b.ops == old(b.ops) + StartOps(k)
  {
    b.AddOp(DUP);
    AddFieldExtract(b, TIMESTAMP_OFFSET);
    b.AddOp(DUP);
    b.AddData(k[Start]);
    b.AddOp(GREATERTHANOREQUAL);
    b.AddOp(VERIFY);
  }

  method AddPrice(b: ScriptBuilder, k: Constants)
    requires Complete(k)
    modifies b
    ensures b.ops == old(b.ops) + PriceOps(k)
  {
    b.AddOp(SWAP);
    AddFieldExtract(b, PRICE_OFFSET);
    b.AddOp(DUP);
    b.AddSmallInt(0);
    b.AddOp(GREATERTHAN);
    b.AddOp(VERIFY);
    b.AddData(k[High]);
    b.AddOp(MIN);
    b.AddData(k[Low]);
    b.AddOp(MAX);
  }

  method AddBoundary(b: ScriptBuilder, k: Constants)
    requires Complete(k)
    modifies b
    ensures b.ops == old(b.ops) + BoundaryOps(k)
  {
    b.AddOp(DUP);
    b.AddOp(TOALTSTACK);
    b.AddOp(DUP);
    b.AddData(k[Low]);
    b.AddOp(NUMEQUAL);
    b.AddOp(SWAP);
    b.AddData(k[High]);
    b.AddOp(NUMEQUAL);
    b.AddOp(BOOLOR);
  }

  method AddTrigger(b: ScriptBuilder, k: Constants)
    requires Complete(k)
    modifies b
    ensures b.ops == old(b.ops) + TriggerOps(k)
  {
    b.AddOp(SWAP);
    b.AddData(k[Maturity]);
    b.AddOp(GREATERTHANOREQUAL);
    b.AddOp(BOOLOR);
    b.AddOp(VERIFY);
    b.AddOp(FROMALTSTACK);
  }

  method AddShare(b: ScriptBuilder, k: Constants)
    requires Complete(k)
    modifies b
    ensures b.ops == old(b.ops) + ShareOps(k)
  {
    b.AddData(k[Nominal]);
    b.AddOp(SWAP);
    b.AddOp(DIV);
    b.AddData(k[Leverage]);
    b.AddOp(SUB);
    b.AddData(k[Dust]);
    b.AddOp(MAX);
    b.AddData(k[ShortCap]);
    b.AddOp(MIN);
  }

  method AddPayouts(b: ScriptBuilder, k: Constants)
    requires Complete(k)
    modifies b
    ensures b.ops == old(b.ops) + PayoutOps(k)
  {
    b.AddOp(DUP);
    b.AddData(k[Payout]);
    b.AddOp(SWAP);
    b.AddOp(SUB);
    b.AddSmallInt(1);
    b.AddOp(INSPECTOUTPUTVALUE);
    b.AddOp(NUMEQUALVERIFY);
    b.AddSmallInt(0);
    b.AddOp(INSPECTOUTPUTVALUE);
    b.AddOp(NUMEQUAL);
  }

  /** Terms.SettlementScript, driving the builder as the source does. */
  method SettlementScript(t: Terms, crypto: Crypto) returns (r: Result<ByteString, TermsError>)
    ensures r == Compile(t, crypto)
  {
    var broken := Validate(t);
    if broken.Some? {
      return Err(broken.value);
    }

    var k := EncodeConstants(t);
    var b := new ScriptBuilder();
    AddShape(b, k);
    assert [] + ShapeOps(k) == ShapeOps(k);
    AddLockScriptCheck(b, 0, t.shortScript, crypto);
    AddLockScriptCheck(b, 1, t.longScript, crypto);
    AddOracle(b, t);
    AddPredecessor(b, k);
    AddAdjacency(b);
    AddStart(b, k);
    AddPrice(b, k);
    AddBoundary(b, k);
    AddTrigger(b, k);
    AddShare(b, k);
    AddPayouts(b, k);
    assert b.ops == Program(t, crypto);
    ProgramWellFormed(t, crypto);
    var script := b.Script();
    return Ok(script);
  }
}
