/**
 Arkade Script as bytes and as operations: the canonical pushes of the script builder, the parser the
 machine reads scripts with, and the builder itself. Opcode numbers are those of the golden script in
 contract/settlement_test.go.
 */
module Script {
  import opened Prelude
  import opened Bytes

  datatype Opcode =
    | INSPECTNUMINPUTS | PUSHCURRENTINPUTINDEX | INSPECTINPUTVALUE
    | INSPECTOUTPUTVALUE | INSPECTOUTPUTSCRIPTPUBKEY
    | VERIFY | EQUALVERIFY | NUMEQUALVERIFY
    | DUP | OVER | SWAP | TOALTSTACK | FROMALTSTACK
    | SHA256 | CHECKSIGFROMSTACK | SUBSTR | BIN2NUM
    | ADD | SUB | DIV | MIN | MAX | BOOLOR
    | NUMEQUAL | LESSTHAN | GREATERTHAN | GREATERTHANOREQUAL

  /** An operation as the machine executes it. OP_0, OP_1 … OP_16 and OP_1NEGATE are pushes. */
  datatype Op = Push(data: ByteString) | Do(code: Opcode)

  const MAX_DIRECT_PUSH := 75

  function ToByte(code: Opcode): Byte {
    match code
    case VERIFY => 0x69
    case TOALTSTACK => 0x6b
    case FROMALTSTACK => 0x6c
    case DUP => 0x76
    case OVER => 0x78
    case SWAP => 0x7c
    case SUBSTR => 0x7f
    case EQUALVERIFY => 0x88
    case ADD => 0x93
    case SUB => 0x94
    case DIV => 0x96
    case BOOLOR => 0x9b
    case NUMEQUAL => 0x9c
    case NUMEQUALVERIFY => 0x9d
    case LESSTHAN => 0x9f
    case GREATERTHAN => 0xa0
    case GREATERTHANOREQUAL => 0xa2
    case MIN => 0xa3
    case MAX => 0xa4
    case SHA256 => 0xa8
    case INSPECTINPUTVALUE => 0xc9
    case CHECKSIGFROMSTACK => 0xcc
    case PUSHCURRENTINPUTINDEX => 0xcd
    case INSPECTOUTPUTVALUE => 0xcf
    case INSPECTOUTPUTSCRIPTPUBKEY => 0xd1
    case INSPECTNUMINPUTS => 0xd4
    case BIN2NUM => 0xd8
  }

  function FromByte(b: Byte): (code: Option<Opcode>)
    ensures code.Some? ==> ToByte(code.value) == b
  {
    if b == 0x69 then Some(VERIFY) else if b == 0x6b then Some(TOALTSTACK)
    else if b == 0x6c then Some(FROMALTSTACK) else if b == 0x76 then Some(DUP)
    else if b == 0x78 then Some(OVER) else if b == 0x7c then Some(SWAP)
    else if b == 0x7f then Some(SUBSTR) else if b == 0x88 then Some(EQUALVERIFY)
    else if b == 0x93 then Some(ADD) else if b == 0x94 then Some(SUB)
    else if b == 0x96 then Some(DIV) else if b == 0x9b then Some(BOOLOR)
    else if b == 0x9c then Some(NUMEQUAL) else if b == 0x9d then Some(NUMEQUALVERIFY)
    else if b == 0x9f then Some(LESSTHAN) else if b == 0xa0 then Some(GREATERTHAN)
    else if b == 0xa2 then Some(GREATERTHANOREQUAL) else if b == 0xa3 then Some(MIN)
    else if b == 0xa4 then Some(MAX) else if b == 0xa8 then Some(SHA256)
    else if b == 0xc9 then Some(INSPECTINPUTVALUE) else if b == 0xcc then Some(CHECKSIGFROMSTACK)
    else if b == 0xcd then Some(PUSHCURRENTINPUTINDEX) else if b == 0xcf then Some(INSPECTOUTPUTVALUE)
    else if b == 0xd1 then Some(INSPECTOUTPUTSCRIPTPUBKEY) else if b == 0xd4 then Some(INSPECTNUMINPUTS)
    else if b == 0xd8 then Some(BIN2NUM) else None
  }

  /** What OP_0, OP_1 … OP_16 push. */
  function SmallInt(n: nat): ByteString
    requires n <= 16
  {
    if n == 0 then [] else [n]
  }

  /** Data the builder can push and the machine reads back unchanged. `[0]` is not: the builder writes it
      as OP_0, which pushes the empty string. */
  predicate Pushable(data: ByteString) {
    |data| <= MAX_DIRECT_PUSH && data != [0]
  }

  predicate WellFormed(op: Op) {
    op.Push? ==> Pushable(op.data)
  }

  /** BIP 62 rule 3: the shortest push there is. */
  function PushBytes(data: ByteString): ByteString
    requires |data| <= MAX_DIRECT_PUSH
  {
    if |data| == 0 then [0]
    else if |data| == 1 && data[0] == 0 then [0]
    else if |data| == 1 && data[0] <= 16 then [0x50 + data[0]]
    else if |data| == 1 && data[0] == 0x81 then [0x4f]
    else [|data|] + data
  }

  function OpBytes(op: Op): ByteString
    requires WellFormed(op)
  {
    match op
    case Push(data) => PushBytes(data)
    case Do(code) => [ToByte(code)]
  }

  predicate AllWellFormed(ops: seq<Op>) {
    forall i | 0 <= i < |ops| :: WellFormed(ops[i])
  }

  function Serialise(ops: seq<Op>): ByteString
    requires AllWellFormed(ops)
  {
    if |ops| == 0 then [] else Serialise(ops[..|ops| - 1]) + OpBytes(ops[|ops| - 1])
  }

  /** The first operation of a script, and how many bytes it took. */
  function Next(b: ByteString): (r: Option<(Op, nat)>)
    requires |b| > 0
    ensures r.Some? ==> 0 < r.value.1 <= |b|
  {
    var c := b[0];
    if c == 0 then Some((Push([]), 1))
    else if c <= MAX_DIRECT_PUSH then
      if |b| < 1 + c then None else Some((Push(b[1..1 + c]), 1 + c))
    else if c == 0x4f then Some((Push([0x81]), 1))
    else if 0x51 <= c <= 0x60 then Some((Push([c - 0x50]), 1))
    else match FromByte(c)
      case None => None
      case Some(code) => Some((Do(code), 1))
  }

  function Parse(b: ByteString): Option<seq<Op>> {
    if |b| == 0 then Some([])
    else match Next(b)
      case None => None
      case Some((op, n)) =>
        match Parse(b[n..])
        case None => None
        case Some(rest) => Some([op] + rest)
  }

  lemma NextReadsBack(op: Op, rest: ByteString)
    requires WellFormed(op)
    ensures Next(OpBytes(op) + rest) == Some((op, |OpBytes(op)|))
  {
    match op {
      case Do(code) =>
      case Push(data) =>
        var b := OpBytes(op) + rest;
        if |data| > 1 || (|data| == 1 && data[0] > 16 && data[0] != 0x81) {
          assert b[1..1 + |data|] == data;
        } else if |data| == 1 {
          assert data == [data[0]];
        }
    }
  }

  lemma ParseOne(op: Op, rest: ByteString)
    requires WellFormed(op) && Parse(rest).Some?
    ensures Parse(OpBytes(op) + rest) == Some([op] + Parse(rest).value)
  {
    NextReadsBack(op, rest);
    assert (OpBytes(op) + rest)[|OpBytes(op)|..] == rest;
  }

  /** A reader that takes one written operation off the front of whatever it can read. */
  ghost predicate ReadsOne(read: ByteString -> Option<seq<Op>>) {
    forall op: Op, rest: ByteString {:trigger read(OpBytes(op) + rest)} :: WellFormed(op) && read(rest).Some? ==>
      read(OpBytes(op) + rest) == Some([op] + read(rest).value)
  }

  lemma Regroup<T>(a: seq<T>, b: seq<T>, c: seq<T>)
    ensures a + b + c == a + (b + c)
  {
  }

  lemma {:induction false} ReadPrefix(read: ByteString -> Option<seq<Op>>, ops: seq<Op>, rest: ByteString)
    requires ReadsOne(read) && AllWellFormed(ops) && read(rest).Some?
    ensures read(Serialise(ops) + rest) == Some(ops + read(rest).value)
    decreases |ops|
  {
    if |ops| == 0 {
      assert Serialise(ops) + rest == rest;
      assert ops + read(rest).value == read(rest).value;
    } else {
      var init, last := ops[..|ops| - 1], ops[|ops| - 1];
      var b := OpBytes(last) + rest;
      assert read(OpBytes(last) + rest) == Some([last] + read(rest).value);
      ReadPrefix(read, init, b);
      Regroup(Serialise(init), OpBytes(last), rest);
      Regroup(init, [last], read(rest).value);
      assert init + [last] == ops;
    }
  }

  lemma ParseReadsOne()
    ensures ReadsOne(Parse)
  {
    forall op: Op, rest: ByteString | WellFormed(op) && Parse(rest).Some?
      ensures Parse(OpBytes(op) + rest) == Some([op] + Parse(rest).value)
    {
      ParseOne(op, rest);
    }
  }

  /** The machine reads back exactly the operations that were written. */
  lemma ParseSerialise(ops: seq<Op>)
    requires AllWellFormed(ops)
    ensures Parse(Serialise(ops)) == Some(ops)
  {
    ParseReadsOne();
    ReadPrefix(Parse, ops, []);
    assert Serialise(ops) + [] == Serialise(ops);
    assert ops + [] == ops;
  }

  /** Two different operation lists never have the same bytes. */
  lemma SerialiseInjective(a: seq<Op>, b: seq<Op>)
    requires AllWellFormed(a) && AllWellFormed(b)
    requires Serialise(a) == Serialise(b)
    ensures a == b
  {
    ParseSerialise(a);
    ParseSerialise(b);
  }

  /** The script builder contract/settlement.go drives: one operation at a time, and the bytes at the end. */
  class ScriptBuilder {
    var ops: seq<Op>

    constructor ()
      ensures ops == []
    {
      ops := [];
    }

    method AddOp(code: Opcode)
      modifies this
      ensures ops == old(ops) + [Do(code)]
    {
      ops := ops + [Do(code)];
    }

    method AddData(data: ByteString)
      modifies this
      ensures ops == old(ops) + [Push(data)]
    {
      ops := ops + [Push(data)];
    }

    /** OP_0, OP_1 … OP_16, which is also what AddInt64 writes for a small number. */
    method AddSmallInt(n: nat)
      requires n <= 16
      modifies this
      ensures ops == old(ops) + [Push(SmallInt(n))]
    {
      ops := ops + [Push(SmallInt(n))];
    }

    method Script() returns (script: ByteString)
      requires AllWellFormed(ops)
      ensures script == Serialise(ops)
    {
      script := [];
      for i := 0 to |ops|
        invariant script == Serialise(ops[..i])
      {
        assert ops[..i + 1][..i] == ops[..i];
        script := script + OpBytes(ops[i]);
      }
      assert ops[..|ops|] == ops;
    }
  }
}
