/** The Arkade script machine: a stack, an alternative stack, and the transaction it can look at. */
module Vm {
  import opened Prelude
  import opened Bytes
  import opened ScriptNum
  import opened Script

  /** A sha256 digest. */
  type Digest = b: ByteString | |b| == 32 witness seq(32, _ => 0)

  /** The primitives nothing here looks inside: the hash, and whether a signature by a key covers a digest. */
  datatype Crypto = Crypto(sha256: ByteString -> Digest,
                           verifies: (ByteString, ByteString, ByteString) -> bool)

  datatype TxOut = TxOut(value: int, pkScript: ByteString)

  /** The spending transaction as the machine sees it: what its inputs hold, which of them is being spent,
      and what it pays. */
  datatype Spend = Spend(inputValues: seq<int>, current: nat, outputs: seq<TxOut>)

  /** How the machine writes a number on the stack and reads one back. Running a program only relies on the
      two agreeing, which `Faithful` says. */
  datatype NumberCodec = NumberCodec(encode: int -> ByteString, decode: ByteString -> int)

  ghost predicate Faithful(numbers: NumberCodec) {
    && (forall n :: numbers.decode(numbers.encode(n)) == n)
    && (forall n: nat | n <= 16 :: numbers.decode(SmallInt(n)) == n)
  }

  /** The numbers of this machine: sign-magnitude, little-endian, minimal. */
  const SCRIPT_NUMBERS := NumberCodec(n => Encode(n), b => Decode(b))

  lemma ScriptNumbersFaithful()
    ensures Faithful(SCRIPT_NUMBERS)
  {
    forall n: nat | n <= 16 ensures Decode(SmallInt(n)) == n {
      if n > 0 {
        assert [n][..0] + [n % 128] == [n] && [n][1..] == [];
        assert LittleEndian([n]) == n;
      }
    }
  }

  datatype Context = Context(crypto: Crypto, tx: Spend, numbers: NumberCodec)

  datatype Stack = Empty | Cons(top: ByteString, below: Stack)

  datatype Error = StackUnderflow | DivideByZero | VerifyFailed | OutOfRange | NoSuchItem

  datatype Machine = Running(stack: Stack, alt: Stack) | Fault(error: Error)

  /** btcd's IsWitnessProgram: a version opcode and one direct push of 2 to 40 bytes, nothing else. */
  predicate IsWitnessProgram(script: ByteString) {
    && 4 <= |script| <= 42
    && (script[0] == 0 || 0x51 <= script[0] <= 0x60)
    && script[1] == |script| - 2
  }

  /** What OP_INSPECTOUTPUTSCRIPTPUBKEY pushes for a script: a witness program and its version, or the
      script's sha256 and -1. */
  function Commitment(script: ByteString, crypto: Crypto): (c: (ByteString, int))
    ensures 2 <= |c.0| <= 40
    ensures -1 <= c.1 <= 16
  {
    if IsWitnessProgram(script) then
      (script[2..], if script[0] == 0 then 0 else script[0] - 0x50)
    else
      (crypto.sha256(script), -1)
  }

  function FromBool(b: bool): int {
    if b then 1 else 0
  }

  /** Anything that is not a zero, negative or padded zeros included. */
  predicate Truthy(b: ByteString, ctx: Context) {
    ctx.numbers.decode(b) != 0
  }

  /** The opcodes that take two numbers and leave one. */
  predicate IsArithmetic(code: Opcode) {
    code in {ADD, SUB, DIV, MIN, MAX, BOOLOR, NUMEQUAL, LESSTHAN, GREATERTHAN, GREATERTHANOREQUAL}
  }

  function Compute(code: Opcode, a: int, b: int): int
    requires IsArithmetic(code) && (code == DIV ==> b != 0)
  {
    match code
    case ADD => a + b
    case SUB => a - b
    case DIV => TruncDiv(a, b)
    case MIN => Min(a, b)
    case MAX => Max(a, b)
    case BOOLOR => FromBool(a != 0 || b != 0)
    case NUMEQUAL => FromBool(a == b)
    case LESSTHAN => FromBool(a < b)
    case GREATERTHAN => FromBool(a > b)
    case GREATERTHANOREQUAL => FromBool(a >= b)
  }

  function Arithmetic(code: Opcode, s: Stack, alt: Stack, ctx: Context): Machine
    requires IsArithmetic(code)
  {
    if s.Empty? || s.below.Empty? then Fault(StackUnderflow)
    else
      var a, b := ctx.numbers.decode(s.below.top), ctx.numbers.decode(s.top);
      if code == DIV && b == 0 then Fault(DivideByZero)
      else Running(Cons(ctx.numbers.encode(Compute(code, a, b)), s.below.below), alt)
  }

  function Verify(holds: bool, s: Stack, alt: Stack): Machine {
    if holds then Running(s, alt) else Fault(VerifyFailed)
  }

  /** OP_SUBSTR: data, begin, size from the bottom up. */
  function Substr(s: Stack, alt: Stack, ctx: Context): Machine {
    if s.Empty? || s.below.Empty? || s.below.below.Empty? then Fault(StackUnderflow)
    else
      var size, begin, data := ctx.numbers.decode(s.top), ctx.numbers.decode(s.below.top), s.below.below.top;
      if begin < 0 || size < 0 || begin + size > |data| then Fault(OutOfRange)
      else Running(Cons(data[begin..begin + size], s.below.below.below), alt)
  }

  /** The introspection opcodes that take an index. */
  function Inspect(code: Opcode, s: Stack, alt: Stack, ctx: Context): Machine {
    if s.Empty? then Fault(StackUnderflow)
    else
      var i := ctx.numbers.decode(s.top);
      match code
      case INSPECTINPUTVALUE =>
        if 0 <= i < |ctx.tx.inputValues| then Running(Cons(ctx.numbers.encode(ctx.tx.inputValues[i]), s.below), alt)
        else Fault(NoSuchItem)
      case INSPECTOUTPUTVALUE =>
        if 0 <= i < |ctx.tx.outputs| then Running(Cons(ctx.numbers.encode(ctx.tx.outputs[i].value), s.below), alt)
        else Fault(NoSuchItem)
      case _ =>
        if 0 <= i < |ctx.tx.outputs| then
          var (digest, version) := Commitment(ctx.tx.outputs[i].pkScript, ctx.crypto);
          Running(Cons(ctx.numbers.encode(version), Cons(digest, s.below)), alt)
        else Fault(NoSuchItem)
  }

  function Execute(code: Opcode, s: Stack, alt: Stack, ctx: Context): Machine {
    match code
    case INSPECTNUMINPUTS => Running(Cons(ctx.numbers.encode(|ctx.tx.inputValues|), s), alt)
    case PUSHCURRENTINPUTINDEX => Running(Cons(ctx.numbers.encode(ctx.tx.current), s), alt)
    case INSPECTINPUTVALUE => Inspect(code, s, alt, ctx)
    case INSPECTOUTPUTVALUE => Inspect(code, s, alt, ctx)
    case INSPECTOUTPUTSCRIPTPUBKEY => Inspect(code, s, alt, ctx)
    case VERIFY =>
      if s.Empty? then Fault(StackUnderflow) else Verify(Truthy(s.top, ctx), s.below, alt)
    case EQUALVERIFY =>
      if s.Empty? || s.below.Empty? then Fault(StackUnderflow)
      else Verify(s.top == s.below.top, s.below.below, alt)
    case NUMEQUALVERIFY =>
      if s.Empty? || s.below.Empty? then Fault(StackUnderflow)
      else Verify(ctx.numbers.decode(s.top) == ctx.numbers.decode(s.below.top), s.below.below, alt)
    case DUP => if s.Empty? then Fault(StackUnderflow) else Running(Cons(s.top, s), alt)
    case OVER =>
      if s.Empty? || s.below.Empty? then Fault(StackUnderflow) else Running(Cons(s.below.top, s), alt)
    case SWAP =>
      if s.Empty? || s.below.Empty? then Fault(StackUnderflow)
      else Running(Cons(s.below.top, Cons(s.top, s.below.below)), alt)
    case TOALTSTACK =>
      if s.Empty? then Fault(StackUnderflow) else Running(s.below, Cons(s.top, alt))
    case FROMALTSTACK =>
      if alt.Empty? then Fault(StackUnderflow) else Running(Cons(alt.top, s), alt.below)
    case SHA256 =>
      if s.Empty? then Fault(StackUnderflow) else Running(Cons(ctx.crypto.sha256(s.top), s.below), alt)
    case CHECKSIGFROMSTACK =>
      // signature, digest, key from the bottom up
      if s.Empty? || s.below.Empty? || s.below.below.Empty? then Fault(StackUnderflow)
      else
        var valid := ctx.crypto.verifies(s.top, s.below.top, s.below.below.top);
        Running(Cons(ctx.numbers.encode(FromBool(valid)), s.below.below.below), alt)
    case SUBSTR => Substr(s, alt, ctx)
    case BIN2NUM =>
      if s.Empty? then Fault(StackUnderflow)
      else Running(Cons(ctx.numbers.encode(ctx.numbers.decode(s.top)), s.below), alt)
    case _ => Arithmetic(code, s, alt, ctx)
  }

  function Step(m: Machine, op: Op, ctx: Context): Machine {
    match m
    case Fault(_) => m
    case Running(s, alt) =>
      match op
      case Push(data) => Running(Cons(data, s), alt)
      case Do(code) => Execute(code, s, alt, ctx)
  }

  function Run(m: Machine, ops: seq<Op>, ctx: Context): Machine {
    if |ops| == 0 then m else Step(Run(m, ops[..|ops| - 1], ctx), ops[|ops| - 1], ctx)
  }

  /** Running two programs one after the other is running their concatenation, whatever they do. */
  lemma {:induction false} RunAppend(m: Machine, p: seq<Op>, q: seq<Op>, ctx: Context)
    ensures Run(m, p + q, ctx) == Run(Run(m, p, ctx), q, ctx)
  {
    if |q| == 0 {
      assert p + q == p;
    } else {
      var init := q[..|q| - 1];
      RunAppend(m, p, init, ctx);
      assert (p + q)[..|p + q| - 1] == p + init;
    }
  }

  /** A script fails for good: nothing runs after a fault. */
  lemma {:induction false} RunFault(m: Machine, ops: seq<Op>, ctx: Context)
    requires m.Fault?
    ensures Run(m, ops, ctx) == m
  {
    if |ops| > 0 {
      RunFault(m, ops[..|ops| - 1], ctx);
    }
  }

  /** The witness, bottom item first, as a stack. */
  function WitnessStack(items: seq<ByteString>): Stack {
    if |items| == 0 then Empty else Cons(items[|items| - 1], WitnessStack(items[..|items| - 1]))
  }

  /** A spend is accepted when the script parses, runs to its end, and leaves something true on top. */
  predicate Accepts(script: ByteString, items: seq<ByteString>, crypto: Crypto, tx: Spend) {
    var ctx := Context(crypto, tx, SCRIPT_NUMBERS);
    match Parse(script)
    case None => false
    case Some(ops) =>
      match Run(Running(WitnessStack(items), Empty), ops, ctx)
      case Fault(_) => false
      case Running(s, _) => s.Cons? && Truthy(s.top, ctx)
  }
}
