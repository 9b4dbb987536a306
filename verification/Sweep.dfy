/**
 The 2-of-3 a unilateral exit pays into (contract/exit.go): the leaf NewSweep builds, run by the rules of
 BIP 342 (section "Rules for signature opcodes"), and the witness Sweep.Witness assembles for it.
 */
module Sweep {
  import opened Prelude
  import opened Bytes

  const SWEEP_THRESHOLD: nat := 2

  datatype LeafOp = PushKey(key: ByteString) | CheckSig | CheckSigAdd | PushCount(n: int) | NumEqual

  /** CHECKSIGADD for every key after the first. */
  function AddOps(keys: seq<ByteString>): seq<LeafOp> {
    if |keys| == 0 then [] else [PushKey(keys[0]), CheckSigAdd] + AddOps(keys[1..])
  }

  function LeafOps(keys: seq<ByteString>, threshold: nat): seq<LeafOp>
    requires |keys| > 0
  {
    [PushKey(keys[0]), CheckSig] + AddOps(keys[1..]) + [PushCount(threshold), NumEqual]
  }

  /** LeafOps, built up one instruction at a time over the keys in script order. */
  method BuildLeaf(keys: seq<ByteString>) returns (leaf: seq<LeafOp>)
    requires |keys| > 0
    ensures leaf == LeafOps(keys, SWEEP_THRESHOLD)
  {
    leaf := [PushKey(keys[0])];
    leaf := leaf + [CheckSig];
    for i := 1 to |keys|
      invariant leaf + AddOps(keys[i..]) == [PushKey(keys[0]), CheckSig] + AddOps(keys[1..])
    {
      assert keys[i..][1..] == keys[i + 1..];
      ghost var before := leaf;
      leaf := leaf + [PushKey(keys[i])];
      leaf := leaf + [CheckSigAdd];
      assert leaf == before + [PushKey(keys[i]), CheckSigAdd];
      assert leaf + AddOps(keys[i + 1..]) == before + ([PushKey(keys[i]), CheckSigAdd] + AddOps(keys[i + 1..]));
    }
    assert leaf + [] == leaf;
    leaf := leaf + [PushCount(SWEEP_THRESHOLD)];
    leaf := leaf + [NumEqual];
  }

  datatype Item = Data(bytes: ByteString) | Count(n: int)

  datatype Stack = Empty | Cons(top: Item, below: Stack)

  datatype Leaf = Running(stack: Stack) | Failed

  /** An empty signature counts for nothing, a valid one for one, and an invalid one fails the script. */
  function Checked(key: ByteString, sig: ByteString, valid: (ByteString, ByteString) -> bool): Option<int> {
    if |sig| == 0 then Some(0) else if valid(key, sig) then Some(1) else None
  }

  function LeafStep(m: Leaf, op: LeafOp, valid: (ByteString, ByteString) -> bool): Leaf {
    match m
    case Failed => Failed
    case Running(s) =>
      match (op, s)
      case (PushKey(key), _) => Running(Cons(Data(key), s))
      case (PushCount(n), _) => Running(Cons(Count(n), s))
      case (CheckSig, Cons(Data(key), Cons(Data(sig), rest))) =>
        (match Checked(key, sig, valid)
         case None => Failed
         case Some(n) => Running(Cons(Count(n), rest)))
      case (CheckSigAdd, Cons(Data(key), Cons(Count(n), Cons(Data(sig), rest)))) =>
        (match Checked(key, sig, valid)
         case None => Failed
         case Some(k) => Running(Cons(Count(n + k), rest)))
      case (NumEqual, Cons(Count(a), Cons(Count(b), rest))) =>
        Running(Cons(Count(if a == b then 1 else 0), rest))
      case _ => Failed
  }

  function RunLeaf(m: Leaf, ops: seq<LeafOp>, valid: (ByteString, ByteString) -> bool): Leaf
    decreases |ops|
  {
    if |ops| == 0 then m else RunLeaf(LeafStep(m, ops[0], valid), ops[1..], valid)
  }

  /** The witness, bottom item first, as a stack. */
  function StackOf(items: seq<ByteString>): Stack {
    if |items| == 0 then Empty else Cons(Data(items[|items| - 1]), StackOf(items[..|items| - 1]))
  }

  /** BIP 342 wants exactly one element left, and that one true. */
  predicate LeafAccepts(keys: seq<ByteString>, threshold: nat, items: seq<ByteString>,
                        valid: (ByteString, ByteString) -> bool)
    requires |keys| > 0
  {
    RunLeaf(Running(StackOf(items)), LeafOps(keys, threshold), valid) == Running(Cons(Count(1), Empty))
  }

  // --- Choosing the signatures -----------------------------------------------

  type Signatures = map<ByteString, ByteString>

  function SignatureOf(sigs: Signatures, key: ByteString): ByteString {
    if key in sigs then sigs[key] else []
  }

  /** How many of the keys have a signature. */
  function Available(keys: seq<ByteString>, sigs: Signatures): nat {
    if |keys| == 0 then 0
    else (if SignatureOf(sigs, keys[0]) != [] then 1 else 0) + Available(keys[1..], sigs)
  }

  /** One element per key, in script order: the first `left` signatures there are, and nothing for the rest. */
  function Chosen(keys: seq<ByteString>, sigs: Signatures, left: nat): (elements: seq<ByteString>)
    ensures |elements| == |keys|
  {
    if |keys| == 0 then []
    else
      var sig := SignatureOf(sigs, keys[0]);
      if left > 0 && sig != [] then [sig] + Chosen(keys[1..], sigs, left - 1)
      else [[]] + Chosen(keys[1..], sigs, left)
  }

  function Reversed(s: seq<ByteString>): (r: seq<ByteString>)
    ensures |r| == |s|
  {
    if |s| == 0 then [] else Reversed(s[1..]) + [s[0]]
  }

  function NonEmpty(s: seq<ByteString>): nat {
    if |s| == 0 then 0 else (if s[0] != [] then 1 else 0) + NonEmpty(s[1..])
  }

  datatype WitnessError = NotEnoughSignatures(have: nat)

  /** Sweep.Witness up to the leaf and the control block: the elements the leaf consumes. */
  function Elements(keys: seq<ByteString>, threshold: nat, sigs: Signatures): Result<seq<ByteString>, WitnessError> {
    if Available(keys, sigs) < threshold then Err(NotEnoughSignatures(Available(keys, sigs)))
    else Ok(Reversed(Chosen(keys, sigs, threshold)))
  }

  /** What `use` holds once the first `i` keys have been looked at. */
  ghost predicate Picked(use: map<int, ByteString>, keys: seq<ByteString>, sigs: Signatures, threshold: nat, i: nat)
    requires i <= |keys|
  {
    && |use| == Min(threshold, Available(keys[..i], sigs))
    && (forall j :: j in use ==> 0 <= j < i)
    && forall j | 0 <= j < i :: Chosen(keys, sigs, threshold)[j] == if j in use then use[j] else []
  }

  lemma {:induction false} AvailableAppend(keys: seq<ByteString>, key: ByteString, sigs: Signatures)
    ensures Available(keys + [key], sigs) == Available(keys, sigs) + if SignatureOf(sigs, key) != [] then 1 else 0
  {
    if |keys| > 0 {
      AvailableAppend(keys[1..], key, sigs);
      assert (keys + [key])[1..] == keys[1..] + [key];
    } else {
      assert ([] + [key])[1..] == [];
    }
  }

  lemma {:induction false} ChosenAt(keys: seq<ByteString>, sigs: Signatures, left: nat, i: nat)
    requires i < |keys|
    ensures Chosen(keys, sigs, left)[i]
            == if Available(keys[..i], sigs) < left then SignatureOf(sigs, keys[i]) else []
  {
    if i > 0 {
      var taken := left > 0 && SignatureOf(sigs, keys[0]) != [];
      ChosenAt(keys[1..], sigs, if taken then left - 1 else left, i - 1);
      assert keys[1..][..i - 1] == keys[..i][1..];
    }
  }

  lemma NothingChosenAfterwards(keys: seq<ByteString>, sigs: Signatures, threshold: nat, i: nat)
    requires i <= |keys| && (i == |keys| || Available(keys[..i], sigs) >= threshold)
    ensures forall j | i <= j < |keys| :: Chosen(keys, sigs, threshold)[j] == []
  {
    forall j | i <= j < |keys| ensures Chosen(keys, sigs, threshold)[j] == [] {
      ChosenAt(keys, sigs, threshold, j);
      AvailableMonotone(keys, sigs, i, j);
    }
  }

  /** One more key looked at. */
  lemma PickedNext(use: map<int, ByteString>, keys: seq<ByteString>, sigs: Signatures, threshold: nat, i: nat)
    requires i < |keys| && |use| < threshold && Picked(use, keys, sigs, threshold, i)
    ensures var sig := SignatureOf(sigs, keys[i]);
            Picked(if |sig| > 0 then use[i := sig] else use, keys, sigs, threshold, i + 1)
  {
    ChosenAt(keys, sigs, threshold, i);
    assert keys[..i + 1] == keys[..i] + [keys[i]];
    AvailableAppend(keys[..i], keys[i], sigs);
    PickedGrows(use, Chosen(keys, sigs, threshold), i, SignatureOf(sigs, keys[i]));
  }

  lemma PickedGrows(use: map<int, ByteString>, chosen: seq<ByteString>, i: nat, sig: ByteString)
    requires i < |chosen| && chosen[i] == sig && (forall j :: j in use ==> 0 <= j < i)
    requires forall j | 0 <= j < i :: chosen[j] == if j in use then use[j] else []
    ensures var next := if |sig| > 0 then use[i := sig] else use;
            && |next| == |use| + (if sig != [] then 1 else 0)
            && (forall j :: j in next ==> 0 <= j < i + 1)
            && forall j | 0 <= j < i + 1 :: chosen[j] == if j in next then next[j] else []
  {
  }

  method Witness(keys: seq<ByteString>, threshold: nat, sigs: Signatures, leaf: ByteString, control: ByteString)
    returns (r: Result<seq<ByteString>, WitnessError>)
    ensures match Elements(keys, threshold, sigs)
            case Err(e) => r == Err(e)
            case Ok(elements) => r == Ok(elements + [leaf, control])
  {
    var use: map<int, ByteString> := map[];
    var i := 0;
    while i < |keys| && |use| != threshold
      invariant 0 <= i <= |keys| && |use| <= threshold
      invariant Picked(use, keys, sigs, threshold, i)
    {
      PickedNext(use, keys, sigs, threshold, i);
      var sig := SignatureOf(sigs, keys[i]);
      if |sig| > 0 {
        use := use[i := sig];
      }
      i := i + 1;
    }
    EnoughSoFar(keys, sigs, i);
    if |use| < threshold {
      assert keys[..i] == keys;
      return Err(NotEnoughSignatures(|use|));
    }
    ghost var chosen := Chosen(keys, sigs, threshold);
    NothingChosenAfterwards(keys, sigs, threshold, i);
    var elements: seq<ByteString> := [];
    var n := |keys|;
    while n > 0
      invariant 0 <= n <= |keys|
      invariant elements == Reversed(chosen[n..])
    {
      n := n - 1;
      elements := elements + [if n in use then use[n] else []];
      assert chosen[n..][1..] == chosen[n + 1..] && chosen[n..][0] == chosen[n];
    }
    assert chosen[0..] == chosen;
    return Ok(elements + [leaf, control]);
  }

  lemma AvailableMonotone(keys: seq<ByteString>, sigs: Signatures, i: nat, j: nat)
    requires i <= j <= |keys|
    ensures Available(keys[..i], sigs) <= Available(keys[..j], sigs)
    decreases j - i
  {
    if i < j {
      AvailableMonotone(keys, sigs, i, j - 1);
      assert keys[..j] == keys[..j - 1] + [keys[j - 1]];
      AvailableAppend(keys[..j - 1], keys[j - 1], sigs);
    }
  }

  lemma EnoughSoFar(keys: seq<ByteString>, sigs: Signatures, i: nat)
    requires i <= |keys|
    ensures Available(keys[..i], sigs) <= Available(keys, sigs)
  {
    AvailableMonotone(keys, sigs, i, |keys|);
    assert keys[..|keys|] == keys;
  }

  // --- What the witness is good for ------------------------------------------

  /** The signatures chosen are all their keys' own. */
  predicate AllValid(keys: seq<ByteString>, elements: seq<ByteString>, valid: (ByteString, ByteString) -> bool)
    requires |keys| == |elements|
  {
    forall i | 0 <= i < |keys| :: elements[i] != [] ==> valid(keys[i], elements[i])
  }

  function ListOf(elements: seq<ByteString>, bottom: Stack): Stack {
    if |elements| == 0 then bottom else Cons(Data(elements[0]), ListOf(elements[1..], bottom))
  }

  lemma {:induction false} ReversedStack(elements: seq<ByteString>)
    ensures StackOf(Reversed(elements)) == ListOf(elements, Empty)
  {
    if |elements| > 0 {
      ReversedStack(elements[1..]);
      var r := Reversed(elements);
      assert r[..|r| - 1] == Reversed(elements[1..]);
    }
  }

  lemma {:induction false} RunLeafAppend(m: Leaf, p: seq<LeafOp>, q: seq<LeafOp>,
                                         valid: (ByteString, ByteString) -> bool)
    ensures RunLeaf(m, p + q, valid) == RunLeaf(RunLeaf(m, p, valid), q, valid)
    decreases |p|
  {
    if |p| == 0 {
      assert p + q == q;
    } else {
      RunLeafAppend(LeafStep(m, p[0], valid), p[1..], q, valid);
      assert (p + q)[1..] == p[1..] + q;
    }
  }

  lemma {:induction false} RunLeafFailed(ops: seq<LeafOp>, valid: (ByteString, ByteString) -> bool)
    ensures RunLeaf(Failed, ops, valid) == Failed
    decreases |ops|
  {
    if |ops| > 0 {
      RunLeafFailed(ops[1..], valid);
    }
  }

  lemma RunLeafTwo(m: Leaf, a: LeafOp, b: LeafOp, valid: (ByteString, ByteString) -> bool)
    ensures RunLeaf(m, [a, b], valid) == LeafStep(LeafStep(m, a, valid), b, valid)
  {
    assert [a, b][1..] == [b] && [b][1..] == [];
    assert RunLeaf(LeafStep(m, a, valid), [b], valid) == LeafStep(LeafStep(m, a, valid), b, valid);
  }

  lemma AllValidTail(keys: seq<ByteString>, elements: seq<ByteString>, valid: (ByteString, ByteString) -> bool)
    requires |keys| == |elements| > 0 && (elements[0] != [] ==> valid(keys[0], elements[0]))
    ensures AllValid(keys, elements, valid) <==> AllValid(keys[1..], elements[1..], valid)
  {
  }

  /** The CHECKSIGADD chain adds up the valid signatures, and fails on the first invalid one. */
  lemma {:induction false} AddRun(keys: seq<ByteString>, elements: seq<ByteString>, n: int,
                                  valid: (ByteString, ByteString) -> bool)
    requires |keys| == |elements|
    ensures RunLeaf(Running(Cons(Count(n), ListOf(elements, Empty))), AddOps(keys), valid)
            == if AllValid(keys, elements, valid) then Running(Cons(Count(n + NonEmpty(elements)), Empty)) else Failed
  {
    if |keys| > 0 {
      var m := Running(Cons(Count(n), ListOf(elements, Empty)));
      var first := [PushKey(keys[0]), CheckSigAdd];
      RunLeafTwo(m, first[0], first[1], valid);
      RunLeafAppend(m, first, AddOps(keys[1..]), valid);
      match Checked(keys[0], elements[0], valid) {
        case None =>
          RunLeafFailed(AddOps(keys[1..]), valid);
        case Some(k) =>
          AddRun(keys[1..], elements[1..], n + k, valid);
          AllValidTail(keys, elements, valid);
      }
    }
  }

  /** The whole leaf up to the comparison. */
  lemma TotalRun(keys: seq<ByteString>, elements: seq<ByteString>, valid: (ByteString, ByteString) -> bool)
    requires |keys| == |elements| > 0
    ensures RunLeaf(Running(ListOf(elements, Empty)), [PushKey(keys[0]), CheckSig] + AddOps(keys[1..]), valid)
            == if AllValid(keys, elements, valid) then Running(Cons(Count(NonEmpty(elements)), Empty)) else Failed
  {
    var m := Running(ListOf(elements, Empty));
    RunLeafTwo(m, PushKey(keys[0]), CheckSig, valid);
    RunLeafAppend(m, [PushKey(keys[0]), CheckSig], AddOps(keys[1..]), valid);
    match Checked(keys[0], elements[0], valid) {
      case None =>
        RunLeafFailed(AddOps(keys[1..]), valid);
      case Some(k) =>
        AddRun(keys[1..], elements[1..], k, valid);
        AllValidTail(keys, elements, valid);
    }
  }

  lemma LeafRun(keys: seq<ByteString>, threshold: nat, elements: seq<ByteString>,
                valid: (ByteString, ByteString) -> bool)
    requires |keys| == |elements| > 0
    ensures LeafAccepts(keys, threshold, Reversed(elements), valid)
            <==> AllValid(keys, elements, valid) && NonEmpty(elements) == threshold
  {
    var m := Running(ListOf(elements, Empty));
    var total := [PushKey(keys[0]), CheckSig] + AddOps(keys[1..]);
    ReversedStack(elements);
    TotalRun(keys, elements, valid);
    RunLeafAppend(m, total, [PushCount(threshold), NumEqual], valid);
    RunLeafTwo(RunLeaf(m, total, valid), PushCount(threshold), NumEqual, valid);
  }

  lemma {:induction false} ChosenCount(keys: seq<ByteString>, sigs: Signatures, left: nat)
    ensures NonEmpty(Chosen(keys, sigs, left)) == Min(left, Available(keys, sigs))
  {
    if |keys| > 0 {
      var taken := left > 0 && SignatureOf(sigs, keys[0]) != [];
      var rest := Chosen(keys[1..], sigs, if taken then left - 1 else left);
      ChosenCount(keys[1..], sigs, if taken then left - 1 else left);
      assert Chosen(keys, sigs, left)[1..] == rest;
    }
  }

  /** The threshold witness: it exists exactly when enough signatures do, carries exactly the threshold of
      them however many were supplied, and spends the leaf exactly when the ones it chose, the first in
      script order, are valid. */
  lemma WitnessSpendsTheSweep(keys: seq<ByteString>, threshold: nat, sigs: Signatures,
                              valid: (ByteString, ByteString) -> bool)
    requires |keys| > 0
    ensures Elements(keys, threshold, sigs).Ok? <==> Available(keys, sigs) >= threshold
    ensures Elements(keys, threshold, sigs).Ok? ==>
              && NonEmpty(Chosen(keys, sigs, threshold)) == threshold
              && (LeafAccepts(keys, threshold, Elements(keys, threshold, sigs).value, valid)
                  <==> AllValid(keys, Chosen(keys, sigs, threshold), valid))
  {
    ChosenCount(keys, sigs, threshold);
    LeafRun(keys, threshold, Chosen(keys, sigs, threshold), valid);
  }

  /** Extra signatures do no harm: when every signature supplied is valid, the witness spends the leaf. */
  lemma ValidSignaturesSuffice(keys: seq<ByteString>, threshold: nat, sigs: Signatures,
                               valid: (ByteString, ByteString) -> bool)
    requires |keys| > 0 && Available(keys, sigs) >= threshold
    requires forall key :: key in keys && SignatureOf(sigs, key) != [] ==> valid(key, SignatureOf(sigs, key))
    ensures LeafAccepts(keys, threshold, Elements(keys, threshold, sigs).value, valid)
  {
    WitnessSpendsTheSweep(keys, threshold, sigs, valid);
    forall i | 0 <= i < |keys| && Chosen(keys, sigs, threshold)[i] != []
      ensures valid(keys[i], Chosen(keys, sigs, threshold)[i])
    {
      ChosenAt(keys, sigs, threshold, i);
    }
  }

  /** Why exactly the threshold goes in: one valid signature more and the leaf's NUMEQUAL refuses. */
  lemma OneSignatureTooMany(keys: seq<ByteString>, threshold: nat, sigs: Signatures, extra: nat,
                            valid: (ByteString, ByteString) -> bool)
    requires |keys| > 0 && extra > threshold && Available(keys, sigs) >= extra
    ensures !LeafAccepts(keys, threshold, Reversed(Chosen(keys, sigs, extra)), valid)
  {
    ChosenCount(keys, sigs, extra);
    LeafRun(keys, threshold, Chosen(keys, sigs, extra), valid);
  }
}
