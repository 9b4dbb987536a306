/** Which contract a settlement script belongs to: every parameter can be read back out of the bytes, and nothing but
    a contract's script reads back at all. */
module CovenantIdentity {
  import opened Bytes
  import opened Prelude
  import opened ScriptNum
  import opened Script
  import opened Vm
  import opened Terms
  import opened Covenant

  // --- Lock scripts ----------------------------------------------------------

  /** The scriptPubKey of a witness program. */
  function WitnessProgram(version: nat, program: ByteString): ByteString
    requires version <= 16 && 2 <= |program| <= 40
  {
    [if version == 0 then 0 else 0x50 + version, |program|] + program
  }

  /** A commitment to a witness program is the script itself, taken apart; to anything else it is the digest. */
  lemma CommitmentReadsBack(script: ByteString, crypto: Crypto)
    ensures var (digest, version) := Commitment(script, crypto);
            if version >= 0 then script == WitnessProgram(version, digest) else digest == crypto.sha256(script)
    ensures Commitment(script, crypto).1 >= 0 <==> IsWitnessProgram(script)
  {
  }

  lemma WitnessProgramsCommit(version: nat, program: ByteString, crypto: Crypto)
    requires version <= 16 && 2 <= |program| <= 40
    ensures Commitment(WitnessProgram(version, program), crypto) == (program, version)
  {
    var script := WitnessProgram(version, program);
    assert script[2..] == program;
  }

  /** A commitment pins the whole script: a witness program by what it contains, anything else by a hash the two
      scripts do not collide under. */
  lemma CommitmentPinsTheScript(a: ByteString, b: ByteString, crypto: Crypto)
    requires crypto.sha256(a) == crypto.sha256(b) ==> a == b
    ensures Commitment(a, crypto) == Commitment(b, crypto) <==> a == b
  {
    CommitmentReadsBack(a, crypto);
    CommitmentReadsBack(b, crypto);
  }

  // --- What a script says ----------------------------------------------------

  /** Everything a script says about its contract: the terms but for the lock scripts, and their commitments. */
  datatype Parameters = Parameters(terms: Terms, short: (ByteString, int), long: (ByteString, int))

  function ParametersOf(t: Terms, crypto: Crypto): Parameters {
    Parameters(t.(shortScript := [], longScript := []),
               Commitment(t.shortScript, crypto), Commitment(t.longScript, crypto))
  }

  predicate IsCommitment(c: (ByteString, int)) {
    (0 <= c.1 <= 16 && 2 <= |c.0| <= 40) || (c.1 == -1 && |c.0| == 32)
  }

  /** Parameters some contract could have. */
  predicate Plausible(p: Parameters) {
    && p.terms.shortScript == [] && p.terms.longScript == [] && Valid(p.terms.(shortScript := [1], longScript := [2]))
    && IsCommitment(p.short) && IsCommitment(p.long)
  }

  function EvidenceFor(p: Parameters): seq<Op> {
    var k := Encoded(p.terms);
    ShapeOps(k) + LockScriptCheck(0, p.short.0, Encode(p.short.1)) + LockScriptCheck(1, p.long.0, Encode(p.long.1))
    + OracleOps(p.terms) + PredecessorOps(k) + AdjacencyOps() + StartOps(k)
  }

  function ProgramFor(p: Parameters): seq<Op> {
    var k := Encoded(p.terms);
    EvidenceFor(p) + PriceOps(k) + BoundaryOps(k) + TriggerOps(k) + ShareOps(k) + PayoutOps(k)
  }

  /** A contract's program depends on its parameters alone. */
  lemma ProgramOfParameters(t: Terms, crypto: Crypto)
    ensures Program(t, crypto) == ProgramFor(ParametersOf(t, crypto))
  {
    SameConstants(t, ParametersOf(t, crypto).terms);
    EvidenceOfParameters(t, crypto);
  }

  lemma SameConstants(t: Terms, u: Terms)
    requires u == t.(shortScript := u.shortScript, longScript := u.longScript)
    ensures Encoded(t) == Encoded(u)
  {
    assert forall c | c in ALL_CONSTANTS :: ValueOf(c, t) == ValueOf(c, u);
  }

  lemma EvidenceOfParameters(t: Terms, crypto: Crypto)
    ensures EvidenceOps(t, crypto) == EvidenceFor(ParametersOf(t, crypto))
  {
    var p := ParametersOf(t, crypto);
    SameConstants(t, p.terms);
    assert RecipientOps(0, t.shortScript, crypto) == LockScriptCheck(0, p.short.0, Encode(p.short.1));
    assert RecipientOps(1, t.longScript, crypto) == LockScriptCheck(1, p.long.0, Encode(p.long.1));
    assert OracleOps(t) == OracleOps(p.terms);
  }

  // --- Reading ---------------------------------------------------------------

  const PROGRAM_LENGTH: nat := 113

  function DataAt(ops: seq<Op>, i: nat): ByteString
    requires i < |ops|
  {
    if ops[i].Push? then ops[i].data else []
  }

  function NumberAt(ops: seq<Op>, i: nat): int
    requires i < |ops|
  {
    Decode(DataAt(ops, i))
  }

  /** The pushes that carry a parameter, wherever they are, fit the width parameters have. */
  predicate NumbersFit(ops: seq<Op>)
    requires |ops| == PROGRAM_LENGTH
  {
    && IsInt64(NumberAt(ops, 5)) && IsInt64(NumberAt(ops, 63)) && IsInt64(NumberAt(ops, 75))
    && IsInt64(NumberAt(ops, 77)) && IsInt64(NumberAt(ops, 89)) && IsInt64(NumberAt(ops, 94))
    && IsInt64(NumberAt(ops, 97))
  }

  /** The parameters at their places in a program, whatever else it says. */
  function ParametersIn(ops: seq<Op>): Parameters
    requires |ops| == PROGRAM_LENGTH && NumbersFit(ops)
  {
    var terms := Terms(
      NumberAt(ops, 94), NumberAt(ops, 97), NumberAt(ops, 5), NumberAt(ops, 77), NumberAt(ops, 75), [], [],
      DataAt(ops, 22), NumberAt(ops, 63), NumberAt(ops, 89));
    Parameters(terms, (DataAt(ops, 11), NumberAt(ops, 9)), (DataAt(ops, 17), NumberAt(ops, 15)))
  }

  /** What a client does with a script it is shown: take the parameters out, rebuild, compare. */
  function ReadScript(b: ByteString): Option<Parameters> {
    match Parse(b)
    case None => None
    case Some(ops) =>
      if |ops| != PROGRAM_LENGTH || !NumbersFit(ops) then None
      else
        var p := ParametersIn(ops);
        if Plausible(p) && AllWellFormed(ProgramFor(p)) && Serialise(ProgramFor(p)) == b then Some(p) else None
  }

  /** Where the elements of seven segments end up when they are put end to end. */
  lemma EvidenceJoins(shape: seq<Op>, short: seq<Op>, long: seq<Op>, oracle: seq<Op>, predecessor: seq<Op>,
                      adjacency: seq<Op>, start: seq<Op>)
    requires |shape| == 7 && |short| == |long| == 6 && |oracle| == 14 && |predecessor| == 8
    requires |adjacency| == 16 && |start| == 9
    ensures var ops := shape + short + long + oracle + predecessor + adjacency + start;
            && |ops| == 66 && ops[5] == shape[5] && ops[9] == short[2] && ops[11] == short[4]
            && ops[15] == long[2] && ops[17] == long[4] && ops[22] == oracle[3] && ops[63] == start[6]
  {
  }

  predicate SameEvidence(ops: seq<Op>, evidence: seq<Op>)
    requires |ops| >= 66 && |evidence| == 66
  {
    && ops[5] == evidence[5] && ops[9] == evidence[9] && ops[11] == evidence[11] && ops[15] == evidence[15]
    && ops[17] == evidence[17] && ops[22] == evidence[22] && ops[63] == evidence[63]
  }

  lemma PaymentJoins(evidence: seq<Op>, price: seq<Op>, boundary: seq<Op>, trigger: seq<Op>, share: seq<Op>,
                     payout: seq<Op>)
    requires |evidence| == 66 && |price| == 13 && |boundary| == 9 && |trigger| == 6 && |share| == 9 && |payout| == 10
    ensures var ops := evidence + price + boundary + trigger + share + payout;
            && |ops| == PROGRAM_LENGTH && SameEvidence(ops, evidence)
            && ops[75] == price[9] && ops[77] == price[11] && ops[89] == trigger[1]
            && ops[94] == share[0] && ops[97] == share[3]
  {
  }

  lemma RecipientPlaces(index: nat, c: (ByteString, int))
    requires index <= 1
    ensures var ops := LockScriptCheck(index, c.0, Encode(c.1));
            |ops| == 6 && ops[2] == Push(Encode(c.1)) && ops[4] == Push(c.0)
  {
  }

  lemma RulePlaces(t: Terms, k: Constants)
    requires Complete(k)
    ensures |ShapeOps(k)| == 7 && ShapeOps(k)[5] == Push(k[Payout])
    ensures |OracleOps(t)| == 14 && OracleOps(t)[3] == Push(t.oracleKey)
    ensures |PredecessorOps(k)| == 8 && |AdjacencyOps()| == 16
    ensures |StartOps(k)| == 9 && StartOps(k)[6] == Push(k[Start])
  {
  }

  lemma PaymentPlaces(k: Constants)
    requires Complete(k)
    ensures |PriceOps(k)| == 13 && PriceOps(k)[9] == Push(k[High]) && PriceOps(k)[11] == Push(k[Low])
    ensures |BoundaryOps(k)| == 9 && |TriggerOps(k)| == 6 && TriggerOps(k)[1] == Push(k[Maturity])
    ensures |ShareOps(k)| == 9 && ShareOps(k)[0] == Push(k[Nominal]) && ShareOps(k)[3] == Push(k[Leverage])
    ensures |PayoutOps(k)| == 10
  {
  }

  /** The table's numbers read back as the terms'. */
  predicate Reads(k: Constants, t: Terms) {
    && Complete(k)
    && Decode(k[Payout]) == t.payout && Decode(k[Start]) == t.start && Decode(k[High]) == t.high
    && Decode(k[Low]) == t.low && Decode(k[Maturity]) == t.maturity && Decode(k[Nominal]) == t.nominal
    && Decode(k[Leverage]) == t.leverage
  }

  lemma EncodedReads(t: Terms)
    ensures Reads(Encoded(t), t)
  {
  }

  lemma PlacesGiveParameters(ops: seq<Op>, p: Parameters, k: Constants)
    requires |ops| == PROGRAM_LENGTH && Reads(k, p.terms) && p.terms.shortScript == [] && p.terms.longScript == []
    requires ops[5] == Push(k[Payout]) && ops[63] == Push(k[Start])
    requires ops[75] == Push(k[High]) && ops[77] == Push(k[Low])
    requires ops[89] == Push(k[Maturity]) && ops[94] == Push(k[Nominal]) && ops[97] == Push(k[Leverage])
    requires ops[22] == Push(p.terms.oracleKey)
    requires ops[9] == Push(Encode(p.short.1)) && ops[11] == Push(p.short.0)
    requires ops[15] == Push(Encode(p.long.1)) && ops[17] == Push(p.long.0)
    ensures NumbersFit(ops) && ParametersIn(ops) == p
  {
  }

  lemma EvidencePlaces(p: Parameters)
    ensures var (ops, k) := (EvidenceFor(p), Encoded(p.terms));
            && |ops| == 66 && ops[5] == Push(k[Payout])
            && ops[9] == Push(Encode(p.short.1)) && ops[11] == Push(p.short.0)
            && ops[15] == Push(Encode(p.long.1)) && ops[17] == Push(p.long.0)
            && ops[22] == Push(p.terms.oracleKey) && ops[63] == Push(k[Start])
  {
    var k := Encoded(p.terms);
    RulePlaces(p.terms, k);
    RecipientPlaces(0, p.short);
    RecipientPlaces(1, p.long);
    EvidenceJoins(ShapeOps(k), LockScriptCheck(0, p.short.0, Encode(p.short.1)),
                  LockScriptCheck(1, p.long.0, Encode(p.long.1)), OracleOps(p.terms), PredecessorOps(k), AdjacencyOps(),
                  StartOps(k));
  }

  lemma ProgramPlaces(ops: seq<Op>, evidence: seq<Op>, k: Constants)
    requires Complete(k) && |evidence| == 66
    requires ops == evidence + PriceOps(k) + BoundaryOps(k) + TriggerOps(k) + ShareOps(k) + PayoutOps(k)
    ensures |ops| == PROGRAM_LENGTH && SameEvidence(ops, evidence)
    ensures ops[75] == Push(k[High]) && ops[77] == Push(k[Low]) && ops[89] == Push(k[Maturity])
    ensures ops[94] == Push(k[Nominal]) && ops[97] == Push(k[Leverage])
  {
    PaymentPlaces(k);
    PaymentJoins(evidence, PriceOps(k), BoundaryOps(k), TriggerOps(k), ShareOps(k), PayoutOps(k));
  }

  lemma PlacesOfParameters(ops: seq<Op>, evidence: seq<Op>, p: Parameters, k: Constants)
    requires Reads(k, p.terms) && p.terms.shortScript == [] && p.terms.longScript == []
    requires ops == evidence + PriceOps(k) + BoundaryOps(k) + TriggerOps(k) + ShareOps(k) + PayoutOps(k)
    requires |evidence| == 66 && evidence[5] == Push(k[Payout])
    requires evidence[9] == Push(Encode(p.short.1)) && evidence[11] == Push(p.short.0)
    requires evidence[15] == Push(Encode(p.long.1)) && evidence[17] == Push(p.long.0)
    requires evidence[22] == Push(p.terms.oracleKey) && evidence[63] == Push(k[Start])
    ensures |ops| == PROGRAM_LENGTH && NumbersFit(ops) && ParametersIn(ops) == p
  {
    ProgramPlaces(ops, evidence, k);
    PlacesGiveParameters(ops, p, k);
  }

  /** The parameters are where the reader looks for them. */
  lemma ParametersAreInTheProgram(ops: seq<Op>, p: Parameters)
    requires ops == ProgramFor(p) && p.terms.shortScript == [] && p.terms.longScript == []
    ensures |ops| == PROGRAM_LENGTH && NumbersFit(ops) && ParametersIn(ops) == p
  {
    EvidencePlaces(p);
    EncodedReads(p.terms);
    PlacesOfParameters(ops, EvidenceFor(p), p, Encoded(p.terms));
  }

  lemma ContractsArePlausible(t: Terms, crypto: Crypto)
    requires Valid(t)
    ensures Plausible(ParametersOf(t, crypto))
  {
    CommitmentReadsBack(t.shortScript, crypto);
    CommitmentReadsBack(t.longScript, crypto);
  }

  lemma ReaderTakes(b: ByteString, ops: seq<Op>, p: Parameters)
    requires Plausible(p) && ops == ProgramFor(p) && AllWellFormed(ops) && Serialise(ops) == b && Parse(b) == Some(ops)
    ensures ReadScript(b) == Some(p)
  {
    ParametersAreInTheProgram(ops, p);
  }

  /** The reader reads every valid contract's script, and reads that contract's parameters. */
  lemma ScriptsReadBack(t: Terms, crypto: Crypto)
    requires Valid(t)
    ensures Compile(t, crypto).Ok? && ReadScript(Compile(t, crypto).value) == Some(ParametersOf(t, crypto))
  {
    var ops := Program(t, crypto);
    ProgramWellFormed(t, crypto);
    ProgramOfParameters(t, crypto);
    ParseSerialise(ops);
    ContractsArePlausible(t, crypto);
    ReaderTakes(Serialise(ops), ops, ParametersOf(t, crypto));
  }

  // --- And nothing else ------------------------------------------------------

  /** A lock script with a given commitment, under a hash that has been told about the two markers. */
  function ScriptFor(c: (ByteString, int), marker: Byte): ByteString
    requires IsCommitment(c)
  {
    if c.1 >= 0 then WitnessProgram(c.1, c.0) else [marker]
  }

  function HashFor(p: Parameters): Crypto
    requires Plausible(p)
  {
    var (short, long) := (p.short.0, p.long.0);
    var zeros: Digest := seq(32, _ => 0);
    Crypto((x: ByteString) => if x == [1] && |short| == 32 then short
                              else if x == [2] && |long| == 32 then long else zeros,
           (key, digest, sig) => true)
  }

  lemma SomeContractHasThem(p: Parameters)
    requires Plausible(p)
    ensures var t := p.terms.(shortScript := ScriptFor(p.short, 1), longScript := ScriptFor(p.long, 2));
            Valid(t) && ParametersOf(t, HashFor(p)) == p
  {
    if p.short.1 >= 0 {
      WitnessProgramsCommit(p.short.1, p.short.0, HashFor(p));
    }
    if p.long.1 >= 0 {
      WitnessProgramsCommit(p.long.1, p.long.0, HashFor(p));
    }
  }

  ghost predicate IsScriptOf(b: ByteString, t: Terms, crypto: Crypto) {
    Valid(t) && Compile(t, crypto) == Ok(b)
  }

  /** The reader, exactly: it succeeds on some bytes if and only if they are some valid contract's script, and what it
      returns are that contract's parameters. */
  lemma ReadsExactlyTheScripts(b: ByteString)
    ensures ReadScript(b).Some? <==> exists t, crypto :: IsScriptOf(b, t, crypto)
    ensures forall t, crypto :: IsScriptOf(b, t, crypto) ==> ReadScript(b) == Some(ParametersOf(t, crypto))
  {
    forall t, crypto | IsScriptOf(b, t, crypto) ensures ReadScript(b) == Some(ParametersOf(t, crypto)) {
      ScriptsReadBack(t, crypto);
    }
    if ReadScript(b).Some? {
      var p := ReadScript(b).value;
      var t := p.terms.(shortScript := ScriptFor(p.short, 1), longScript := ScriptFor(p.long, 2));
      SomeContractHasThem(p);
      ProgramWellFormed(t, HashFor(p));
      ProgramOfParameters(t, HashFor(p));
      assert IsScriptOf(b, t, HashFor(p));
    }
  }

  /** Two valid contracts have the same settlement script, byte for byte, exactly when they are the same in every
      parameter, the two recipients up to what the machine can see of them. A parameter that did not reach the script
      would be one a counterparty could change. */
  lemma ScriptIdentifiesTheContract(a: Terms, b: Terms, crypto: Crypto)
    requires Valid(a) && Valid(b)
    ensures Compile(a, crypto) == Compile(b, crypto) <==> ParametersOf(a, crypto) == ParametersOf(b, crypto)
  {
    ScriptsReadBack(a, crypto);
    ScriptsReadBack(b, crypto);
    ProgramOfParameters(a, crypto);
    ProgramOfParameters(b, crypto);
  }

  /** And where the hash does not collide on the lock scripts at hand, the script and the terms determine each other. */
  lemma ScriptIdentifiesTheTerms(a: Terms, b: Terms, crypto: Crypto)
    requires Valid(a) && Valid(b)
    requires crypto.sha256(a.shortScript) == crypto.sha256(b.shortScript) ==> a.shortScript == b.shortScript
    requires crypto.sha256(a.longScript) == crypto.sha256(b.longScript) ==> a.longScript == b.longScript
    ensures Compile(a, crypto) == Compile(b, crypto) <==> a == b
  {
    ScriptIdentifiesTheContract(a, b, crypto);
    CommitmentPinsTheScript(a.shortScript, b.shortScript, crypto);
    CommitmentPinsTheScript(a.longScript, b.longScript, crypto);
    if ParametersOf(a, crypto) == ParametersOf(b, crypto) {
      assert a == ParametersOf(a, crypto).terms.(shortScript := a.shortScript, longScript := a.longScript);
    }
  }
}
