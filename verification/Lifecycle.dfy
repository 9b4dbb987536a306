/**
 The life of one contract (service/internal/app): a row shared by any number of request handlers and
 workers, each holding a copy as old as it likes, any of them stopping between any two statements.
 */
module Lifecycle {
  import opened Prelude
  import opened Bytes
  import opened Vm
  import opened Terms
  import opened OracleMessages
  import opened Arbitrations
  import opened ContractStore
  import opened Redemptions

  /** What the service is built on and never decides. */
  datatype Env = Env(
    operator: Operator,
    keyOf: User -> ByteString,
    sweepScript: (ByteString, ByteString) -> ByteString,
    sequence: (nat, bool) -> Option<nat>,
    exitFee: Int64,
    accepts: Core -> bool,
    verifiesExit: (Core, ByteString, Tx, Int64, ByteString) -> bool)

  // --- Opening ---------------------------------------------------------------

  /** One side of a contract that has no other side yet: what it hedges, what it locks up, and its range. */
  datatype Offer = Offer(
    creator: User, side: Side, hedgeValueCents: Int64, payout: Int64, low: Int64, high: Int64, maturityIn: Int64,
    mutualRedemption: bool)

  datatype OpenError = HedgeNotPositive | PayoutTooSmall | LowNotPositive | HighNotAboveLow | MaturityNotAhead
    | AlreadyOutside

  /** Proposal.validate. */
  function ValidateOffer(o: Offer): Option<OpenError> {
    if o.hedgeValueCents <= 0 then Some(HedgeNotPositive)
    else if o.payout < 2 * DUST then Some(PayoutTooSmall)
    else if o.low <= 0 then Some(OpenError.LowNotPositive)
    else if o.high <= o.low then Some(OpenError.HighNotAboveLow)
    else if o.maturityIn <= 0 then Some(MaturityNotAhead)
    else None
  }

  /** What the moment of opening supplies: the oracle's key and price, the creator's script, the clock, the stack. */
  datatype Moment = Moment(
    oracleKey: ByteString, price: Int64, script: ByteString, start: Int64, maturity: Int64,
    arkdSigner: ByteString, emulatorSigner: ByteString, exitDelay: nat, exitDelayInBlocks: bool)

  /** Propose: the creator alone, holding the whole payout until the other side is known. */
  function Opened(env: Env, o: Offer, m: Moment): Result<Core, OpenError> {
    if ValidateOffer(o).Some? then Err(ValidateOffer(o).value)
    else if m.price <= o.low || m.price >= o.high then Err(AlreadyOutside)
    else
      var isShort := o.side.Short?;
      var terms := Terms(
        NominalUnits(o.hedgeValueCents), 0, o.payout, o.low, o.high,
        if isShort then m.script else [], if isShort then [] else m.script, m.oracleKey, m.start, m.maturity);
      Ok(Core(
        o.side, if isShort then Some(o.creator) else None, if isShort then None else Some(o.creator), terms,
        if isShort then env.keyOf(o.creator) else [], if isShort then [] else env.keyOf(o.creator),
        m.arkdSigner, m.emulatorSigner, m.exitDelay, m.exitDelayInBlocks, o.mutualRedemption, [], o.payout, 0))
  }

  /** The contract with its free side taken: the acceptor's key and script are on it. */
  function Taken(env: Env, core: Core, who: User, script: ByteString): Core {
    if core.creator.Long? then
      core.(shortUser := Some(who), shortKey := env.keyOf(who), terms := core.terms.(shortScript := script))
    else
      core.(longUser := Some(who), longKey := env.keyOf(who), terms := core.terms.(longScript := script))
  }

  /** Accept: the free side taken, stakes from the covenant's formula at the opening price, and only then the rules
      of the operator, which may refuse any contract. */
  function Joined(env: Env, core: Core, who: User, script: ByteString, pkScript: ByteString,
                  price: Int64): Option<Core> {
    var both := Taken(env, core, who, script);
    if SideOf(core, who).Some? then None
    else
      match SettlementSplit(both.terms, price)
      case Err(_) => None
      case Ok((short, long)) =>
        var staked := both.(shortStake := short, longStake := long);
        if env.accepts(staked) then Some(staked.(pkScript := pkScript)) else None
  }

  /** A contract on offer: its creator alone, holding the whole payout for now. */
  predicate OnOffer(env: Env, core: Core) {
    && core.shortStake + core.longStake == core.terms.payout
    && (if core.creator.Short? then core.shortUser.Some? && core.longUser.None?
        else core.longUser.Some? && core.shortUser.None?)
    && KeysAreTheirs(core, env.keyOf)
  }

  /** A contract two people agreed on. */
  predicate Agreed(env: Env, core: Core) {
    && Valid(core.terms)
    && core.shortStake + core.longStake == core.terms.payout && core.shortStake >= DUST && core.longStake >= DUST
    && core.shortUser.Some? && core.longUser.Some? && core.shortUser != core.longUser
    && KeysAreTheirs(core, env.keyOf)
  }

  function ScriptOn(core: Core, side: Side): ByteString {
    if side.Short? then core.terms.shortScript else core.terms.longScript
  }

  /** Taking an offer makes it a contract: the acceptor is on the free side with their own key and script, the
      creator is where they were, and each stake is what the covenant would pay back at the opening price, so a
      contract settled at once would move nothing. */
  lemma JoiningAgrees(env: Env, core: Core, who: User, script: ByteString, pkScript: ByteString, price: Int64)
    requires OnOffer(env, core) && Joined(env, core, who, script, pkScript, price).Some?
    ensures var joined := Joined(env, core, who, script, pkScript, price).value;
            var free := Other(core.creator);
            && Agreed(env, joined)
            && SettlementSplit(joined.terms, price) == Ok((joined.shortStake, joined.longStake))
            && SideOf(joined, who) == Some(free) && (forall u :: u != who ==> SideOf(joined, u) == SideOf(core, u))
            && KeyOn(joined, free) == env.keyOf(who) && ScriptOn(joined, free) == script
            && KeyOn(joined, core.creator) == KeyOn(core, core.creator)
            && ScriptOn(joined, core.creator) == ScriptOn(core, core.creator)
    ensures var joined := Joined(env, core, who, script, pkScript, price).value;
            && joined.pkScript == pkScript && env.accepts(joined.(pkScript := core.pkScript))
            && joined.terms.(shortScript := [], longScript := []) == core.terms.(shortScript := [], longScript := [])
            && joined.creator == core.creator && joined.mutualRedemption == core.mutualRedemption
            && joined.arkdSigner == core.arkdSigner && joined.emulatorSigner == core.emulatorSigner
            && joined.exitDelay == core.exitDelay && joined.exitDelayInBlocks == core.exitDelayInBlocks
  {
  }

  /** When a position can be opened: every number positive, the range a range that the price is strictly inside of,
      and two dust outputs in the payout. */
  lemma OpensExactly(env: Env, o: Offer, m: Moment)
    ensures Opened(env, o, m).Ok?
            <==> && o.hedgeValueCents > 0 && o.maturityIn > 0 && o.payout >= 2 * DUST
                 && 0 < o.low < m.price < o.high
  {
  }

  /** An opened position is an offer by its creator on the side they chose, for the payout they asked, at a price
      strictly inside its own range: it cannot liquidate the instant it is funded. It hedges what was asked for, as
      long as that can be scaled, without leverage, and carries the moment's keys, times and delay. */
  lemma OpeningIsAnOffer(env: Env, o: Offer, m: Moment)
    requires Opened(env, o, m).Ok?
    ensures var core := Opened(env, o, m).value;
            && OnOffer(env, core) && SideOf(core, o.creator) == Some(o.side) && core.creator == o.side
            && core.terms.payout == o.payout && ScriptOn(core, o.side) == m.script
            && core.terms.low < m.price < core.terms.high && !Liquidated(core.terms, m.price)
    ensures var terms := Opened(env, o, m).value.terms;
            && (o.hedgeValueCents <= 92_233_720_368 ==> HedgeValueCents(terms.nominal) == o.hedgeValueCents)
            && terms.leverage == 0 && terms.low == o.low && terms.high == o.high
            && terms.start == m.start && terms.maturity == m.maturity && terms.oracleKey == m.oracleKey
    ensures var core := Opened(env, o, m).value;
            && KeyOn(core, o.side) == env.keyOf(o.creator)
            && KeyOn(core, Other(o.side)) == [] && ScriptOn(core, Other(o.side)) == []
            && core.arkdSigner == m.arkdSigner && core.emulatorSigner == m.emulatorSigner
            && core.exitDelay == m.exitDelay && core.exitDelayInBlocks == m.exitDelayInBlocks
            && core.mutualRedemption == o.mutualRedemption && core.pkScript == []
            && (core.shortStake, core.longStake) == (o.payout, 0)
  {
    if o.hedgeValueCents <= 92_233_720_368 {
      NominalRoundTrip(o.hedgeValueCents);
    }
  }

  /** What the short puts in is worth the hedge. At a price in cents for 100,000,000 sats, the short's stake buys no
      more than the cents it hedges, one sat more would, and the long puts in the rest; dust on either side aside. */
  lemma StakesAreWorthTheHedge(env: Env, o: Offer, m: Moment, who: User, script: ByteString, pkScript: ByteString,
                               price: Int64)
    requires Opened(env, o, m).Ok? && o.hedgeValueCents <= 92_233_720_368 && o.low <= price <= o.high
    requires Joined(env, Opened(env, o, m).value, who, script, pkScript, price).Some?
    ensures var joined := Joined(env, Opened(env, o, m).value, who, script, pkScript, price).value;
            var stake := joined.shortStake;
            && (stake > DUST ==> stake * price <= o.hedgeValueCents * 100_000_000)
            && (stake < o.payout - DUST ==> (stake + 1) * price > o.hedgeValueCents * 100_000_000)
            && joined.longStake == o.payout - stake
  {
    var core := Opened(env, o, m).value;
    var joined := Joined(env, core, who, script, pkScript, price).value;
    var both := Taken(env, core, who, script);
    SplitIsTheShortShare(both.terms, price, joined.shortStake, joined.longStake);
  }

  /** Which offers anyone can take: those whose hedge value did not wrap to nothing on its way to the nominal, and that
      the operator accepts. The offer's own checks look at the value before it is scaled, the contract's at it after. */
  lemma OffersThatCanBeTaken(env: Env, o: Offer, m: Moment, who: User, script: ByteString, pkScript: ByteString,
                             price: Int64)
    requires Opened(env, o, m).Ok? && who != o.creator && price > 0
    requires |m.script| > 0 && |script| > 0 && |m.oracleKey| == 32 && 0 < m.start < m.maturity
    ensures var core := Opened(env, o, m).value;
            var both := Taken(env, core, who, script);
            Joined(env, core, who, script, pkScript, price).Some?
            <==> && NominalUnits(o.hedgeValueCents) > 0
                 && var split := SettlementSplit(both.terms, price);
                    split.Ok? && env.accepts(both.(shortStake := split.value.0, longStake := split.value.1))
  {
  }

  // --- The exit --------------------------------------------------------------

  datatype ExitPackage =
    ExitPackage(tx: Tx, amount: Int64, shortSig: ByteString, longSig: ByteString, swept: Option<(Outpoint, Int64)>)

  function ExitOf(env: Env, core: Core, outpoint: Outpoint): Result<Tx, ExitError> {
    ExitTx(outpoint, core.terms.payout, env.exitFee, env.sweepScript(core.shortKey, core.longKey),
           env.sequence(core.exitDelay, core.exitDelayInBlocks))
  }

  /** VerifyExitSignature: 64 bytes that verify against the key. */
  predicate VerifiesExit(env: Env, core: Core, side: Side, tx: Tx, sig: ByteString) {
    |sig| == 64 && env.verifiesExit(core, KeyOn(core, side), tx, core.terms.payout, sig)
  }

  /** A package either party can leave with alone: the one exit of this outpoint, signed by both. */
  predicate Covers(env: Env, core: Core, outpoint: Outpoint, pkg: ExitPackage) {
    && ExitOf(env, core, outpoint) == Ok(pkg.tx) && pkg.amount == core.terms.payout
    && VerifiesExit(env, core, Short, pkg.tx, pkg.shortSig)
    && VerifiesExit(env, core, Long, pkg.tx, pkg.longSig)
  }

  predicate Accepted(env: Env, core: Core, side: Side, tx: Tx, sig: Option<ByteString>) {
    sig.Some? && VerifiesExit(env, core, side, tx, sig.value)
  }

  /** presignExit, given what the two signers answer. */
  function Presigned(env: Env, core: Core, outpoint: Outpoint,
                     answers: Side -> Option<ByteString>): Option<ExitPackage> {
    match ExitOf(env, core, outpoint)
    case Err(_) => None
    case Ok(tx) =>
      if Accepted(env, core, Short, tx, answers(Short)) && Accepted(env, core, Long, tx, answers(Long))
      then Some(ExitPackage(tx, core.terms.payout, answers(Short).value, answers(Long).value, None))
      else None
  }

  /** A package is made exactly when there is an exit to sign and both signatures verify, and it is those two. */
  lemma PresignsExactly(env: Env, core: Core, outpoint: Outpoint, answers: Side -> Option<ByteString>)
    ensures Presigned(env, core, outpoint, answers).Some?
            <==> && ExitOf(env, core, outpoint).Ok? && answers(Short).Some? && answers(Long).Some?
                 && var exit := ExitOf(env, core, outpoint).value;
                    VerifiesExit(env, core, Short, exit, answers(Short).value)
                    && VerifiesExit(env, core, Long, exit, answers(Long).value)
    ensures var pkg := Presigned(env, core, outpoint, answers);
            pkg.Some? ==> && Covers(env, core, outpoint, pkg.value) && pkg.value.swept.None?
                          && Some(pkg.value.shortSig) == answers(Short) && Some(pkg.value.longSig) == answers(Long)
  {
  }

  /** The loop over the two sides: each signature is checked as it arrives, and the package is whole or absent. */
  method PresignExit(env: Env, core: Core, outpoint: Outpoint, answers: Side -> Option<ByteString>)
    returns (pkg: Option<ExitPackage>)
    ensures pkg == Presigned(env, core, outpoint, answers)
    ensures pkg.Some? ==> Covers(env, core, outpoint, pkg.value)
  {
    var exit := ExitOf(env, core, outpoint);
    if exit.Err? {
      return None;
    }
    var building := ExitPackage(exit.value, core.terms.payout, [], [], None);
    var sides := [Short, Long];
    for i := 0 to |sides|
      invariant building == ExitPackage(exit.value, core.terms.payout, building.shortSig, building.longSig, None)
      invariant forall k | 0 <= k < i :: Accepted(env, core, sides[k], exit.value, answers(sides[k]))
      invariant i > 0 ==> answers(Short) == Some(building.shortSig)
      invariant i > 1 ==> answers(Long) == Some(building.longSig)
    {
      var sig := answers(sides[i]);
      if !Accepted(env, core, sides[i], exit.value, sig) {
        assert sides[i] == Short || sides[i] == Long;
        return None;
      }
      if sides[i].Short? {
        building := building.(shortSig := sig.value);
      } else {
        building := building.(longSig := sig.value);
      }
    }
    assert Accepted(env, core, sides[0], exit.value, answers(sides[0]));
    assert Accepted(env, core, sides[1], exit.value, answers(sides[1]));
    return Some(building);
  }

  /** ExitRepo.Put: a row that exists takes nothing but where the exit landed. */
  function PutExit(stored: Option<ExitPackage>, pkg: ExitPackage): Option<ExitPackage> {
    match stored
    case None => Some(pkg)
    case Some(first) => Some(first.(swept := pkg.swept))
  }

  // --- The world -------------------------------------------------------------

  /** Where a worker is with the contract it picked up. */
  datatype Phase =
    | Idle
    | Working(copy: Row)
    | Funded(copy: Row)    // the operator has the collateral, and only this copy knows where
    | Leaving(copy: Row)   // it has read that the exit has not landed, and is broadcasting it
    | Ready(copy: Row)     // the exit is stored, signed when it was funding and landed when it was exiting

  datatype World = World(
    row: Row,                     // the row
    past: set<Row>,               // every row anyone may have read
    exit: Option<ExitPackage>,    // exit_packages
    close: Option<Proposal>,      // redemptions
    closes: set<Proposal>,        // every proposal anyone may have read
    submitted: set<Proposal>,     // what the operator was handed
    workers: seq<Phase>)

  datatype Action = Cancel | Fund | Settle | OfferClose | RejectClose | Leave | Arbitrating

  datatype Step =
    | Accept(copy: Row, who: User, script: ByteString, pkScript: ByteString, price: Int64, now: int)
    | Handle(action: Action, copy: Row, now: int)
    | PutClose(copy: Row, request: Request)
    | SignClose(copy: Row, who: User, proposal: Proposal)
    | BeginClose(copy: Row, proposal: Proposal, now: int)
    | DropClose
    | Pick(i: nat)
    | FundReturns(i: nat, outpoint: Outpoint)
    | SaveFunding(i: nat, now: int)
    | Presign(i: nat, answers: Side -> Option<ByteString>, readFails: bool)
    | Finish(i: nat, now: int)
    | GiveUp(i: nat, now: int)
    | Broadcast(i: nat)
    | Land(i: nat, outpoint: Outpoint, sats: Int64)
    | Submit(i: nat)
    | Crash(i: nat)

  /** The worker's table: what is outstanding, and where it goes when it has been stuck for too long. */
  function GiveUpTo(s: State): Option<State> {
    match s
    case Funding => Some(Failed)
    case Settling => Some(Active)
    case Redeeming => Some(Active)
    case Exiting => Some(Active)
    case Arbitrating => Some(Exited)
    case _ => None
  }

  /** And where it goes when its step is done. */
  function DoneTo(s: State): Option<State> {
    match s
    case Funding => Some(Active)
    case Settling => Some(Settled)
    case Redeeming => Some(Redeemed)
    case Exiting => Some(Exited)
    case Arbitrating => Some(Arbitrated)
    case _ => None
  }

  predicate Transient(s: State) {
    GiveUpTo(s).Some?
  }

  /** What each request asks the state of its copy to be, and where it moves it. Cancel and RejectRedemption ask
      nothing: what the transition table allows is all that stops them. */
  function Target(action: Action, s: State): Option<State> {
    match action
    case Cancel => Some(Cancelled)
    case Fund => if s.Accepted? then Some(Funding) else None
    case Settle => if s.Active? then Some(Settling) else None
    case OfferClose => if s.Active? then Some(RedemptionProposed) else None
    case RejectClose => Some(Active)
    case Leave => if s.Active? then Some(Exiting) else None
    case Arbitrating => if s.Exited? then Some(State.Arbitrating) else None
  }

  /** One whole-row write. */
  function Written(w: World, copy: Row, to: State, now: int): World {
    var row := Cas(w.row, copy, to, now);
    w.(row := row, past := w.past + {row})
  }

  function WithWorker(w: World, i: nat, phase: Phase): World
    requires i < |w.workers|
  {
    w.(workers := w.workers[i := phase])
  }

  /** Where the exit landed is on record. */
  predicate Landed(w: World) {
    w.exit.Some? && w.exit.value.swept.Some?
  }

  /** A worker whose step is done but for its last write. */
  predicate CanFinish(phase: Phase) {
    phase.Ready? || (phase.Working? && !phase.copy.state.Funding? && !phase.copy.state.Exiting?)
  }

  /** What else a request reads before it moves a contract. */
  predicate Allows(w: World, action: Action) {
    && (action.Leave? ==> w.exit.Some?)
    && (action.Arbitrating? ==> Landed(w))
  }

  /** A worker's write: the compare-and-swap either takes or is lost, and either way it is done with the copy. */
  function Worked(w: World, i: nat, copy: Row, to: Option<State>, now: int): World
    requires i < |w.workers|
  {
    if to.Some? && CanGoTo(copy.state, to.value) then WithWorker(Written(w, copy, to.value, now), i, Idle) else w
  }

  /** What worker `i` does on a step of its own. */
  function WorkerNext(env: Env, w: World, i: nat, step: Step): World
    requires i < |w.workers|
  {
    var phase := w.workers[i];
    match step
    case Pick(_) =>
      if phase.Idle? && Transient(w.row.state) then WithWorker(w, i, Working(w.row)) else w
    case FundReturns(_, outpoint) =>
      if phase.Working? && phase.copy.state.Funding? && phase.copy.funding.None?
      then WithWorker(w, i, Funded(phase.copy.(funding := Some(outpoint)))) else w
    case SaveFunding(_, now) =>
      if !phase.Funded? then w
      else if w.row.state != phase.copy.state then WithWorker(w, i, Idle)
      else WithWorker(Written(w, phase.copy, phase.copy.state, now), i, Working(phase.copy))
    case Presign(_, answers, readFails) =>
      if !(phase.Working? && phase.copy.state.Funding? && phase.copy.funding.Some?) then w
      else if w.exit.Some? && !readFails then WithWorker(w, i, Ready(phase.copy))
      else
        (match Presigned(env, phase.copy.core, phase.copy.funding.value, answers)
         case None => WithWorker(w, i, Idle)
         case Some(pkg) => WithWorker(w.(exit := PutExit(w.exit, pkg)), i, Ready(phase.copy)))
    case Finish(_, now) =>
      if CanFinish(phase)
      then Worked(w, i, phase.copy, DoneTo(phase.copy.state), now) else w
    case GiveUp(_, now) =>
      if phase.Working? then Worked(w, i, phase.copy, GiveUpTo(phase.copy.state), now) else w
    case Broadcast(_) =>
      if phase.Working? && phase.copy.state.Exiting? && w.exit.Some?
      then WithWorker(w, i, if Landed(w) then Ready(phase.copy) else Leaving(phase.copy)) else w
    case Land(_, outpoint, sats) =>
      if phase.Leaving? && w.exit.Some?
      then WithWorker(w.(exit := PutExit(w.exit, w.exit.value.(swept := Some((outpoint, sats))))), i, Ready(phase.copy))
      else w
    case Submit(_) =>
      if phase.Working? && phase.copy.state.Redeeming? && w.close.Some? && Signed(w.close.value)
      then w.(submitted := w.submitted + {w.close.value}) else w
    case Crash(_) => WithWorker(w, i, Idle)
    case _ => w
  }

  function Stored(w: World, p: Option<Proposal>): World {
    if p.None? then w else w.(close := p, closes := w.closes + {p.value})
  }

  /** A new uuid is nobody else's. */
  predicate IsFresh(w: World, id: nat) {
    forall p | p in w.closes :: p.id != id
  }

  predicate Held(w: World, copy: Row, s: State) {
    copy in w.past && copy.state == s
  }

  /** One atomic step of anybody. A step that does not apply leaves the world as it is. */
  function Next(env: Env, w: World, step: Step): World {
    match step
    case Accept(copy, who, script, pkScript, price, now) =>
      var core := Joined(env, copy.core, who, script, pkScript, price);
      if Held(w, copy, Proposed) && core.Some?
      then Written(w, copy.(core := core.value), State.Accepted, now) else w
    case Handle(action, copy, now) =>
      var to := Target(action, copy.state);
      if copy in w.past && to.Some? && CanGoTo(copy.state, to.value) && Allows(w, action)
      then Written(w, copy, to.value, now) else w
    case PutClose(copy, q) =>
      if Held(w, copy, Active) && copy.funding.Some? && IsFresh(w, q.id)
      then Stored(w, Propose(env.operator, copy.core, copy.funding.value, q, env.keyOf(q.who))) else w
    case SignClose(copy, who, proposal) =>
      if Held(w, copy, RedemptionProposed) && proposal in w.closes
      then Stored(w, Countersign(env.operator, copy.core, who, env.keyOf(who), proposal)) else w
    case BeginClose(copy, proposal, now) =>
      if Held(w, copy, RedemptionProposed) && proposal in w.closes && Signed(proposal)
      then Written(w, copy, Redeeming, now) else w
    case DropClose => w.(close := None)
    case _ => if step.i < |w.workers| then WorkerNext(env, w, step.i, step) else w
  }

  /** The states a request finds a contract in, to move it. */
  function MovesFrom(action: Action): set<State> {
    match action
    case Cancel => {Proposed, State.Accepted}
    case Fund => {State.Accepted}
    case Settle => {Active}
    case OfferClose => {Active}
    case RejectClose => {Funding, Settling, RedemptionProposed, Redeeming, Exiting}
    case Leave => {Active}
    case Arbitrating => {Exited}
  }

  function MovesTo(action: Action): State {
    match action
    case Cancel => Cancelled
    case Fund => Funding
    case Settle => Settling
    case OfferClose => RedemptionProposed
    case RejectClose => Active
    case Leave => Exiting
    case Arbitrating => State.Arbitrating
  }

  /** What each request does to the row, from the guard of its own and the transition table taken together: it moves
      the contract from the states it is for to the one it leads to, leaving asks for the exit and arbitrating for its
      landing, and anything else, a copy the row has left behind included, changes nothing. */
  lemma RequestsMoveExactly(env: Env, w: World, action: Action, copy: Row, now: int)
    ensures var current := copy in w.past && copy.state == w.row.state && copy.state in MovesFrom(action);
            var allowed := (action.Leave? ==> w.exit.Some?)
                           && (action.Arbitrating? ==> w.exit.Some? && w.exit.value.swept.Some?);
            Next(env, w, Handle(action, copy, now)).row
            == if current && allowed then copy.(state := MovesTo(action), updatedAt := now) else w.row
  {
  }

  /** A worker that records a funding goes on with it only when the row took it; on a lost write it stops. */
  lemma SavesOrStops(env: Env, w: World, i: nat, now: int)
    requires i < |w.workers| && w.workers[i].Funded?
    ensures var copy := w.workers[i].copy;
            var next := Next(env, w, SaveFunding(i, now));
            if w.row.state == copy.state then next.row == copy.(updatedAt := now) && next.workers[i] == Working(copy)
            else next.row == w.row && next.workers[i].Idle?
  {
  }

  function Run(env: Env, w: World, steps: seq<Step>): World {
    if |steps| == 0 then w
    else Next(env, Run(env, w, steps[..|steps| - 1]), steps[|steps| - 1])
  }

  /** A contract just proposed, and however many workers. */
  predicate Initial(env: Env, w: World) {
    && w.row.state == Proposed && OnOffer(env, w.row.core) && w.row.funding.None?
    && w.past == {w.row} && w.exit.None? && w.close.None? && w.closes == {} && w.submitted == {}
    && forall i | 0 <= i < |w.workers| :: w.workers[i].Idle?
  }

  // --- No lost update --------------------------------------------------------

  /** A copy that could still be written differs from the row in nothing that was agreed. */
  predicate Faithful(env: Env, row: Row, copy: Row) {
    && copy.core.shortStake + copy.core.longStake == copy.core.terms.payout
    && (copy.state.Proposed? ==> OnOffer(env, copy.core))
    && (!copy.state.Proposed? ==> !row.state.Proposed? && copy.core == row.core)
    && (!copy.state.Proposed? && !copy.state.Cancelled? ==> Agreed(env, copy.core))
  }

  predicate FaithfulWorker(env: Env, row: Row, phase: Phase) {
    phase.Idle? || (Faithful(env, row, phase.copy) && Transient(phase.copy.state))
  }

  /** Every proposal is sound for the contract it closes, and what was submitted was one of them, signed by both. */
  ghost predicate ClosesSound(env: Env, w: World) {
    && (forall p :: p in w.closes ==> !w.row.state.Proposed? && Sound(env.operator, w.row.core, p))
    && (w.close.Some? ==> w.close.value in w.closes)
    && (forall p :: p in w.submitted ==> p in w.closes && Signed(p))
  }

  ghost predicate Frozen(env: Env, w: World) {
    && w.row in w.past
    && (forall r :: r in w.past ==> Faithful(env, w.row, r))
    && (forall i | 0 <= i < |w.workers| :: FaithfulWorker(env, w.row, w.workers[i]))
    && ClosesSound(env, w)
  }

  /** A write nothing agreed is lost by: of a proposal that is taken up or withdrawn, or of a faithful copy. */
  predicate SafeWrite(env: Env, row: Row, copy: Row, to: State) {
    if copy.state.Proposed? then
      && copy.core.shortStake + copy.core.longStake == copy.core.terms.payout
      && ((to.Accepted? && Agreed(env, copy.core)) || to.Cancelled?)
    else
      Faithful(env, row, copy) && !copy.state.Cancelled? && !to.Proposed?
  }

  lemma WriteKeepsFrozen(env: Env, w: World, copy: Row, to: State, now: int)
    requires Frozen(env, w) && SafeWrite(env, w.row, copy, to)
    ensures Frozen(env, Written(w, copy, to, now))
    ensures !w.row.state.Proposed? ==>
              !Written(w, copy, to, now).row.state.Proposed? && Written(w, copy, to, now).row.core == w.row.core
  {
    var row := Cas(w.row, copy, to, now);
    assert Faithful(env, w.row, w.row);
    assert Faithful(env, row, row);
    forall r | Faithful(env, w.row, r) ensures Faithful(env, row, r) {
    }
  }

  lemma PhaseKeepsFrozen(env: Env, w: World, i: nat, phase: Phase)
    requires Frozen(env, w) && i < |w.workers| && FaithfulWorker(env, w.row, phase)
    ensures Frozen(env, WithWorker(w, i, phase))
  {
  }

  /** A worker's write keeps what was agreed, whichever way the compare-and-swap goes. */
  lemma WorkKeepsFrozen(env: Env, w: World, i: nat, to: State, now: int, phase: Phase)
    requires Frozen(env, w) && i < |w.workers| && !w.workers[i].Idle? && !to.Proposed?
    requires phase.Idle? || phase == Working(w.workers[i].copy)
    ensures var w' := WithWorker(Written(w, w.workers[i].copy, to, now), i, phase);
            Frozen(env, w') && !w.row.state.Proposed? && !w'.row.state.Proposed? && w'.row.core == w.row.core
  {
    var copy := w.workers[i].copy;
    assert FaithfulWorker(env, w.row, w.workers[i]);
    WriteKeepsFrozen(env, w, copy, to, now);
    PhaseKeepsFrozen(env, Written(w, copy, to, now), i, phase);
  }

  /** What every step keeps, and what it never takes back. */
  ghost predicate KeepsFrozen(env: Env, w: World, w': World) {
    Frozen(env, w') && (!w.row.state.Proposed? ==> !w'.row.state.Proposed? && w'.row.core == w.row.core)
  }

  /** A step that ends with the worker's copy given up. */
  lemma EndingKeepsFrozen(env: Env, w: World, i: nat, step: Step)
    requires Frozen(env, w) && i < |w.workers| && (step.Finish? || step.GiveUp?)
    ensures KeepsFrozen(env, w, WorkerNext(env, w, i, step))
  {
    var phase := w.workers[i];
    if !phase.Idle? {
      assert FaithfulWorker(env, w.row, phase);
      var to := if step.Finish? then DoneTo(phase.copy.state) else GiveUpTo(phase.copy.state);
      WorkKeepsFrozen(env, w, i, to.value, step.now, Idle);
    }
  }

  lemma SavingKeepsFrozen(env: Env, w: World, i: nat, now: int)
    requires Frozen(env, w) && i < |w.workers|
    ensures KeepsFrozen(env, w, WorkerNext(env, w, i, SaveFunding(i, now)))
  {
    var phase := w.workers[i];
    PhaseKeepsFrozen(env, w, i, Idle);
    if phase.Funded? {
      assert FaithfulWorker(env, w.row, phase);
      WorkKeepsFrozen(env, w, i, phase.copy.state, now, Working(phase.copy));
    }
  }

  /** Nothing of this is about where a worker is with its copy. */
  lemma SamePhasesKeepFrozen(env: Env, w: World, i: nat, w': World)
    requires Frozen(env, w) && i < |w.workers| && |w'.workers| == |w.workers|
    requires w'.row == w.row && w'.past == w.past && w'.closes == w.closes && w'.close == w.close
    requires forall p :: p in w'.submitted ==> p in w.submitted || (p in w.closes && Signed(p))
    requires forall j | 0 <= j < |w.workers| && j != i :: w'.workers[j] == w.workers[j]
    requires FaithfulWorker(env, w.row, w'.workers[i])
    ensures KeepsFrozen(env, w, w')
  {
    forall j | 0 <= j < |w'.workers| ensures FaithfulWorker(env, w'.row, w'.workers[j]) {
      assert FaithfulWorker(env, w.row, w.workers[j]);
    }
  }

  /** Everything else a worker does leaves the row alone. */
  lemma QuietWorkKeepsFrozen(env: Env, w: World, i: nat, step: Step)
    requires Frozen(env, w) && i < |w.workers|
    requires !step.SaveFunding? && !step.Finish? && !step.GiveUp?
    ensures KeepsFrozen(env, w, WorkerNext(env, w, i, step))
  {
    assert FaithfulWorker(env, w.row, w.workers[i]);
    assert Faithful(env, w.row, w.row);
    SamePhasesKeepFrozen(env, w, i, WorkerNext(env, w, i, step));
  }

  lemma WorkerKeepsFrozen(env: Env, w: World, i: nat, step: Step)
    requires Frozen(env, w) && i < |w.workers|
    ensures KeepsFrozen(env, w, WorkerNext(env, w, i, step))
  {
    if step.SaveFunding? {
      SavingKeepsFrozen(env, w, i, step.now);
    } else if step.Finish? || step.GiveUp? {
      EndingKeepsFrozen(env, w, i, step);
    } else {
      QuietWorkKeepsFrozen(env, w, i, step);
    }
  }

  lemma StoringKeepsFrozen(env: Env, w: World, p: Proposal)
    requires Frozen(env, w) && !w.row.state.Proposed? && Sound(env.operator, w.row.core, p)
    ensures Frozen(env, Stored(w, Some(p)))
  {
  }

  lemma ClosingKeepsFrozen(env: Env, w: World, step: Step)
    requires Frozen(env, w) && (step.PutClose? || step.SignClose? || step.DropClose?)
    ensures KeepsFrozen(env, w, Next(env, w, step)) && Next(env, w, step).row == w.row
  {
    if !step.DropClose? && step.copy in w.past && !step.copy.state.Proposed? && !step.copy.state.Cancelled? {
      assert Faithful(env, w.row, step.copy);
      var core := step.copy.core;
      if step.PutClose? {
        var q := step.request;
        if step.copy.funding.Some? && Propose(env.operator, core, step.copy.funding.value, q, env.keyOf(q.who)).Some? {
          ProposalsAreSound(env.operator, core, step.copy.funding.value, q, env.keyOf);
          StoringKeepsFrozen(env, w, Propose(env.operator, core, step.copy.funding.value, q, env.keyOf(q.who)).value);
        }
      } else if step.proposal in w.closes {
        var p := Countersign(env.operator, core, step.who, env.keyOf(step.who), step.proposal);
        if p.Some? {
          CountersigningKeepsSound(env.operator, core, step.who, env.keyOf, step.proposal);
          StoringKeepsFrozen(env, w, p.value);
        }
      }
    }
  }

  lemma AcceptingKeepsFrozen(env: Env, w: World, step: Step)
    requires Frozen(env, w) && step.Accept?
    ensures KeepsFrozen(env, w, Next(env, w, step))
  {
    var core := Joined(env, step.copy.core, step.who, step.script, step.pkScript, step.price);
    if Held(w, step.copy, Proposed) && core.Some? {
      assert Faithful(env, w.row, step.copy);
      JoiningAgrees(env, step.copy.core, step.who, step.script, step.pkScript, step.price);
      WriteKeepsFrozen(env, w, step.copy.(core := core.value), State.Accepted, step.now);
    }
  }

  /** A request that moves a copy along. */
  lemma MovingKeepsFrozen(env: Env, w: World, step: Step)
    requires Frozen(env, w) && (step.Handle? || step.BeginClose?)
    ensures KeepsFrozen(env, w, Next(env, w, step))
  {
    var copy := step.copy;
    var to := if step.Handle? then Target(step.action, copy.state) else Some(Redeeming);
    if copy in w.past && to.Some? && CanGoTo(copy.state, to.value) {
      assert Faithful(env, w.row, copy);
      WriteKeepsFrozen(env, w, copy, to.value, step.now);
    }
  }

  predicate OfWorker(step: Step) {
    !step.Accept? && !step.Handle? && !step.PutClose? && !step.SignClose? && !step.BeginClose? && !step.DropClose?
  }

  lemma WorkerStep(env: Env, w: World, step: Step)
    requires OfWorker(step)
    ensures Next(env, w, step) == if step.i < |w.workers| then WorkerNext(env, w, step.i, step) else w
  {
  }

  lemma StepKeepsFrozen(env: Env, w: World, step: Step)
    requires Frozen(env, w)
    ensures KeepsFrozen(env, w, Next(env, w, step))
  {
    if OfWorker(step) {
      WorkerStep(env, w, step);
      if step.i < |w.workers| {
        WorkerKeepsFrozen(env, w, step.i, step);
      }
    } else if step.Accept? {
      AcceptingKeepsFrozen(env, w, step);
    } else if step.Handle? || step.BeginClose? {
      MovingKeepsFrozen(env, w, step);
    } else {
      ClosingKeepsFrozen(env, w, step);
    }
  }

  lemma {:induction false} RunKeepsFrozen(env: Env, w: World, steps: seq<Step>)
    requires Frozen(env, w)
    ensures var w' := Run(env, w, steps);
            Frozen(env, w') && (!w.row.state.Proposed? ==> !w'.row.state.Proposed? && w'.row.core == w.row.core)
  {
    if |steps| > 0 {
      RunKeepsFrozen(env, w, steps[..|steps| - 1]);
      StepKeepsFrozen(env, Run(env, w, steps[..|steps| - 1]), steps[|steps| - 1]);
    }
  }

  lemma InitiallyFrozen(env: Env, w: World)
    requires Initial(env, w)
    ensures Frozen(env, w)
  {
  }

  /** No lost update under stale copies. In every run of any number of handlers and workers, with crashes anywhere
      and states recurring: once a contract has left the offer, nobody's write ever changes its users, terms, keys,
      stakes or address, and the stakes always add up to the payout. */
  lemma NothingAgreedIsLost(env: Env, w: World, steps: seq<Step>, more: seq<Step>)
    requires Initial(env, w)
    ensures var now, later := Run(env, w, steps), Run(env, Run(env, w, steps), more);
            && now.row.core.shortStake + now.row.core.longStake == now.row.core.terms.payout
            && (!now.row.state.Proposed? ==> later.row.core == now.row.core)
            && (!now.row.state.Proposed? && !now.row.state.Cancelled? ==> Agreed(env, now.row.core))
  {
    InitiallyFrozen(env, w);
    RunKeepsFrozen(env, w, steps);
    var now := Run(env, w, steps);
    assert Faithful(env, now.row, now.row);
    RunKeepsFrozen(env, now, more);
  }

  /** Redemption safety. In every such run, whatever was handed to the operator is signed by both parties on
      every packet, pays both sides' own scripts amounts that add up to the payout, and, when it was priced,
      exactly the formula's split at a price the oracle signed. */
  lemma SubmittedClosesAreSafe(env: Env, w: World, steps: seq<Step>, p: Proposal)
    requires Initial(env, w) && p in Run(env, w, steps).submitted
    ensures var core := Run(env, w, steps).row.core;
            && AllSignedBy(Packets(p), core.shortKey) && AllSignedBy(Packets(p), core.longKey)
            && AllCarryOneEach(core, Packets(p), true, true)
            && |p.arkTx.outputs| >= 2
            && p.arkTx.outputs[0] == TxOut(p.short, core.terms.shortScript)
            && p.arkTx.outputs[1] == TxOut(p.long, core.terms.longScript)
            && p.short + p.long == core.terms.payout
            && (FromOracle(p) ==>
                  && PriceFrom(core.terms, env.operator.crypto, p.message, p.signature) == Ok(p.price)
                  && SettlementSplit(core.terms, p.price) == Ok((p.short, p.long)))
  {
    InitiallyFrozen(env, w);
    RunKeepsFrozen(env, w, steps);
    var core := Run(env, w, steps).row.core;
    assert Sound(env.operator, core, p);
    ExactFlagsMatch(core, p, Short);
    ExactFlagsMatch(core, p, Long);
  }

  /** Somebody has a copy of the contract on its way to being closed early. */
  ghost predicate Closing(w: World) {
    exists r :: r in w.past && (r.state.Redeeming? || r.state.Redeemed?)
  }

  ghost predicate SomeSigned(w: World) {
    exists p :: p in w.closes && Signed(p)
  }

  /** What keeps a contract from being closed early on one signature: copies come from rows, and a row gets there by a
      proposal that both have signed. */
  ghost predicate ClosingIsSigned(w: World) {
    && w.row in w.past && (Closing(w) ==> SomeSigned(w))
    && forall i | 0 <= i < |w.workers| && !w.workers[i].Idle? ::
         w.workers[i].copy.state.Redeeming? ==> Closing(w)
  }

  lemma GrownKeepsClosing(w: World, w': World)
    requires w.past <= w'.past && w.closes <= w'.closes
    ensures Closing(w) ==> Closing(w')
    ensures SomeSigned(w) ==> SomeSigned(w')
  {
    if SomeSigned(w) {
      var p :| p in w.closes && Signed(p);
      assert p in w'.closes;
    }
    if Closing(w) {
      var r :| r in w.past && (r.state.Redeeming? || r.state.Redeemed?);
      assert r in w'.past;
    }
  }

  lemma WorkKeepsClosingSigned(env: Env, w: World, step: Step)
    requires ClosingIsSigned(w) && OfWorker(step)
    ensures ClosingIsSigned(Next(env, w, step))
  {
    WorkerStep(env, w, step);
    GrownKeepsClosing(w, Next(env, w, step));
  }

  lemma StepKeepsClosingSigned(env: Env, w: World, step: Step)
    requires ClosingIsSigned(w)
    ensures ClosingIsSigned(Next(env, w, step))
  {
    if OfWorker(step) {
      WorkKeepsClosingSigned(env, w, step);
    } else {
      GrownKeepsClosing(w, Next(env, w, step));
    }
  }

  /** Nobody closes alone: in every run, a contract that is redeeming or redeemed has a proposal that both signed. */
  lemma {:induction false} ClosesAreSignedByBoth(env: Env, w: World, steps: seq<Step>)
    requires Initial(env, w)
    ensures var now := Run(env, w, steps);
            && ClosingIsSigned(now)
            && (now.row.state.Redeeming? || now.row.state.Redeemed? ==> exists p :: p in now.closes && Signed(p))
  {
    if |steps| > 0 {
      ClosesAreSignedByBoth(env, w, steps[..|steps| - 1]);
      StepKeepsClosingSigned(env, Run(env, w, steps[..|steps| - 1]), steps[|steps| - 1]);
    }
    var now := Run(env, w, steps);
    if now.row.state.Redeeming? || now.row.state.Redeemed? {
      assert Closing(now);
    }
  }

  /** Flags match signatures, on every proposal that is stored or in anybody's hands: every packet carries exactly one
      signature of each side that has signed, and no other. */
  lemma FlagsAlwaysMatch(env: Env, w: World, steps: seq<Step>, p: Proposal, side: Side)
    requires Initial(env, w) && p in Run(env, w, steps).closes
    ensures FlagsExact(Run(env, w, steps).row.core, p) && FlagMatches(Run(env, w, steps).row.core, p, side)
  {
    InitiallyFrozen(env, w);
    RunKeepsFrozen(env, w, steps);
    assert Sound(env.operator, Run(env, w, steps).row.core, p);
    ExactFlagsMatch(Run(env, w, steps).row.core, p, side);
  }

  // --- Runs ------------------------------------------------------------------

  ghost predicate Reaches(env: Env, w: World, w': World) {
    exists steps :: Run(env, w, steps) == w'
  }

  lemma ReachesItself(env: Env, w: World)
    ensures Reaches(env, w, w)
  {
    assert Run(env, w, []) == w;
  }

  lemma ReachesNext(env: Env, w: World, now: World, step: Step)
    requires Reaches(env, w, now)
    ensures Reaches(env, w, Next(env, now, step))
  {
    var steps :| Run(env, w, steps) == now;
    assert (steps + [step])[..|steps|] == steps;
    assert Run(env, w, steps + [step]) == Next(env, now, step);
  }

  lemma {:induction false} RunsJoin(env: Env, w: World, steps: seq<Step>, more: seq<Step>)
    ensures Run(env, w, steps + more) == Run(env, Run(env, w, steps), more)
  {
    if |more| > 0 {
      RunsJoin(env, w, steps, more[..|more| - 1]);
      assert (steps + more)[..|steps + more| - 1] == steps + more[..|more| - 1];
    } else {
      assert steps + more == steps;
    }
  }
}
