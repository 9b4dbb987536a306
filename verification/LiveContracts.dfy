/**
 Whoever is in a live contract can leave it: what any number of workers, crashing as they like, keep between the
 row, the exit package and their own half-finished work, and the two ways of losing it.
 */
module LiveContracts {
  import opened Prelude
  import opened Bytes
  import Vm
  import opened Arbitrations
  import opened ContractStore
  import opened Redemptions
  import opened Lifecycle

  /** Active, or anything after it but a write-off. */
  predicate Live(s: State) {
    !s.Proposed? && !s.Accepted? && !s.Funding? && !s.Cancelled? && !s.Failed?
  }

  /** Before any money has moved. */
  predicate Early(s: State) {
    s.Proposed? || s.Accepted? || s.Cancelled?
  }

  /** What a copy anyone may still write says about the funding. */
  predicate FundingAgrees(row: Row, copy: Row) {
    && (Live(copy.state) ==> Live(row.state) && copy.funding.Some? && copy.funding == row.funding)
    && (Early(copy.state) ==> copy.funding.None?)
    && (copy.state.Funding? ==>
          !Early(row.state) && (row.state.Funding? && copy.funding.Some? ==> copy.funding == row.funding))
  }

  /** A worker's copy of a funding contract, and where it says the collateral went. */
  predicate Claims(phase: Phase) {
    !phase.Idle? && phase.copy.state.Funding? && phase.copy.funding.Some?
  }

  /** Where a worker is, against the row. `claim` is the one outpoint the operator's last funding made. */
  predicate WorkerAgrees(w: World, claim: Option<Outpoint>, phase: Phase) {
    phase.Idle?
    || (!phase.Funded? && !phase.copy.state.Funding? && phase.copy in w.past && Live(phase.copy.state))
    || (phase.copy.state.Funding? && !Early(w.row.state) && (phase.Working? || Claims(phase))
        && (w.row.state.Funding? && Claims(phase) ==>
              && phase.copy.funding == claim
              && (!phase.Funded? ==> phase.copy.funding == w.row.funding)
              && (phase.Ready? ==> w.exit.Some?)))
  }

  /** The stored package is of the recorded outpoint, and a live contract has one. */
  predicate ExitAgrees(env: Env, w: World) {
    && (w.exit.Some? && !w.row.state.Failed? ==>
          w.row.funding.Some? && Covers(env, w.row.core, w.row.funding.value, w.exit.value))
    && (Live(w.row.state) ==> w.exit.Some?)
  }

  /** Every early close is of the contract it is stored beside. */
  ghost predicate ClosesAgree(env: Env, w: World) {
    forall p :: p in w.closes ==>
      Live(w.row.state) && w.row.funding.Some? && Closes(env.operator, p, w.row.funding.value)
  }

  ghost predicate Exitable(env: Env, w: World, claim: Option<Outpoint>) {
    && Frozen(env, w)
    && (forall r :: r in w.past ==> FundingAgrees(w.row, r))
    && (forall i | 0 <= i < |w.workers| :: WorkerAgrees(w, claim, w.workers[i]))
    && (w.row.state.Funding? && w.row.funding.Some? ==> w.row.funding == claim)
    && ExitAgrees(env, w)
    && ClosesAgree(env, w)
  }

  /** What every step keeps, and what it never takes back. */
  ghost predicate KeepsExit(env: Env, w: World, claim: Option<Outpoint>, w': World) {
    Exitable(env, w', claim) && (Live(w.row.state) ==> Live(w'.row.state) && w'.row.funding == w.row.funding)
  }

  // --- What has to be kept from happening ------------------------------------

  /** A funding that is about to come back while nobody says the collateral has gone anywhere yet. */
  predicate Unclaimed(w: World) {
    w.row.funding.None? && forall i | 0 <= i < |w.workers| :: !Claims(w.workers[i])
  }

  predicate Rejects(w: World, step: Step) {
    step.Handle? && step.action.RejectClose? && step.copy in w.past && step.copy.state.Funding? && w.row.state.Funding?
  }

  /** A reject that takes a funding contract with it, which the copy it holds and the exit store can say no to. */
  predicate CarefulReject(w: World, step: Step) {
    Rejects(w, step) ==> step.copy.funding.Some? && w.exit.Some?
  }

  /** A second funding of a contract somebody holds a funding of. */
  predicate CarefulFunding(env: Env, w: World, step: Step) {
    step.FundReturns? && w.row.state.Funding? && Next(env, w, step) != w ==> Unclaimed(w)
  }

  predicate Careful(env: Env, w: World, step: Step) {
    CarefulReject(w, step) && CarefulFunding(env, w, step)
  }

  predicate CarefulRun(env: Env, w: World, steps: seq<Step>) {
    |steps| == 0
    || (CarefulRun(env, w, steps[..|steps| - 1])
        && Careful(env, Run(env, w, steps[..|steps| - 1]), steps[|steps| - 1]))
  }

  predicate RejectsCarefully(env: Env, w: World, steps: seq<Step>) {
    |steps| == 0
    || (RejectsCarefully(env, w, steps[..|steps| - 1])
        && CarefulReject(Run(env, w, steps[..|steps| - 1]), steps[|steps| - 1]))
  }

  // --- Requests --------------------------------------------------------------

  /** A request's write: along the life of the contract, and out of funding only with its outpoint and exit. */
  predicate RequestWrite(w: World, copy: Row, to: State) {
    && FundingAgrees(w.row, copy) && !copy.state.Failed?
    && (Early(copy.state) ==> Early(to) || to.Funding?)
    && (Live(copy.state) ==> Live(to))
    && (copy.state.Funding? && w.row.state.Funding? ==> Live(to) && copy.funding.Some? && w.exit.Some?)
  }

  lemma RequestKeepsExit(env: Env, w: World, claim: Option<Outpoint>, copy: Row, to: State, now: int)
    requires Exitable(env, w, claim) && SafeWrite(env, w.row, copy, to) && RequestWrite(w, copy, to)
    ensures KeepsExit(env, w, claim, Written(w, copy, to, now))
  {
    WriteKeepsFrozen(env, w, copy, to, now);
    var row := Cas(w.row, copy, to, now);
    assert FundingAgrees(w.row, w.row);
    assert FundingAgrees(row, row);
    forall r | FundingAgrees(w.row, r) ensures FundingAgrees(row, r) {
    }
  }

  lemma HeldCopyAgrees(env: Env, w: World, claim: Option<Outpoint>, copy: Row)
    requires Exitable(env, w, claim) && copy in w.past
    ensures Lifecycle.Faithful(env, w.row, copy) && FundingAgrees(w.row, copy)
  {
  }

  /** Taking the other side of an offer. */
  lemma AcceptKeepsExit(env: Env, w: World, claim: Option<Outpoint>, step: Step)
    requires Exitable(env, w, claim) && step.Accept?
    ensures KeepsExit(env, w, claim, Next(env, w, step))
  {
    var core := Joined(env, step.copy.core, step.who, step.script, step.pkScript, step.price);
    if Held(w, step.copy, Proposed) && core.Some? {
      HeldCopyAgrees(env, w, claim, step.copy);
      JoiningAgrees(env, step.copy.core, step.who, step.script, step.pkScript, step.price);
      RequestKeepsExit(env, w, claim, step.copy.(core := core.value), State.Accepted, step.now);
    }
  }

  /** Whatever a request moves, it moves along the life of the contract. */
  lemma HandledIsWrite(env: Env, w: World, claim: Option<Outpoint>, step: Step, to: State)
    requires Exitable(env, w, claim) && step.Handle? && CarefulReject(w, step) && step.copy in w.past
    requires Target(step.action, step.copy.state) == Some(to) && CanGoTo(step.copy.state, to)
    ensures SafeWrite(env, w.row, step.copy, to) && RequestWrite(w, step.copy, to)
  {
    HeldCopyAgrees(env, w, claim, step.copy);
  }

  lemma HandlingKeepsExit(env: Env, w: World, claim: Option<Outpoint>, step: Step)
    requires Exitable(env, w, claim) && step.Handle? && CarefulReject(w, step)
    ensures KeepsExit(env, w, claim, Next(env, w, step))
  {
    var copy := step.copy;
    var to := Target(step.action, copy.state);
    if copy in w.past && to.Some? && CanGoTo(copy.state, to.value) {
      HandledIsWrite(env, w, claim, step, to.value);
      RequestKeepsExit(env, w, claim, copy, to.value, step.now);
    }
  }

  lemma BeginningKeepsExit(env: Env, w: World, claim: Option<Outpoint>, step: Step)
    requires Exitable(env, w, claim) && step.BeginClose?
    ensures KeepsExit(env, w, claim, Next(env, w, step))
  {
    if Held(w, step.copy, RedemptionProposed) {
      HeldCopyAgrees(env, w, claim, step.copy);
      RequestKeepsExit(env, w, claim, step.copy, Redeeming, step.now);
    }
  }

  lemma ProposingKeepsExit(env: Env, w: World, claim: Option<Outpoint>, copy: Row, q: Request)
    requires Exitable(env, w, claim)
    ensures ClosesAgree(env, Next(env, w, PutClose(copy, q)))
  {
    if Held(w, copy, Active) && copy.funding.Some?
       && Propose(env.operator, copy.core, copy.funding.value, q, env.keyOf(q.who)).Some? {
      HeldCopyAgrees(env, w, claim, copy);
      ProposalsAreSound(env.operator, copy.core, copy.funding.value, q, env.keyOf);
    }
  }

  lemma SigningCloseKeepsExit(env: Env, w: World, claim: Option<Outpoint>, copy: Row, who: User, p: Proposal)
    requires Exitable(env, w, claim)
    ensures ClosesAgree(env, Next(env, w, SignClose(copy, who, p)))
  {
    if Held(w, copy, RedemptionProposed) && p in w.closes
       && Countersign(env.operator, copy.core, who, env.keyOf(who), p).Some? {
      HeldCopyAgrees(env, w, claim, copy);
      CountersigningKeepsSound(env.operator, copy.core, who, env.keyOf, p);
      assert Closes(env.operator, p, w.row.funding.value);
    }
  }

  /** The early close lives beside the row. */
  lemma CloseKeepsExit(env: Env, w: World, claim: Option<Outpoint>, step: Step)
    requires Exitable(env, w, claim) && (step.PutClose? || step.SignClose? || step.DropClose?)
    ensures KeepsExit(env, w, claim, Next(env, w, step))
  {
    ClosingKeepsFrozen(env, w, step);
    if step.PutClose? {
      ProposingKeepsExit(env, w, claim, step.copy, step.request);
    } else if step.SignClose? {
      SigningCloseKeepsExit(env, w, claim, step.copy, step.who, step.proposal);
    }
    BesideTheRowKeepsExit(env, w, claim, Next(env, w, step));
  }

  lemma BesideTheRowKeepsExit(env: Env, w: World, claim: Option<Outpoint>, w': World)
    requires Exitable(env, w, claim) && Frozen(env, w') && ClosesAgree(env, w')
    requires w'.row == w.row && w'.past == w.past && w'.exit == w.exit && w'.workers == w.workers
    ensures KeepsExit(env, w, claim, w')
  {
    forall j | 0 <= j < |w'.workers| ensures WorkerAgrees(w', claim, w'.workers[j]) {
      assert WorkerAgrees(w, claim, w.workers[j]);
    }
  }

  // --- Workers ---------------------------------------------------------------

  /** Whoever else is at it, a write of a funding row by a worker leaves every other copy in agreement. */
  lemma FundingRowMoves(env: Env, w: World, claim: Option<Outpoint>, copy: Row, to: State, now: int)
    requires Exitable(env, w, claim) && w.row.state.Funding? && copy.state.Funding?
    requires Live(to) ==> copy.funding.Some?
    requires to.Funding? ==> w.row.funding.None? || w.row.funding == copy.funding
    requires !Early(to)
    ensures forall r :: r in Written(w, copy, to, now).past ==> FundingAgrees(Written(w, copy, to, now).row, r)
  {
    forall r | r in w.past ensures FundingAgrees(Cas(w.row, copy, to, now), r) {
      assert FundingAgrees(w.row, r);
    }
  }

  lemma NoClosesWhileFunding(env: Env, w: World, claim: Option<Outpoint>)
    requires Exitable(env, w, claim) && !Live(w.row.state)
    ensures w.closes == {}
  {
  }

  lemma SavingKeepsExit(env: Env, w: World, claim: Option<Outpoint>, i: nat, now: int)
    requires Exitable(env, w, claim) && i < |w.workers|
    ensures KeepsExit(env, w, claim, WorkerNext(env, w, i, SaveFunding(i, now)))
  {
    WorkerKeepsFrozen(env, w, i, SaveFunding(i, now));
    assert WorkerAgrees(w, claim, w.workers[i]);
    if w.workers[i].Funded? && w.row.state.Funding? {
      NoClosesWhileFunding(env, w, claim);
      FundingRowMoves(env, w, claim, w.workers[i].copy, Funding, now);
      assert FaithfulWorker(env, w.row, w.workers[i]);
      var w' := WorkerNext(env, w, i, SaveFunding(i, now));
      forall j | 0 <= j < |w'.workers| ensures WorkerAgrees(w', claim, w'.workers[j]) {
        assert WorkerAgrees(w, claim, w.workers[j]);
      }
    }
  }

  lemma LeavingFundingKeepsExit(env: Env, w: World, claim: Option<Outpoint>, i: nat, to: State, now: int)
    requires Exitable(env, w, claim) && i < |w.workers| && !w.workers[i].Idle? && w.workers[i].copy.state.Funding?
    requires to.Failed? || (to.Active? && w.workers[i].Ready?)
    ensures KeepsExit(env, w, claim, WithWorker(Written(w, w.workers[i].copy, to, now), i, Idle))
  {
    var w' := WithWorker(Written(w, w.workers[i].copy, to, now), i, Idle);
    assert FaithfulWorker(env, w.row, w.workers[i]);
    WorkKeepsFrozen(env, w, i, to, now, Idle);
    assert WorkerAgrees(w, claim, w.workers[i]);
    assert FundingAgrees(w.row, w.row);
    if w.row.state.Funding? {
      NoClosesWhileFunding(env, w, claim);
      FundingRowMoves(env, w, claim, w.workers[i].copy, to, now);
      forall j | 0 <= j < |w'.workers| ensures WorkerAgrees(w', claim, w'.workers[j]) {
        assert WorkerAgrees(w, claim, w.workers[j]);
      }
    }
  }

  lemma LiveWorkKeepsExit(env: Env, w: World, claim: Option<Outpoint>, i: nat, to: State, now: int)
    requires Exitable(env, w, claim) && i < |w.workers| && !w.workers[i].Idle?
    requires !w.workers[i].copy.state.Funding? && Live(to)
    ensures KeepsExit(env, w, claim, WithWorker(Written(w, w.workers[i].copy, to, now), i, Idle))
  {
    var copy := w.workers[i].copy;
    assert FaithfulWorker(env, w.row, w.workers[i]);
    assert WorkerAgrees(w, claim, w.workers[i]);
    assert FundingAgrees(w.row, copy);
    RequestKeepsExit(env, w, claim, copy, to, now);
    PhaseKeepsFrozen(env, Written(w, copy, to, now), i, Idle);
  }

  lemma PresigningKeepsWorkers(env: Env, w: World, claim: Option<Outpoint>, i: nat, step: Step, j: nat)
    requires Exitable(env, w, claim) && i < |w.workers| && step.Presign? && j < |w.workers|
    ensures WorkerAgrees(WorkerNext(env, w, i, step), claim, WorkerNext(env, w, i, step).workers[j])
  {
    assert FaithfulWorker(env, w.row, w.workers[i]);
    assert WorkerAgrees(w, claim, w.workers[i]);
    assert WorkerAgrees(w, claim, w.workers[j]);
    assert FundingAgrees(w.row, w.row);
  }

  lemma PresigningKeepsExit(env: Env, w: World, claim: Option<Outpoint>, i: nat, step: Step)
    requires Exitable(env, w, claim) && i < |w.workers| && step.Presign?
    ensures KeepsExit(env, w, claim, WorkerNext(env, w, i, step))
  {
    WorkerKeepsFrozen(env, w, i, step);
    assert WorkerAgrees(w, claim, w.workers[i]);
    forall j | 0 <= j < |w.workers| ensures WorkerAgrees(WorkerNext(env, w, i, step), claim,
                                                         WorkerNext(env, w, i, step).workers[j]) {
      PresigningKeepsWorkers(env, w, claim, i, step, j);
    }
  }

  /** A step that ends with the worker's copy given up: done, or written off. */
  lemma EndingKeepsExit(env: Env, w: World, claim: Option<Outpoint>, i: nat, step: Step)
    requires Exitable(env, w, claim) && i < |w.workers| && (step.Finish? || step.GiveUp?)
    ensures KeepsExit(env, w, claim, WorkerNext(env, w, i, step))
  {
    var phase := w.workers[i];
    assert WorkerAgrees(w, claim, phase);
    if (step.Finish? && CanFinish(phase)) || (step.GiveUp? && phase.Working?) {
      assert FaithfulWorker(env, w.row, phase);
      var to := if step.Finish? then DoneTo(phase.copy.state) else GiveUpTo(phase.copy.state);
      if phase.copy.state.Funding? {
        LeavingFundingKeepsExit(env, w, claim, i, to.value, step.now);
      } else {
        LiveWorkKeepsExit(env, w, claim, i, to.value, step.now);
      }
    }
  }

  /** A funding that comes back makes the claim, which nobody contradicts. */
  lemma FundingKeepsExit(env: Env, w: World, claim: Option<Outpoint>, i: nat, outpoint: Outpoint)
    requires Exitable(env, w, claim) && i < |w.workers| && WorkerNext(env, w, i, FundReturns(i, outpoint)) != w
    requires w.row.state.Funding? ==> Unclaimed(w)
    ensures KeepsExit(env, w, Some(outpoint), WorkerNext(env, w, i, FundReturns(i, outpoint)))
  {
    var w' := WorkerNext(env, w, i, FundReturns(i, outpoint));
    WorkerKeepsFrozen(env, w, i, FundReturns(i, outpoint));
    assert WorkerAgrees(w, claim, w.workers[i]);
    forall j | 0 <= j < |w'.workers| ensures WorkerAgrees(w', Some(outpoint), w'.workers[j]) {
      assert WorkerAgrees(w, claim, w.workers[j]);
    }
  }

  /** Everything else a worker does leaves the row alone, and the package but for where it landed. */
  lemma PhaseKeepsExit(env: Env, w: World, claim: Option<Outpoint>, i: nat, phase: Phase)
    requires Exitable(env, w, claim) && i < |w.workers|
    requires FaithfulWorker(env, w.row, phase) && WorkerAgrees(w, claim, phase)
    ensures KeepsExit(env, w, claim, WithWorker(w, i, phase))
  {
    PhaseKeepsFrozen(env, w, i, phase);
    var w' := WithWorker(w, i, phase);
    forall j | 0 <= j < |w'.workers| ensures WorkerAgrees(w', claim, w'.workers[j]) {
      assert j != i ==> WorkerAgrees(w, claim, w.workers[j]);
    }
  }

  lemma LandingKeepsExit(env: Env, w: World, claim: Option<Outpoint>, outpoint: Outpoint, sats: Int64)
    requires Exitable(env, w, claim) && w.exit.Some?
    ensures KeepsExit(env, w, claim, w.(exit := Some(w.exit.value.(swept := Some((outpoint, sats))))))
  {
    var w' := w.(exit := Some(w.exit.value.(swept := Some((outpoint, sats)))));
    forall j | 0 <= j < |w.workers| ensures WorkerAgrees(w', claim, w'.workers[j]) {
      assert WorkerAgrees(w, claim, w.workers[j]);
    }
  }

  lemma PickKeepsExit(env: Env, w: World, claim: Option<Outpoint>, i: nat)
    requires Exitable(env, w, claim) && i < |w.workers|
    ensures KeepsExit(env, w, claim, WorkerNext(env, w, i, Pick(i)))
  {
    assert Lifecycle.Faithful(env, w.row, w.row) && FundingAgrees(w.row, w.row);
    if w.workers[i].Idle? && Transient(w.row.state) {
      PhaseKeepsExit(env, w, claim, i, Working(w.row));
    }
  }

  lemma BroadcastKeepsExit(env: Env, w: World, claim: Option<Outpoint>, i: nat, step: Step)
    requires Exitable(env, w, claim) && i < |w.workers| && step.Broadcast?
    ensures KeepsExit(env, w, claim, WorkerNext(env, w, i, step))
  {
    var phase := w.workers[i];
    assert WorkerAgrees(w, claim, phase) && FaithfulWorker(env, w.row, phase);
    if phase.Working? && phase.copy.state.Exiting? {
      PhaseKeepsExit(env, w, claim, i, if Landed(w) then Ready(phase.copy) else Leaving(phase.copy));
    }
  }

  lemma LandKeepsExit(env: Env, w: World, claim: Option<Outpoint>, i: nat, step: Step)
    requires Exitable(env, w, claim) && i < |w.workers| && step.Land?
    ensures KeepsExit(env, w, claim, WorkerNext(env, w, i, step))
  {
    var phase := w.workers[i];
    assert WorkerAgrees(w, claim, phase) && FaithfulWorker(env, w.row, phase);
    if phase.Leaving? && w.exit.Some? {
      PhaseKeepsExit(env, w, claim, i, Ready(phase.copy));
      LandingKeepsExit(env, WithWorker(w, i, Ready(phase.copy)), claim, step.outpoint, step.sats);
    }
  }

  lemma QuietWorkKeepsExit(env: Env, w: World, claim: Option<Outpoint>, i: nat, step: Step)
    requires Exitable(env, w, claim) && i < |w.workers|
    requires step.Pick? || step.Broadcast? || step.Land? || step.Submit? || step.Crash?
    ensures KeepsExit(env, w, claim, WorkerNext(env, w, i, step))
  {
    if step.Pick? {
      PickKeepsExit(env, w, claim, i);
    } else if step.Broadcast? {
      BroadcastKeepsExit(env, w, claim, i, step);
    } else if step.Land? {
      LandKeepsExit(env, w, claim, i, step);
    } else if step.Crash? {
      PhaseKeepsExit(env, w, claim, i, Idle);
    } else {
      SubmittingKeepsExit(env, w, claim, i);
    }
  }

  lemma SubmittingKeepsExit(env: Env, w: World, claim: Option<Outpoint>, i: nat)
    requires Exitable(env, w, claim) && i < |w.workers|
    ensures KeepsExit(env, w, claim, WorkerNext(env, w, i, Submit(i)))
  {
    WorkerKeepsFrozen(env, w, i, Submit(i));
    forall j | 0 <= j < |w.workers| ensures WorkerAgrees(WorkerNext(env, w, i, Submit(i)), claim, w.workers[j]) {
      assert WorkerAgrees(w, claim, w.workers[j]);
    }
  }

  lemma WorkerKeepsExit(env: Env, w: World, claim: Option<Outpoint>, i: nat, step: Step)
    requires Exitable(env, w, claim) && i < |w.workers| && OfWorker(step) && !step.FundReturns? && step.i == i
    ensures KeepsExit(env, w, claim, WorkerNext(env, w, i, step))
  {
    if step.SaveFunding? {
      SavingKeepsExit(env, w, claim, i, step.now);
    } else if step.Presign? {
      PresigningKeepsExit(env, w, claim, i, step);
    } else if step.Finish? || step.GiveUp? {
      EndingKeepsExit(env, w, claim, i, step);
    } else {
      QuietWorkKeepsExit(env, w, claim, i, step);
    }
  }

  // --- Every step, every run -------------------------------------------------

  /** The claim after a step: a new one when a funding comes back, the old one otherwise. */
  function Claimed(env: Env, w: World, claim: Option<Outpoint>, step: Step): Option<Outpoint> {
    if step.FundReturns? && Next(env, w, step) != w then Some(step.outpoint) else claim
  }

  lemma WorkerStepKeepsExit(env: Env, w: World, claim: Option<Outpoint>, step: Step)
    requires Exitable(env, w, claim) && OfWorker(step) && CarefulFunding(env, w, step)
    ensures KeepsExit(env, w, Claimed(env, w, claim, step), Next(env, w, step))
  {
    WorkerStep(env, w, step);
    if Next(env, w, step) == w {
    } else if step.FundReturns? {
      FundingKeepsExit(env, w, claim, step.i, step.outpoint);
    } else {
      WorkerKeepsExit(env, w, claim, step.i, step);
    }
  }

  lemma StepKeepsExit(env: Env, w: World, claim: Option<Outpoint>, step: Step)
    requires Exitable(env, w, claim) && Careful(env, w, step)
    ensures KeepsExit(env, w, Claimed(env, w, claim, step), Next(env, w, step))
  {
    if OfWorker(step) {
      WorkerStepKeepsExit(env, w, claim, step);
    } else if step.Accept? {
      AcceptKeepsExit(env, w, claim, step);
    } else if step.Handle? {
      HandlingKeepsExit(env, w, claim, step);
    } else if step.BeginClose? {
      BeginningKeepsExit(env, w, claim, step);
    } else {
      CloseKeepsExit(env, w, claim, step);
    }
  }

  lemma {:induction false} RunKeepsExit(env: Env, w: World, claim: Option<Outpoint>, steps: seq<Step>)
    returns (claim': Option<Outpoint>)
    requires Exitable(env, w, claim) && CarefulRun(env, w, steps)
    ensures KeepsExit(env, w, claim', Run(env, w, steps))
  {
    claim' := claim;
    if |steps| > 0 {
      var earlier := steps[..|steps| - 1];
      claim' := RunKeepsExit(env, w, claim, earlier);
      StepKeepsExit(env, Run(env, w, earlier), claim', steps[|steps| - 1]);
      claim' := Claimed(env, Run(env, w, earlier), claim', steps[|steps| - 1]);
    }
  }

  /** Once a contract is live nothing more has to be kept from happening. */
  lemma {:induction false} LiveRunsAreCareful(env: Env, w: World, claim: Option<Outpoint>, steps: seq<Step>)
    requires Exitable(env, w, claim) && Live(w.row.state)
    ensures CarefulRun(env, w, steps)
  {
    if |steps| > 0 {
      LiveRunsAreCareful(env, w, claim, steps[..|steps| - 1]);
      var _ := RunKeepsExit(env, w, claim, steps[..|steps| - 1]);
    }
  }

  /** One transaction, spending the recorded outpoint alone into the parties' own sweep. */
  predicate LeavesWith(env: Env, core: Core, outpoint: Outpoint, pkg: ExitPackage) {
    && Covers(env, core, outpoint, pkg)
    && pkg.tx.version == 2 && |pkg.tx.inputs| == 1 && pkg.tx.inputs[0].previous == outpoint
    && env.sequence(core.exitDelay, core.exitDelayInBlocks) == Some(pkg.tx.inputs[0].sequence)
    && pkg.tx.outputs == [Vm.TxOut(core.terms.payout - env.exitFee, env.sweepScript(core.shortKey, core.longKey))]
  }

  /** A party can leave: the outpoint is recorded and its exit is stored, whole. */
  predicate CanBeExited(env: Env, w: World) {
    w.row.funding.Some? && w.exit.Some? && LeavesWith(env, w.row.core, w.row.funding.value, w.exit.value)
  }

  lemma InitiallyExitable(env: Env, w: World)
    requires Initial(env, w)
    ensures Exitable(env, w, None)
  {
    InitiallyFrozen(env, w);
  }

  lemma LiveMeansExitable(env: Env, w: World, claim: Option<Outpoint>)
    requires Exitable(env, w, claim) && Live(w.row.state)
    ensures CanBeExited(env, w)
  {
    assert FundingAgrees(w.row, w.row);
  }

  /** Live contracts can always be exited. Any number of handlers and workers, with copies as old as they like and
      crashes anywhere: if no reject takes a funding row without its outpoint and exit, and no funding comes back
      while another is claimed, a contract that is active or beyond records where it was funded and holds the exit
      of exactly that outpoint, paying all but the fee into the sweep of its own two keys, with both parties'
      signatures verified. From then on it keeps them whatever anyone does. */
  lemma LiveContractsCanBeExited(env: Env, w: World, steps: seq<Step>, more: seq<Step>)
    requires Initial(env, w) && CarefulRun(env, w, steps)
    requires Live(Run(env, w, steps).row.state)
    ensures var now, later := Run(env, w, steps), Run(env, Run(env, w, steps), more);
            && CanBeExited(env, now) && CanBeExited(env, later)
            && Live(later.row.state) && later.row.funding == now.row.funding
  {
    InitiallyExitable(env, w);
    var claim := RunKeepsExit(env, w, None, steps);
    var now := Run(env, w, steps);
    LiveMeansExitable(env, now, claim);
    LiveRunsAreCareful(env, now, claim, more);
    var after := RunKeepsExit(env, now, claim, more);
    LiveMeansExitable(env, Run(env, now, more), after);
  }

  /** And the exit it holds is good for leaving: from the contract's own delay on, and no earlier, both the exit leaf
      and the chain let it through. Given a sequence that stands for the delay, which is arklib's to compute. */
  lemma LiveContractsLeaveOnTime(env: Env, w: World, steps: seq<Step>, age: Age)
    requires Initial(env, w) && CarefulRun(env, w, steps) && Live(Run(env, w, steps).row.state)
    requires var core := Run(env, w, steps).row.core;
             var sequence := env.sequence(core.exitDelay, core.exitDelayInBlocks);
             sequence.Some? ==> StandsFor(sequence.value, core.exitDelay, core.exitDelayInBlocks)
    ensures var now := Run(env, w, steps);
            var core := now.row.core;
            && CanBeExited(env, now) && env.sequence(core.exitDelay, core.exitDelayInBlocks).Some?
            && (LeavesAt(env.sequence(core.exitDelay, core.exitDelayInBlocks).value, now.exit.value.tx, age)
                <==> Waited(age, core.exitDelay, core.exitDelayInBlocks))
  {
    LiveContractsCanBeExited(env, w, steps, []);
  }

  /** And what is handed to the operator to close early spends the contract's own recorded outpoint. */
  lemma SubmittedClosesSpendTheContract(env: Env, w: World, steps: seq<Step>, p: Proposal)
    requires Initial(env, w) && CarefulRun(env, w, steps) && p in Run(env, w, steps).submitted
    ensures var now := Run(env, w, steps);
            now.row.funding.Some? && Closes(env.operator, p, now.row.funding.value)
  {
    InitiallyExitable(env, w);
    var _ := RunKeepsExit(env, w, None, steps);
    assert p in Run(env, w, steps).closes;
  }

  // --- RejectRedemption ------------------------------------------------------

  /** RejectRedemption as it is, exactly. Of all the states it can be presented from only funding can do harm, and
      there a reject leaves a contract that can be exited if and only if the copy names the outpoint and the exit is
      stored. */
  lemma RejectOfFundingIsSafeExactly(env: Env, w: World, claim: Option<Outpoint>, copy: Row, now: int)
    requires Exitable(env, w, claim) && Rejects(w, Handle(RejectClose, copy, now))
    ensures var w' := Next(env, w, Handle(RejectClose, copy, now));
            w'.row.state == Active && (CanBeExited(env, w') <==> copy.funding.Some? && w.exit.Some?)
  {
    HeldCopyAgrees(env, w, claim, copy);
    HeldCopyAgrees(env, w, claim, w.row);
  }

  /** What is left of a worker's last write after a reject from the row's own state, or from another. */
  lemma RejectAgainstFinish(env: Env, w: World, copy: Row, now: int, i: nat, time: int)
    requires Frozen(env, w) && copy in w.past
    requires copy.state.Settling? || copy.state.Redeeming? || copy.state.Exiting?
    requires i < |w.workers| && CanFinish(w.workers[i]) && w.workers[i].copy.state == w.row.state
    ensures var rejected := Next(env, w, Handle(RejectClose, copy, now));
            var finished := Next(env, rejected, Finish(i, time));
            && (copy.state != w.row.state ==> Some(finished.row.state) == DoneTo(w.row.state))
            && (copy.state == w.row.state ==> finished.row == rejected.row && finished.row.state == Active)
  {
    assert FaithfulWorker(env, w.row, w.workers[i]);
    WorkerStep(env, Next(env, w, Handle(RejectClose, copy, now)), Finish(i, time));
  }

  lemma LiveStepsKeepExit(env: Env, w: World, claim: Option<Outpoint>, steps: seq<Step>)
    requires Exitable(env, w, claim) && Live(w.row.state)
    ensures CanBeExited(env, Run(env, w, steps))
  {
    LiveRunsAreCareful(env, w, claim, steps);
    var later := RunKeepsExit(env, w, claim, steps);
    LiveMeansExitable(env, Run(env, w, steps), later);
  }

  /** And where a reject leaves the exit alone it still costs something: a worker that has settled, closed or left and
      only has to say so cannot say it any more, exactly when the rejecting copy is of the row's own state. The
      contract is active again, and can be exited, but nothing records what was done. */
  lemma RejectLosesTheWorkExactly(env: Env, w: World, claim: Option<Outpoint>, copy: Row, now: int, i: nat, time: int)
    requires Exitable(env, w, claim) && copy in w.past
    requires copy.state.Settling? || copy.state.Redeeming? || copy.state.Exiting?
    requires i < |w.workers| && CanFinish(w.workers[i]) && w.workers[i].copy.state == w.row.state
    ensures var rejected := Next(env, w, Handle(RejectClose, copy, now));
            var finished := Next(env, rejected, Finish(i, time));
            && (copy.state != w.row.state ==> Some(finished.row.state) == DoneTo(w.row.state))
            && (copy.state == w.row.state ==> finished.row == rejected.row && finished.row.state == Active)
    ensures forall steps :: CanBeExited(env, Run(env, w, [Handle(RejectClose, copy, now)] + steps))
  {
    HeldCopyAgrees(env, w, claim, copy);
    RejectAgainstFinish(env, w, copy, now, i, time);
    forall steps ensures CanBeExited(env, Run(env, w, [Handle(RejectClose, copy, now)] + steps)) {
      LiveStepsKeepExit(env, w, claim, [Handle(RejectClose, copy, now)] + steps);
    }
  }

  // --- One worker ------------------------------------------------------------

  /** A worker on its own knows what the row says about a contract it is funding. */
  predicate Alone(w: World) {
    && |w.workers| == 1
    && (!w.workers[0].Idle? && w.workers[0].copy.state.Funding? ==>
          && (w.workers[0].Working? && w.row.state.Funding? ==> w.workers[0].copy.funding == w.row.funding)
          && (w.workers[0].copy.funding.None? ==> w.row.state.Funding?)
          && (w.workers[0].Funded? ==> w.row.state.Funding? && w.row.funding.None?)
          && (w.workers[0].Ready? ==> w.workers[0].copy.funding.Some?))
  }

  lemma AloneIsUnclaimed(env: Env, w: World, claim: Option<Outpoint>, step: Step)
    requires Exitable(env, w, claim) && Alone(w) && step.FundReturns? && Next(env, w, step) != w
    ensures w.row.state.Funding? && Unclaimed(w)
  {
    WorkerStep(env, w, step);
  }

  lemma HandlingLeavesAlone(env: Env, w: World, claim: Option<Outpoint>, step: Step)
    requires Exitable(env, w, claim) && Alone(w) && CarefulReject(w, step) && step.Handle?
    ensures Alone(Next(env, w, step))
  {
    if step.copy in w.past {
      HeldCopyAgrees(env, w, claim, step.copy);
    }
    assert WorkerAgrees(w, claim, w.workers[0]);
  }

  lemma RequestsLeaveAlone(env: Env, w: World, claim: Option<Outpoint>, step: Step)
    requires Exitable(env, w, claim) && Alone(w) && CarefulReject(w, step) && !OfWorker(step)
    ensures Alone(Next(env, w, step))
  {
    if step.Handle? {
      HandlingLeavesAlone(env, w, claim, step);
    } else {
      assert WorkerAgrees(w, claim, w.workers[0]);
    }
  }

  /** Of what the worker does to the row, only a save leaves it funding, and then with the outpoint on both. */
  lemma WritingLeavesAlone(env: Env, w: World, claim: Option<Outpoint>, step: Step)
    requires Exitable(env, w, claim) && Alone(w) && (step.SaveFunding? || step.Finish? || step.GiveUp?) && step.i == 0
    ensures Alone(WorkerNext(env, w, 0, step))
  {
    assert WorkerAgrees(w, claim, w.workers[0]);
  }

  lemma WorkLeavesAlone(env: Env, w: World, claim: Option<Outpoint>, step: Step)
    requires Exitable(env, w, claim) && Alone(w) && OfWorker(step)
    ensures Alone(Next(env, w, step))
  {
    WorkerStep(env, w, step);
    if step.i == 0 {
      if step.SaveFunding? || step.Finish? || step.GiveUp? {
        WritingLeavesAlone(env, w, claim, step);
      } else {
        assert WorkerAgrees(w, claim, w.workers[0]);
      }
    }
  }

  /** With one worker, however often it crashes and starts over, no funding ever comes back while another is
      claimed, so only the rejects are left to be careful about. */
  lemma {:induction false} OneWorkerIsCareful(env: Env, w: World, steps: seq<Step>)
    requires Initial(env, w) && |w.workers| == 1 && RejectsCarefully(env, w, steps)
    ensures CarefulRun(env, w, steps) && Alone(Run(env, w, steps))
  {
    if |steps| > 0 {
      var earlier, step := steps[..|steps| - 1], steps[|steps| - 1];
      OneWorkerIsCareful(env, w, earlier);
      InitiallyExitable(env, w);
      var claim := RunKeepsExit(env, w, None, earlier);
      var now := Run(env, w, earlier);
      if OfWorker(step) {
        WorkLeavesAlone(env, now, claim, step);
      } else {
        RequestsLeaveAlone(env, now, claim, step);
      }
      if step.FundReturns? && Next(env, now, step) != now {
        AloneIsUnclaimed(env, now, claim, step);
      }
    }
  }

  /** And the collateral is never asked for again once it is recorded: whenever the worker is about to call Fund,
      the row is funding and names no outpoint. */
  lemma FundsOnlyWhatIsUnrecorded(env: Env, w: World, steps: seq<Step>, outpoint: Outpoint)
    requires Initial(env, w) && |w.workers| == 1 && RejectsCarefully(env, w, steps)
    requires var now := Run(env, w, steps); Next(env, now, FundReturns(0, outpoint)) != now
    ensures Run(env, w, steps).row.state == Funding && Run(env, w, steps).row.funding.None?
  {
    OneWorkerIsCareful(env, w, steps);
    InitiallyExitable(env, w);
    var claim := RunKeepsExit(env, w, None, steps);
    AloneIsUnclaimed(env, Run(env, w, steps), claim, FundReturns(0, outpoint));
  }

  // --- Many workers, one funding ---------------------------------------------

  /** How many fundings came back. */
  function Fundings(env: Env, w: World, steps: seq<Step>): nat {
    if |steps| == 0 then 0
    else
      var earlier, step := steps[..|steps| - 1], steps[|steps| - 1];
      var now := Run(env, w, earlier);
      Fundings(env, w, earlier) + if step.FundReturns? && Next(env, now, step) != now then 1 else 0
  }

  /** Nobody holds a copy that names an outpoint. */
  ghost predicate Unfunded(w: World) {
    && w.row.funding.None? && (forall r :: r in w.past ==> r.funding.None?)
    && forall i | 0 <= i < |w.workers| ::
         w.workers[i].Idle? || (!w.workers[i].Funded? && w.workers[i].copy.funding.None?)
  }

  lemma StaysUnfunded(env: Env, w: World, step: Step)
    requires Unfunded(w) && !(step.FundReturns? && Next(env, w, step) != w)
    ensures Unfunded(Next(env, w, step))
  {
    if OfWorker(step) {
      WorkerStep(env, w, step);
    }
  }

  /** However many workers race for a contract, they are careful as long as the operator funds it once: that the
      second of two conflicting transactions is refused is all the protocol needs of it. */
  lemma {:induction false} OneFundingIsCareful(env: Env, w: World, steps: seq<Step>)
    requires Initial(env, w) && RejectsCarefully(env, w, steps) && Fundings(env, w, steps) <= 1
    ensures CarefulRun(env, w, steps) && (Fundings(env, w, steps) == 0 ==> Unfunded(Run(env, w, steps)))
  {
    if |steps| > 0 {
      var earlier, step := steps[..|steps| - 1], steps[|steps| - 1];
      OneFundingIsCareful(env, w, earlier);
      var now := Run(env, w, earlier);
      if Fundings(env, w, earlier) == 0 && !(step.FundReturns? && Next(env, now, step) != now) {
        StaysUnfunded(env, now, step);
      }
    }
  }

  // --- The two ways of losing it ---------------------------------------------

  /** A proposal that is accepted and whose funding has been asked for. */
  lemma FundingIsReached(env: Env, w: World, who: User, script: ByteString, pkScript: ByteString,
                         price: Int64, now: int) returns (w': World)
    requires Initial(env, w) && Joined(env, w.row.core, who, script, pkScript, price).Some?
    ensures Reaches(env, w, w')
    ensures w'.row == Row(Funding, Joined(env, w.row.core, who, script, pkScript, price).value, None, now)
    ensures w'.row in w'.past && w'.exit.None? && w'.workers == w.workers && w'.closes == {}
  {
    ReachesItself(env, w);
    var accept := Accept(w.row, who, script, pkScript, price, now);
    ReachesNext(env, w, w, accept);
    var accepted := Next(env, w, accept);
    ReachesNext(env, w, accepted, Handle(Fund, accepted.row, now));
    w' := Next(env, accepted, Handle(Fund, accepted.row, now));
  }

  /** RejectRedemption from funding: a party can make a contract active whose funding has not even begun. */
  lemma UnguardedRejectActivatesTheUnfunded(env: Env, w: World, who: User, script: ByteString, pkScript: ByteString,
                                            price: Int64, now: int)
    requires Initial(env, w) && Joined(env, w.row.core, who, script, pkScript, price).Some?
    ensures exists w' :: Reaches(env, w, w') && w'.row.state == Active && w'.row.funding.None? && w'.exit.None?
  {
    var funding := FundingIsReached(env, w, who, script, pkScript, price, now);
    ReachesNext(env, w, funding, Handle(RejectClose, funding.row, now));
    assert Next(env, funding, Handle(RejectClose, funding.row, now)).row.state == Active;
  }

  lemma ReachesWork(env: Env, w: World, now: World, i: nat, step: Step)
    requires Reaches(env, w, now) && OfWorker(step) && step.i == i < |now.workers|
    ensures Reaches(env, w, WorkerNext(env, now, i, step))
  {
    ReachesNext(env, w, now, step);
    WorkerStep(env, now, step);
  }

  /** A worker picks a funding contract up and has the operator fund it. */
  lemma PicksAndFunds(env: Env, w: World, now: World, i: nat, outpoint: Outpoint) returns (w': World)
    requires Reaches(env, w, now) && i < |now.workers| && now.workers[i].Idle?
    requires now.row.state == Funding && now.row.funding.None?
    ensures Reaches(env, w, w') && w' == WithWorker(now, i, Funded(now.row.(funding := Some(outpoint))))
  {
    ReachesWork(env, w, now, i, Pick(i));
    var picked := WorkerNext(env, now, i, Pick(i));
    ReachesWork(env, w, picked, i, FundReturns(i, outpoint));
    w' := WorkerNext(env, picked, i, FundReturns(i, outpoint));
  }

  predicate SameCloses(w: World, w': World) {
    w'.close == w.close && w'.closes == w.closes && w'.submitted == w.submitted
  }

  lemma Saves(env: Env, w: World, now: World, i: nat, time: int) returns (w': World)
    requires Reaches(env, w, now) && i < |now.workers| && now.workers[i].Funded?
    requires now.workers[i].copy.state == now.row.state
    ensures Reaches(env, w, w') && w'.row == now.workers[i].copy.(updatedAt := time) && w'.exit == now.exit
    ensures w'.workers == now.workers[i := Working(now.workers[i].copy)] && SameCloses(now, w')
  {
    ReachesWork(env, w, now, i, SaveFunding(i, time));
    w' := WorkerNext(env, now, i, SaveFunding(i, time));
  }

  /** What the exit store holds after a worker has looked, or failed to look, and signed. */
  function SignedExit(env: Env, stored: Option<ExitPackage>, copy: Row, answers: Side -> Option<ByteString>,
                      readFails: bool)
    : Option<ExitPackage>
    requires copy.funding.Some?
  {
    if stored.Some? && !readFails then stored
    else
      match Presigned(env, copy.core, copy.funding.value, answers)
      case None => None
      case Some(pkg) => PutExit(stored, pkg)
  }

  lemma Signs(env: Env, w: World, now: World, i: nat, answers: Side -> Option<ByteString>,
              readFails: bool) returns (w': World)
    requires Reaches(env, w, now) && i < |now.workers| && now.workers[i].Working?
    requires now.workers[i].copy.state == Funding && now.workers[i].copy.funding.Some?
    requires SignedExit(env, now.exit, now.workers[i].copy, answers, readFails).Some?
    ensures Reaches(env, w, w') && w'.row == now.row && w'.workers == now.workers[i := Ready(now.workers[i].copy)]
    ensures w'.exit == SignedExit(env, now.exit, now.workers[i].copy, answers, readFails) && SameCloses(now, w')
  {
    ReachesWork(env, w, now, i, Presign(i, answers, readFails));
    w' := WorkerNext(env, now, i, Presign(i, answers, readFails));
  }

  lemma Activates(env: Env, w: World, now: World, i: nat, time: int) returns (w': World)
    requires Reaches(env, w, now) && i < |now.workers| && now.workers[i].Ready?
    requires now.workers[i].copy.state == now.row.state == Funding
    ensures Reaches(env, w, w') && w'.exit == now.exit && SameCloses(now, w')
    ensures w'.row == now.workers[i].copy.(state := Active, updatedAt := time) && w'.row in w'.past
    ensures w'.workers == now.workers[i := Idle]
  {
    ReachesWork(env, w, now, i, Finish(i, time));
    w' := WorkerNext(env, now, i, Finish(i, time));
  }

  /** Two workers and two fundings: the compare-and-swap only looks at the state, so the second may overwrite what
      the first recorded. The contract ends up active at an outpoint its stored exit does not spend. */
  lemma TwoWorkersLoseTheExit(env: Env, w: World, who: User, script: ByteString, pkScript: ByteString, price: Int64,
                              now: int, first: Outpoint, second: Outpoint, answers: Side -> Option<ByteString>)
    requires Initial(env, w) && w.workers == [Idle, Idle] && first != second
    requires Joined(env, w.row.core, who, script, pkScript, price).Some?
    requires Presigned(env, Joined(env, w.row.core, who, script, pkScript, price).value, first, answers).Some?
    ensures exists w' :: Reaches(env, w, w') && w'.row.state == Active && w'.row.funding == Some(second)
              && w'.exit.Some? && !Covers(env, w'.row.core, second, w'.exit.value)
  {
    var funding := FundingIsReached(env, w, who, script, pkScript, price, now);
    var one := PicksAndFunds(env, w, funding, 0, first);
    var two := PicksAndFunds(env, w, one, 1, second);
    var saved := Saves(env, w, two, 0, now);
    var signed := Signs(env, w, saved, 0, answers, false);
    var overwritten := Saves(env, w, signed, 1, now);
    var found := Signs(env, w, overwritten, 1, answers, false);
    var active := Activates(env, w, found, 1, now);
    assert active.exit == Presigned(env, funding.row.core, first, answers) && active.row.funding == Some(second);
    ExitsOfTwoOutpointsDiffer(env, funding.row.core, first, second);
  }

  lemma ExitsOfTwoOutpointsDiffer(env: Env, core: Core, first: Outpoint, second: Outpoint)
    requires first != second && ExitOf(env, core, first).Ok?
    ensures ExitOf(env, core, first) != ExitOf(env, core, second)
  {
  }
}
