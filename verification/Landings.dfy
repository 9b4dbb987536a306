/**
 Where an exit landed: the one thing exit_packages still takes once it is written
 (service/internal/postgres/exits.go), who may write over it, and what is left when it is gone.
 */
module Landings {
  import opened Prelude
  import opened Bytes
  import opened Arbitrations
  import opened ContractStore
  import opened Lifecycle
  import opened LiveContracts

  // --- One step --------------------------------------------------------------

  /** A worker that signs the exit over again, because it did not see that there is one. */
  predicate SignsAgain(env: Env, w: World, step: Step) {
    && step.Presign? && step.readFails && step.i < |w.workers| && w.workers[step.i].Working?
    && var copy := w.workers[step.i].copy;
       copy.state.Funding? && copy.funding.Some? && Presigned(env, copy.core, copy.funding.value, step.answers).Some?
  }

  /** A worker that broadcasts the exit over again, because it had not landed when it looked. */
  predicate LandsElsewhere(w: World, step: Step)
    requires Landed(w)
  {
    && step.Land? && step.i < |w.workers| && w.workers[step.i].Leaving?
    && w.exit.value.swept != Some((step.outpoint, step.sats))
  }

  /** A landing is lost by the first of the two and by nothing else, and only the second replaces it. */
  lemma LandingStaysExactly(env: Env, w: World, step: Step)
    requires Landed(w)
    ensures Landed(Next(env, w, step)) <==> !SignsAgain(env, w, step)
    ensures Next(env, w, step).exit == w.exit <==> !SignsAgain(env, w, step) && !LandsElsewhere(w, step)
  {
    if OfWorker(step) {
      WorkerStep(env, w, step);
    }
  }

  // --- One worker ------------------------------------------------------------

  /** Past funding, from where nothing leads back. */
  predicate Beyond(s: State) {
    !Early(s) && !s.Funding?
  }

  /** Out of the operator's hands. */
  predicate Out(s: State) {
    s.Exited? || s.Arbitrating? || s.Arbitrated?
  }

  /** What the rows say: no way back to funding, and out only with the landing on record. */
  ghost predicate RowsAgree(w: World) {
    && (forall r :: r in w.past ==> Beyond(r.state) ==> Beyond(w.row.state))
    && (Out(w.row.state) ==> Landed(w))
    && (Landed(w) ==> Beyond(w.row.state))
  }

  /** What the one worker says: it is not funding what has landed, and broadcasts only what has not. */
  predicate WorkerKnows(w: World, phase: Phase) {
    phase.Idle?
    || (&& (Beyond(phase.copy.state) ==> Beyond(w.row.state))
        && (Landed(w) ==> !phase.copy.state.Funding? && !phase.Leaving?)
        && (phase.Leaving? ==> phase.copy.state.Exiting?)
        && (phase.Ready? && phase.copy.state.Exiting? ==> Landed(w)))
  }

  ghost predicate LandsOnce(w: World) {
    RowsAgree(w) && |w.workers| == 1 && WorkerKnows(w, w.workers[0])
  }

  /** A write along the table keeps the rows in agreement, if it leaves the operator only once landed. */
  lemma WritingKeepsRows(w: World, copy: Row, to: State, now: int)
    requires RowsAgree(w) && (CanGoTo(copy.state, to) || to == copy.state)
    requires Out(to) && !Out(copy.state) ==> Landed(w)
    ensures RowsAgree(Written(w, copy, to, now))
    ensures Beyond(w.row.state) ==> Beyond(Written(w, copy, to, now).row.state)
  {
  }

  lemma RequestLandsOnce(env: Env, w: World, step: Step)
    requires LandsOnce(w) && !OfWorker(step)
    ensures LandsOnce(Next(env, w, step))
  {
    if step.Accept? && Held(w, step.copy, Proposed) {
      var core := Joined(env, step.copy.core, step.who, step.script, step.pkScript, step.price);
      if core.Some? {
        WritingKeepsRows(w, step.copy.(core := core.value), State.Accepted, step.now);
      }
    } else if step.Handle? && Target(step.action, step.copy.state).Some? {
      var to := Target(step.action, step.copy.state).value;
      if CanGoTo(step.copy.state, to) {
        WritingKeepsRows(w, step.copy, to, step.now);
      }
    } else if step.BeginClose? {
      if step.copy.state.RedemptionProposed? {
        WritingKeepsRows(w, step.copy, Redeeming, step.now);
      }
    }
  }

  /** A worker's last write. */
  lemma EndLandsOnce(env: Env, w: World, step: Step)
    requires LandsOnce(w) && (step.Finish? || step.GiveUp?) && step.i == 0
    ensures LandsOnce(WorkerNext(env, w, 0, step))
  {
    var phase := w.workers[0];
    if !phase.Idle? {
      var to := if step.Finish? then DoneTo(phase.copy.state) else GiveUpTo(phase.copy.state);
      if to.Some? && CanGoTo(phase.copy.state, to.value) && (Out(to.value) && !Out(phase.copy.state) ==> Landed(w)) {
        WritingKeepsRows(w, phase.copy, to.value, step.now);
      }
    }
  }

  lemma WorkLandsOnce(env: Env, w: World, step: Step)
    requires LandsOnce(w) && OfWorker(step) && step.i == 0
    ensures LandsOnce(WorkerNext(env, w, 0, step))
  {
    var phase := w.workers[0];
    if step.Finish? || step.GiveUp? {
      EndLandsOnce(env, w, step);
    } else if step.SaveFunding? && phase.Funded? {
      WritingKeepsRows(w, phase.copy, phase.copy.state, step.now);
    }
  }

  lemma StepLandsOnce(env: Env, w: World, step: Step)
    requires LandsOnce(w)
    ensures LandsOnce(Next(env, w, step))
    ensures Landed(w) ==> Next(env, w, step).exit == w.exit
  {
    if OfWorker(step) {
      WorkerStep(env, w, step);
      if step.i == 0 {
        WorkLandsOnce(env, w, step);
      }
    } else {
      RequestLandsOnce(env, w, step);
    }
    if Landed(w) {
      LandingStaysExactly(env, w, step);
    }
  }

  lemma {:induction false} RunLandsOnce(env: Env, w: World, steps: seq<Step>)
    requires LandsOnce(w)
    ensures LandsOnce(Run(env, w, steps)) && (Landed(w) ==> Run(env, w, steps).exit == w.exit)
  {
    if |steps| > 0 {
      RunLandsOnce(env, w, steps[..|steps| - 1]);
      StepLandsOnce(env, Run(env, w, steps[..|steps| - 1]), steps[|steps| - 1]);
    }
  }

  /** One worker never loses a landing. In every run, with any requests and any crashes: a contract that is out of the
      operator's hands has its landing on record, and what is on record is never written over. */
  lemma OneWorkerKeepsTheLanding(env: Env, w: World, steps: seq<Step>, more: seq<Step>)
    requires Initial(env, w) && |w.workers| == 1
    ensures var now, later := Run(env, w, steps), Run(env, Run(env, w, steps), more);
            && (Out(now.row.state) ==> Landed(now))
            && (Landed(now) ==> later.exit == now.exit)
  {
    RunLandsOnce(env, w, steps);
    RunLandsOnce(env, Run(env, w, steps), more);
  }

  // --- A landing that is lost ------------------------------------------------

  /** Exited, without a landing, and with no worker that is still leaving. */
  predicate Stranded(w: World) {
    && w.row.state == Exited && !Landed(w)
    && forall i | 0 <= i < |w.workers| ::
         w.workers[i].Idle?
         || (Transient(w.workers[i].copy.state) && !w.workers[i].copy.state.Exiting? && !w.workers[i].Leaving?)
  }

  lemma StrandedStays(env: Env, w: World, step: Step)
    requires Stranded(w)
    ensures Stranded(Next(env, w, step))
  {
    if OfWorker(step) {
      WorkerStep(env, w, step);
    }
  }

  /** Nothing gets such a contract on: no request and no worker ever moves it again. */
  lemma {:induction false} StrandedForEver(env: Env, w: World, steps: seq<Step>)
    requires Stranded(w)
    ensures Stranded(Run(env, w, steps))
  {
    if |steps| > 0 {
      StrandedForEver(env, w, steps[..|steps| - 1]);
      StrandedStays(env, Run(env, w, steps[..|steps| - 1]), steps[|steps| - 1]);
    }
  }

  /** Funded by one worker, and in the hands of two. */
  lemma BothHoldIt(env: Env, w: World, who: User, script: ByteString, pkScript: ByteString, price: Int64, now: int,
                   outpoint: Outpoint) returns (w': World)
    requires Initial(env, w) && w.workers == [Idle, Idle]
    requires Joined(env, w.row.core, who, script, pkScript, price).Some?
    ensures var core := Joined(env, w.row.core, who, script, pkScript, price).value;
            && Reaches(env, w, w') && w'.row == Row(Funding, core, Some(outpoint), now) && w'.exit.None?
            && w'.workers == [Working(w'.row), Working(w'.row)]
  {
    var funding := FundingIsReached(env, w, who, script, pkScript, price, now);
    var funded := PicksAndFunds(env, w, funding, 0, outpoint);
    var saved := Saves(env, w, funded, 0, now);
    ReachesWork(env, w, saved, 1, Pick(1));
    w' := WorkerNext(env, saved, 1, Pick(1));
  }

  /** The first goes on and activates it. */
  lemma ActiveBesideALateWorker(env: Env, w: World, who: User, script: ByteString, pkScript: ByteString, price: Int64,
                                now: int, outpoint: Outpoint, answers: Side -> Option<ByteString>) returns (w': World)
    requires Initial(env, w) && w.workers == [Idle, Idle]
    requires Joined(env, w.row.core, who, script, pkScript, price).Some?
    requires Presigned(env, Joined(env, w.row.core, who, script, pkScript, price).value, outpoint, answers).Some?
    ensures var core := Joined(env, w.row.core, who, script, pkScript, price).value;
            && Reaches(env, w, w') && w'.row.state == Active && w'.row in w'.past
            && w'.exit == Presigned(env, core, outpoint, answers)
            && w'.workers == [Idle, Working(Row(Funding, core, Some(outpoint), now))]
  {
    var both := BothHoldIt(env, w, who, script, pkScript, price, now, outpoint);
    var signed := Signs(env, w, both, 0, answers, false);
    w' := Activates(env, w, signed, 0, now);
  }

  /** One worker funds, activates and takes the contract out, while another still holds it as it was when it had just
      been funded. */
  lemma ExitedIsReached(env: Env, w: World, who: User, script: ByteString, pkScript: ByteString, price: Int64, now: int,
                        outpoint: Outpoint, answers: Side -> Option<ByteString>, landed: Outpoint, sats: Int64)
    returns (w': World)
    requires Initial(env, w) && w.workers == [Idle, Idle]
    requires Joined(env, w.row.core, who, script, pkScript, price).Some?
    requires Presigned(env, Joined(env, w.row.core, who, script, pkScript, price).value, outpoint, answers).Some?
    ensures Reaches(env, w, w') && w'.row.state == Exited && Landed(w') && |w'.workers| == 2 && w'.workers[0].Idle?
    ensures var core := Joined(env, w.row.core, who, script, pkScript, price).value;
            w'.workers[1] == Working(Row(Funding, core, Some(outpoint), now))
  {
    var active := ActiveBesideALateWorker(env, w, who, script, pkScript, price, now, outpoint, answers);
    w' := LeavesFor(env, w, active, now, landed, sats);
  }

  /** From active, a party leaves and the contract waits for a worker. */
  lemma ExitingIsReached(env: Env, w: World, active: World, now: int) returns (w': World)
    requires Reaches(env, w, active) && active.row.state == Active && active.row in active.past && active.exit.Some?
    ensures Reaches(env, w, w') && w'.exit == active.exit && w'.row.state == Exiting && w'.workers == active.workers
  {
    ReachesNext(env, w, active, Handle(Leave, active.row, now));
    w' := Next(env, active, Handle(Leave, active.row, now));
  }

  /** Which takes it up. */
  lemma LeavingIsReached(env: Env, w: World, exiting: World) returns (w': World)
    requires Reaches(env, w, exiting) && exiting.row.state == Exiting && exiting.exit.Some? && !Landed(exiting)
    requires |exiting.workers| > 0 && exiting.workers[0].Idle?
    ensures Reaches(env, w, w') && w' == WithWorker(exiting, 0, Leaving(exiting.row))
  {
    ReachesWork(env, w, exiting, 0, Pick(0));
    var picked := WorkerNext(env, exiting, 0, Pick(0));
    ReachesWork(env, w, picked, 0, Broadcast(0));
    w' := WorkerNext(env, picked, 0, Broadcast(0));
  }

  lemma Lands(env: Env, w: World, leaving: World, landed: Outpoint, sats: Int64) returns (w': World)
    requires Reaches(env, w, leaving) && |leaving.workers| > 0 && leaving.workers[0].Leaving? && leaving.exit.Some?
    ensures Reaches(env, w, w') && Landed(w') && w'.row == leaving.row
    ensures w'.workers == leaving.workers[0 := Ready(leaving.workers[0].copy)]
  {
    ReachesWork(env, w, leaving, 0, Land(0, landed, sats));
    w' := WorkerNext(env, leaving, 0, Land(0, landed, sats));
  }

  lemma LandsAndFinishes(env: Env, w: World, leaving: World, now: int, landed: Outpoint, sats: Int64)
    returns (w': World)
    requires Reaches(env, w, leaving) && |leaving.workers| > 0 && leaving.workers[0] == Leaving(leaving.row)
    requires leaving.row.state == Exiting && leaving.exit.Some?
    ensures Reaches(env, w, w') && w'.row.state == Exited && Landed(w')
    ensures w'.workers == leaving.workers[0 := Idle]
  {
    var out := Lands(env, w, leaving, landed, sats);
    ReachesWork(env, w, out, 0, Finish(0, now));
    w' := WorkerNext(env, out, 0, Finish(0, now));
  }

  /** And out of the operator's hands. */
  lemma LeavesFor(env: Env, w: World, active: World, now: int, landed: Outpoint, sats: Int64) returns (w': World)
    requires Reaches(env, w, active) && active.row.state == Active && active.row in active.past
    requires active.exit.Some? && |active.workers| > 0 && active.workers[0].Idle? && !Landed(active)
    ensures Reaches(env, w, w') && w'.row.state == Exited && Landed(w')
    ensures w'.workers == active.workers
  {
    var exiting := ExitingIsReached(env, w, active, now);
    var leaving := LeavingIsReached(env, w, exiting);
    w' := LandsAndFinishes(env, w, leaving, now, landed, sats);
  }

  /** The landing is lost to two workers and one funding: the one that comes late writes the package it signed over
      the row that has landed since, and the contract is exited with nothing to arbitrate, for ever. */
  lemma LateSigningStrandsTheContract(env: Env, w: World, who: User, script: ByteString, pkScript: ByteString,
                                      price: Int64, now: int, outpoint: Outpoint,
                                      answers: Side -> Option<ByteString>, landed: Outpoint, sats: Int64)
    requires Initial(env, w) && w.workers == [Idle, Idle]
    requires Joined(env, w.row.core, who, script, pkScript, price).Some?
    requires Presigned(env, Joined(env, w.row.core, who, script, pkScript, price).value, outpoint, answers).Some?
    ensures exists before ::
              && Reaches(env, w, before) && before.row.state == Exited && Landed(before)
              && Stranded(Next(env, before, Presign(1, answers, true)))
              && forall steps :: Run(env, Next(env, before, Presign(1, answers, true)), steps).row.state == Exited
  {
    var before := ExitedIsReached(env, w, who, script, pkScript, price, now, outpoint, answers, landed, sats);
    var after := Next(env, before, Presign(1, answers, true));
    WorkerStep(env, before, Presign(1, answers, true));
    assert Stranded(after);
    forall steps ensures Run(env, after, steps).row.state == Exited {
      StrandedForEver(env, after, steps);
    }
  }
}
