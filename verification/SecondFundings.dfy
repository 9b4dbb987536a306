/**
 A second funding of a contract whose collateral somebody says has gone somewhere already, exactly: what it takes for
 the exit to be lost after it, without another funding and without anybody rejecting what is not there.
 */
module SecondFundings {
  import opened Prelude
  import opened Bytes
  import opened Arbitrations
  import opened ContractStore
  import opened Lifecycle
  import opened LiveContracts

  /** A continuation in which nothing else goes wrong. */
  predicate Harmless(env: Env, w: World, steps: seq<Step>) {
    RejectsCarefully(env, w, steps) && Fundings(env, w, steps) == 0
  }

  ghost predicate CanLoseTheExit(env: Env, w: World) {
    exists steps :: Harmless(env, w, steps) && LosesTheExit(env, Run(env, w, steps))
  }

  /** A contract that is live and cannot be left. */
  predicate LosesTheExit(env: Env, w: World) {
    Live(w.row.state) && !CanBeExited(env, w)
  }

  lemma {:induction false} HarmlessIsCareful(env: Env, w: World, steps: seq<Step>)
    requires Harmless(env, w, steps)
    ensures CarefulRun(env, w, steps)
  {
    if |steps| > 0 {
      HarmlessIsCareful(env, w, steps[..|steps| - 1]);
    }
  }

  // --- Runs of workers -------------------------------------------------------

  /** Steps of workers that have their funding. */
  predicate JustWork(steps: seq<Step>) {
    forall k | 0 <= k < |steps| :: OfWorker(steps[k]) && !steps[k].FundReturns?
  }

  lemma {:induction false} JustWorkIsHarmless(env: Env, w: World, steps: seq<Step>)
    requires JustWork(steps)
    ensures Harmless(env, w, steps)
  {
    if |steps| > 0 {
      JustWorkIsHarmless(env, w, steps[..|steps| - 1]);
    }
  }

  lemma RunAnd(env: Env, w: World, steps: seq<Step>, step: Step)
    ensures Run(env, w, steps + [step]) == Next(env, Run(env, w, steps), step)
  {
    assert (steps + [step])[..|steps|] == steps;
  }

  lemma RunOfThree(env: Env, w: World, a: Step, b: Step, c: Step)
    ensures Run(env, w, [a, b, c]) == Next(env, Next(env, Next(env, w, a), b), c)
  {
    RunAnd(env, w, [], a);
    RunAnd(env, w, [a], b);
    RunAnd(env, w, [a, b], c);
    assert [] + [a] == [a] && [a] + [b] == [a, b] && [a, b] + [c] == [a, b, c];
  }

  /** A worker that comes back with its own funding while a package is stored: it overwrites the row, finds the package
      and activates. */
  lemma Overwrites(env: Env, w: World, i: nat, answers: Side -> Option<ByteString>) returns (steps: seq<Step>)
    requires i < |w.workers| && w.workers[i].Funded? && w.workers[i].copy.state == w.row.state == Funding
    requires w.workers[i].copy.funding.Some? && w.exit.Some?
    ensures JustWork(steps) && Run(env, w, steps).exit == w.exit
    ensures Run(env, w, steps).row == w.workers[i].copy.(state := Active, updatedAt := 0)
  {
    steps := [SaveFunding(i, 0), Presign(i, answers, false), Finish(i, 0)];
    RunOfThree(env, w, steps[0], steps[1], steps[2]);
    WorkerStep(env, w, steps[0]);
    var saved := Next(env, w, steps[0]);
    WorkerStep(env, saved, steps[1]);
    WorkerStep(env, Next(env, saved, steps[1]), steps[2]);
  }

  lemma StartsOver(env: Env, w: World, j: nat)
    requires j < |w.workers| && w.row.state == Funding
    ensures Next(env, Next(env, w, Crash(j)), Pick(j)) == WithWorker(w, j, Working(w.row))
  {
    WorkerStep(env, w, Crash(j));
    WorkerStep(env, Next(env, w, Crash(j)), Pick(j));
  }

  lemma SignsWhatItHolds(env: Env, w: World, j: nat, first: Outpoint, answers: Side -> Option<ByteString>)
    requires j < |w.workers| && w.workers[j].Working? && w.workers[j].copy.state == w.row.state == Funding
    requires w.workers[j].copy.core == w.row.core && w.workers[j].copy.funding == Some(first) && w.exit.None?
    requires Presigned(env, w.row.core, first, answers).Some?
    ensures Next(env, w, Presign(j, answers, false))
            == WithWorker(w.(exit := Presigned(env, w.row.core, first, answers)), j, Ready(w.workers[j].copy))
  {
    WorkerStep(env, w, Presign(j, answers, false));
  }

  /** What a second worker leaves behind that has signed the exit of the first outpoint. */
  predicate FirstSigned(env: Env, w: World, i: nat, first: Outpoint, answers: Side -> Option<ByteString>, w': World)
    requires i < |w.workers|
  {
    && |w'.workers| == |w.workers| && w'.workers[i] == w.workers[i] && w'.row.state == Funding
    && w'.exit == Presigned(env, w.row.core, first, answers)
  }

  /** It starts over with the row, which names the outpoint. */
  lemma SignsTheRows(env: Env, w: World, i: nat, j: nat, first: Outpoint, answers: Side -> Option<ByteString>)
    returns (steps: seq<Step>)
    requires i < |w.workers| && j < |w.workers| && i != j && w.row.state == Funding && w.exit.None?
    requires w.row.funding == Some(first) && Presigned(env, w.row.core, first, answers).Some?
    ensures JustWork(steps) && FirstSigned(env, w, i, first, answers, Run(env, w, steps))
  {
    var sign := Presign(j, answers, false);
    steps := [Crash(j), Pick(j), sign];
    RunOfThree(env, w, Crash(j), Pick(j), sign);
    StartsOver(env, w, j);
    SignsWhatItHolds(env, WithWorker(w, j, Working(w.row)), j, first, answers);
  }

  /** Or it goes on with its own copy, which does. */
  lemma SignsItsOwn(env: Env, w: World, i: nat, j: nat, first: Outpoint, answers: Side -> Option<ByteString>)
    returns (steps: seq<Step>)
    requires i < |w.workers| && j < |w.workers| && i != j && w.row.state == Funding && w.exit.None?
    requires w.workers[j].Funded? && w.workers[j].copy.(updatedAt := w.row.updatedAt) == w.row.(funding := Some(first))
    requires Presigned(env, w.row.core, first, answers).Some?
    ensures JustWork(steps) && FirstSigned(env, w, i, first, answers, Run(env, w, steps))
  {
    var save, sign := SaveFunding(j, 0), Presign(j, answers, false);
    steps := [save, sign];
    RunAnd(env, w, [], save);
    RunAnd(env, w, [save], sign);
    assert [] + [save] == [save] && [save] + [sign] == [save, sign];
    WorkerStep(env, w, save);
    SignsWhatItHolds(env, Next(env, w, save), j, first, answers);
  }

  // --- The condition, exactly ------------------------------------------------

  /** Whoever claims the first outpoint, the exit of it is stored or can be signed. */
  lemma FirstExitIsStored(env: Env, w: World, claim: Option<Outpoint>, i: nat, outpoint: Outpoint,
                          answers: Side -> Option<ByteString>) returns (steps: seq<Step>)
    requires Exitable(env, w, claim) && w.row.state == Funding && |w.workers| >= 2 && i < |w.workers|
    requires Next(env, w, FundReturns(i, outpoint)) != w && !Unclaimed(w) && claim.Some?
    requires Presigned(env, w.row.core, claim.value, answers).Some?
    ensures JustWork(steps)
    ensures var funded := Next(env, w, FundReturns(i, outpoint));
            var w' := Run(env, funded, steps);
            && |w'.workers| == |w.workers| && w'.workers[i] == funded.workers[i] && w'.row.state == Funding
            && w'.exit.Some? && Covers(env, w.row.core, claim.value, w'.exit.value)
  {
    var step := FundReturns(i, outpoint);
    WorkerStep(env, w, step);
    var funded := Next(env, w, step);
    if w.exit.Some? {
      steps := [];
    } else if w.row.funding.Some? {
      steps := SignsTheRows(env, funded, i, if i == 0 then 1 else 0, claim.value, answers);
    } else {
      var j :| 0 <= j < |w.workers| && Claims(w.workers[j]);
      assert WorkerAgrees(w, claim, w.workers[j]) && FaithfulWorker(env, w.row, w.workers[j]);
      steps := SignsItsOwn(env, funded, i, j, claim.value, answers);
    }
  }

  lemma ClaimedCanBeLost(env: Env, w: World, claim: Option<Outpoint>, i: nat, outpoint: Outpoint,
                         answers: Side -> Option<ByteString>)
    requires Exitable(env, w, claim) && w.row.state == Funding && |w.workers| >= 2 && i < |w.workers|
    requires Next(env, w, FundReturns(i, outpoint)) != w && !Unclaimed(w) && claim.Some? && claim.value != outpoint
    requires Presigned(env, w.row.core, claim.value, answers).Some?
    ensures CanLoseTheExit(env, Next(env, w, FundReturns(i, outpoint)))
  {
    WorkerStep(env, w, FundReturns(i, outpoint));
    assert FaithfulWorker(env, w.row, w.workers[i]);
    var funded := Next(env, w, FundReturns(i, outpoint));
    var signing := FirstExitIsStored(env, w, claim, i, outpoint, answers);
    var stored := Run(env, funded, signing);
    var writing := Overwrites(env, stored, i, answers);
    RunsJoin(env, funded, signing, writing);
    JustWorkIsHarmless(env, funded, signing + writing);
    ExitsOfTwoOutpointsDiffer(env, w.row.core, claim.value, outpoint);
    assert LosesTheExit(env, Run(env, funded, signing + writing));
  }

  /** The protocol's one assumption on the operator, exactly. A funding that comes back to a funding contract leaves
      nothing that can go wrong on its own if and only if nobody holds another one: neither the row nor any worker
      names an outpoint. Otherwise, as soon as there are two workers, some run without another funding and without a
      careless reject ends in a live contract that nobody can leave. */
  lemma SecondFundingIsHarmfulExactly(env: Env, w: World, claim: Option<Outpoint>, i: nat, outpoint: Outpoint,
                                      answers: Side -> Option<ByteString>)
    requires Exitable(env, w, claim) && w.row.state == Funding && |w.workers| >= 2 && i < |w.workers|
    requires Next(env, w, FundReturns(i, outpoint)) != w
    requires !Unclaimed(w) && claim.Some? ==>
               claim.value != outpoint && Presigned(env, w.row.core, claim.value, answers).Some?
    ensures CanLoseTheExit(env, Next(env, w, FundReturns(i, outpoint))) <==> !Unclaimed(w)
  {
    if Unclaimed(w) {
      UnclaimedIsKept(env, w, claim, i, outpoint);
    } else {
      SomebodyClaims(env, w, claim);
      ClaimedCanBeLost(env, w, claim, i, outpoint, answers);
    }
  }

  lemma SomebodyClaims(env: Env, w: World, claim: Option<Outpoint>)
    requires Exitable(env, w, claim) && w.row.state == Funding && !Unclaimed(w)
    ensures claim.Some?
  {
    if w.row.funding.None? {
      var j :| 0 <= j < |w.workers| && Claims(w.workers[j]);
      assert WorkerAgrees(w, claim, w.workers[j]);
    }
  }

  lemma UnclaimedIsKept(env: Env, w: World, claim: Option<Outpoint>, i: nat, outpoint: Outpoint)
    requires Exitable(env, w, claim) && Unclaimed(w)
    ensures !CanLoseTheExit(env, Next(env, w, FundReturns(i, outpoint)))
  {
    var step := FundReturns(i, outpoint);
    StepKeepsExit(env, w, claim, step);
    var funded := Next(env, w, step);
    var claimed := Claimed(env, w, claim, step);
    forall steps | Harmless(env, funded, steps) ensures !LosesTheExit(env, Run(env, funded, steps)) {
      HarmlessIsCareful(env, funded, steps);
      var later := RunKeepsExit(env, funded, claimed, steps);
      if Live(Run(env, funded, steps).row.state) {
        LiveMeansExitable(env, Run(env, funded, steps), later);
      }
    }
  }
}
