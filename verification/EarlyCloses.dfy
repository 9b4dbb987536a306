/**
 When a close both parties have signed gets to the operator, and the ways it is lost on the way
 (service/internal/app/redemption.go): every request stores first and moves the row afterwards, so whoever comes
 late with an old copy still stores.
 */
module EarlyCloses {
  import opened Prelude
  import opened Bytes
  import opened Arbitrations
  import opened ContractStore
  import opened Redemptions
  import opened Lifecycle
  import opened LiveContracts

  // --- Where proposals come from ---------------------------------------------

  function Missing(p: Proposal): Side {
    if p.shortSigned then Long else Short
  }

  /** `full` is `half` with the second signature. */
  predicate Completes(core: Core, half: Proposal, full: Proposal) {
    && !Signed(half) && Signed(full)
    && SignProposal(half, Missing(half), KeyOn(core, Missing(half))) == Some(full)
  }

  predicate SameProposal(core: Core, p: Proposal, q: Proposal) {
    p == q || Completes(core, p, q) || Completes(core, q, p)
  }

  /** One id, one proposal: with one signature, and with both. */
  ghost predicate Lineage(w: World) {
    && (forall p :: p in w.closes ==> p.shortSigned || p.longSigned)
    && (forall p, q :: p in w.closes && q in w.closes && p.id == q.id ==> SameProposal(w.row.core, p, q))
  }

  /** What SignClose stores, when it stores anything, is the second signature on what it was given. */
  lemma CountersigningCompletes(env: Env, w: World, copy: Row, who: User, p: Proposal)
    requires Frozen(env, w) && Lineage(w) && Held(w, copy, RedemptionProposed) && p in w.closes
    requires Countersign(env.operator, copy.core, who, env.keyOf(who), p).Some?
    ensures Completes(w.row.core, p, Countersign(env.operator, copy.core, who, env.keyOf(who), p).value)
    ensures Countersign(env.operator, copy.core, who, env.keyOf(who), p).value.id == p.id
  {
    assert Lifecycle.Faithful(env, w.row, copy);
    var side := SideOf(copy.core, who).value;
    assert KeyOn(copy.core, side) == env.keyOf(who);
  }

  lemma ProposingKeepsLineage(env: Env, w: World, copy: Row, q: Request)
    requires Frozen(env, w) && Lineage(w)
    ensures Lineage(Next(env, w, PutClose(copy, q)))
  {
  }

  lemma CompletingKeepsLineage(w: World, half: Proposal, full: Proposal)
    requires Lineage(w) && half in w.closes && full.id == half.id && Completes(w.row.core, half, full)
    ensures Lineage(Stored(w, Some(full)))
  {
    forall q | q in w.closes && q.id == full.id ensures SameProposal(w.row.core, q, full) {
      assert SameProposal(w.row.core, q, half);
    }
  }

  lemma SigningKeepsLineage(env: Env, w: World, copy: Row, who: User, p: Proposal)
    requires Frozen(env, w) && Lineage(w)
    ensures Lineage(Next(env, w, SignClose(copy, who, p)))
  {
    if Held(w, copy, RedemptionProposed) && p in w.closes
       && Countersign(env.operator, copy.core, who, env.keyOf(who), p).Some? {
      CountersigningCompletes(env, w, copy, who, p);
      var full := Countersign(env.operator, copy.core, who, env.keyOf(who), p).value;
      CompletingKeepsLineage(w, p, full);
      assert Next(env, w, SignClose(copy, who, p)) == Stored(w, Some(full));
    }
  }

  /** Nothing else touches the proposals there have been, and the parties' keys are settled once there is one. */
  lemma OthersKeepLineage(env: Env, w: World, step: Step)
    requires Frozen(env, w) && Lineage(w) && !step.PutClose? && !step.SignClose?
    ensures Lineage(Next(env, w, step))
  {
    StepKeepsFrozen(env, w, step);
    assert Next(env, w, step).closes == w.closes by {
      if OfWorker(step) {
        WorkerStep(env, w, step);
      }
    }
  }

  lemma {:induction false} RunKeepsLineage(env: Env, w: World, steps: seq<Step>)
    requires Initial(env, w)
    ensures Frozen(env, Run(env, w, steps)) && Lineage(Run(env, w, steps))
  {
    InitiallyFrozen(env, w);
    RunKeepsFrozen(env, w, steps);
    if |steps| > 0 {
      var earlier, step := steps[..|steps| - 1], steps[|steps| - 1];
      RunKeepsLineage(env, w, earlier);
      var now := Run(env, w, earlier);
      if step.PutClose? {
        ProposingKeepsLineage(env, now, step.copy, step.request);
      } else if step.SignClose? {
        SigningKeepsLineage(env, now, step.copy, step.who, step.proposal);
      } else {
        OthersKeepLineage(env, now, step);
      }
    }
  }

  // --- When a signed close survives ------------------------------------------

  /** The three ways to lose the stored close: a new proposal from an active copy, a signature on an older proposal
      from a copy in which one was open, and a drop. None of them asks what state the row is in by then. */
  predicate Displaces(env: Env, w: World, step: Step)
    requires w.close.Some?
  {
    match step
    case PutClose(copy, q) =>
      && Held(w, copy, Active) && copy.funding.Some? && IsFresh(w, q.id)
      && Propose(env.operator, copy.core, copy.funding.value, q, env.keyOf(q.who)).Some?
    case SignClose(copy, who, p) =>
      && Held(w, copy, RedemptionProposed) && p in w.closes && p.id != w.close.value.id
      && Countersign(env.operator, copy.core, who, env.keyOf(who), p).Some?
    case DropClose => true
    case _ => false
  }

  predicate BothSigned(w: World) {
    w.close.Some? && Signed(w.close.value)
  }

  lemma SigningSurvivesExactly(env: Env, w: World, copy: Row, who: User, p: Proposal)
    requires Frozen(env, w) && Lineage(w) && BothSigned(w)
    ensures Next(env, w, SignClose(copy, who, p)).close == w.close <==> !Displaces(env, w, SignClose(copy, who, p))
  {
    if Held(w, copy, RedemptionProposed) && p in w.closes
       && Countersign(env.operator, copy.core, who, env.keyOf(who), p).Some? {
      CountersigningCompletes(env, w, copy, who, p);
      assert w.close.value in w.closes;
      if p.id == w.close.value.id {
        assert SameProposal(w.row.core, p, w.close.value);
      }
    }
  }

  /** A close both parties have signed survives a step exactly when the step is not one of the three. */
  lemma SignedCloseSurvivesExactly(env: Env, w: World, step: Step)
    requires Frozen(env, w) && Lineage(w) && BothSigned(w)
    ensures Next(env, w, step).close == w.close <==> !Displaces(env, w, step)
  {
    if step.SignClose? {
      SigningSurvivesExactly(env, w, step.copy, step.who, step.proposal);
    } else if step.PutClose? {
      ProposingSurvivesExactly(env, w, step.copy, step.request);
    } else if OfWorker(step) {
      WorkersLeaveTheClose(env, w, step);
    }
  }

  lemma WorkersLeaveTheClose(env: Env, w: World, step: Step)
    requires OfWorker(step)
    ensures Next(env, w, step).close == w.close
  {
    WorkerStep(env, w, step);
  }

  lemma ProposingSurvivesExactly(env: Env, w: World, copy: Row, q: Request)
    requires BothSigned(w)
    ensures Next(env, w, PutClose(copy, q)).close == w.close <==> !Displaces(env, w, PutClose(copy, q))
  {
    if Displaces(env, w, PutClose(copy, q)) {
      ProposalsHaveOneSignature(env, w, copy, q);
    }
  }

  lemma ProposalsHaveOneSignature(env: Env, w: World, copy: Row, q: Request)
    requires w.close.Some? && Displaces(env, w, PutClose(copy, q))
    ensures Next(env, w, PutClose(copy, q)).close.Some? && !Signed(Next(env, w, PutClose(copy, q)).close.value)
  {
  }

  /** No step of a run displaces the stored close. */
  predicate Undisturbed(env: Env, w: World, steps: seq<Step>) {
    |steps| == 0
    || (var earlier := steps[..|steps| - 1];
        var now := Run(env, w, earlier);
        Undisturbed(env, w, earlier) && (now.close.Some? ==> !Displaces(env, now, steps[|steps| - 1])))
  }

  lemma {:induction false} UndisturbedCloseStays(env: Env, w: World, steps: seq<Step>, more: seq<Step>)
    requires Initial(env, w) && BothSigned(Run(env, w, steps)) && Undisturbed(env, Run(env, w, steps), more)
    ensures Run(env, Run(env, w, steps), more).close == Run(env, w, steps).close
  {
    if |more| > 0 {
      var earlier, step := more[..|more| - 1], more[|more| - 1];
      var signed := Run(env, w, steps);
      UndisturbedCloseStays(env, w, steps, earlier);
      RunsJoin(env, w, steps, earlier);
      RunKeepsLineage(env, w, steps + earlier);
      SignedCloseSurvivesExactly(env, Run(env, signed, earlier), step);
    }
  }

  lemma SubmitHandsOver(env: Env, w: World, i: nat)
    requires i < |w.workers| && w.workers[i].Working? && w.workers[i].copy.state == Redeeming && BothSigned(w)
    ensures w.close.value in Next(env, w, Submit(i)).submitted
  {
    WorkerStep(env, w, Submit(i));
  }

  /** A close both parties have signed gets to the operator unless it is displaced: in every run in which no step is
      one of the three, any worker that has the redeeming contract in hand submits that very close. */
  lemma SignedCloseIsSubmitted(env: Env, w: World, steps: seq<Step>, more: seq<Step>, i: nat)
    requires Initial(env, w) && BothSigned(Run(env, w, steps)) && Undisturbed(env, Run(env, w, steps), more)
    requires var later := Run(env, Run(env, w, steps), more);
             i < |later.workers| && later.workers[i].Working? && later.workers[i].copy.state == Redeeming
    ensures Run(env, w, steps).close.value in Next(env, Run(env, Run(env, w, steps), more), Submit(i)).submitted
  {
    UndisturbedCloseStays(env, w, steps, more);
    SubmitHandsOver(env, Run(env, Run(env, w, steps), more), i);
  }

  // --- How it is lost --------------------------------------------------------

  /** A contract that one worker has funded and activated. */
  lemma ActiveIsReached(env: Env, w: World, who: User, script: ByteString, pkScript: ByteString, price: Int64,
                        now: int, outpoint: Outpoint, answers: Side -> Option<ByteString>) returns (w': World)
    requires Initial(env, w) && w.workers == [Idle]
    requires Joined(env, w.row.core, who, script, pkScript, price).Some?
    requires Presigned(env, Joined(env, w.row.core, who, script, pkScript, price).value, outpoint, answers).Some?
    ensures Reaches(env, w, w') && w'.row in w'.past && w'.closes == {}
    ensures w'.row == Row(Active, Joined(env, w.row.core, who, script, pkScript, price).value, Some(outpoint), now)
  {
    var funding := FundingIsReached(env, w, who, script, pkScript, price, now);
    var funded := PicksAndFunds(env, w, funding, 0, outpoint);
    var saved := Saves(env, w, funded, 0, now);
    var signed := Signs(env, w, saved, 0, answers, false);
    w' := Activates(env, w, signed, 0, now);
  }

  lemma PutIsReached(env: Env, w: World, now: World, q: Request) returns (w': World)
    requires Reaches(env, w, now) && Held(now, now.row, Active) && now.row.funding.Some? && now.closes == {}
    requires Propose(env.operator, now.row.core, now.row.funding.value, q, env.keyOf(q.who)).Some?
    ensures Reaches(env, w, w')
    ensures var half := Propose(env.operator, now.row.core, now.row.funding.value, q, env.keyOf(q.who));
            w' == now.(close := half, closes := {half.value})
  {
    ReachesNext(env, w, now, PutClose(now.row, q));
    w' := Next(env, now, PutClose(now.row, q));
  }

  /** From an active contract, a proposal is stored and open. */
  lemma OpenIsReached(env: Env, w: World, now: World, q: Request, time: int) returns (w': World)
    requires Reaches(env, w, now) && now.row.state == Active && now.row in now.past && now.row.funding.Some?
    requires now.closes == {}
    requires Propose(env.operator, now.row.core, now.row.funding.value, q, env.keyOf(q.who)).Some?
    ensures var half := Propose(env.operator, now.row.core, now.row.funding.value, q, env.keyOf(q.who));
            && Reaches(env, w, w') && w'.row == now.row.(state := RedemptionProposed, updatedAt := time)
            && w'.past == now.past + {w'.row} && w'.close == half && w'.closes == {half.value}
  {
    var put := PutIsReached(env, w, now, q);
    ReachesNext(env, w, put, Handle(OfferClose, now.row, time));
    w' := Next(env, put, Handle(OfferClose, now.row, time));
  }

  /** From an open proposal, the other party's signature and the move to redeeming. */
  lemma SignedIsReached(env: Env, w: World, now: World, other: User, time: int) returns (w': World)
    requires Reaches(env, w, now) && now.row.state == RedemptionProposed && now.row in now.past
    requires now.close.Some? && now.close.value in now.closes
    requires var full := Countersign(env.operator, now.row.core, other, env.keyOf(other), now.close.value);
             full.Some? && Signed(full.value)
    ensures var full := Countersign(env.operator, now.row.core, other, env.keyOf(other), now.close.value);
            && Reaches(env, w, w') && w'.row.state == Redeeming && w'.close == full && now.past <= w'.past
            && w'.closes == now.closes + {full.value}
  {
    ReachesNext(env, w, now, SignClose(now.row, other, now.close.value));
    var signed := Next(env, now, SignClose(now.row, other, now.close.value));
    ReachesNext(env, w, signed, BeginClose(now.row, signed.close.value, time));
    w' := Next(env, signed, BeginClose(now.row, signed.close.value, time));
  }

  /** So an active contract can be redeeming with both signatures stored. */
  lemma RedeemingIsReached(env: Env, w: World, now: World, q: Request, other: User, time: int) returns (w': World)
    requires Reaches(env, w, now) && now.row.state == Active && now.row in now.past && now.row.funding.Some?
    requires now.closes == {} && KeysAreTheirs(now.row.core, env.keyOf) && now.row.core.terms.payout >= 0
    requires Propose(env.operator, now.row.core, now.row.funding.value, q, env.keyOf(q.who)).Some?
    requires SideOf(now.row.core, other).Some? && SideOf(now.row.core, other) != SideOf(now.row.core, q.who)
    ensures Reaches(env, w, w') && w'.row.state == Redeeming && BothSigned(w') && now.row in w'.past
    ensures forall p :: p in w'.closes ==> p.id == q.id
  {
    ProposalsCanBeCountersigned(env.operator, now.row.core, now.row.funding.value, q, other, env.keyOf);
    var open := OpenIsReached(env, w, now, q, time);
    w' := SignedIsReached(env, w, open, other, time);
  }

  /** A reachable loss. Both parties have signed, the contract is redeeming, and a request that read it while it was
      still active stores a proposal of its own: one signature where there were two, and nothing any worker can
      submit. */
  lemma LateProposalDisplacesTheSigned(env: Env, w: World, who: User, script: ByteString, pkScript: ByteString,
                                       price: Int64, time: int, outpoint: Outpoint,
                                       answers: Side -> Option<ByteString>, q: Request, other: User, late: Request)
    requires Initial(env, w) && w.workers == [Idle]
    requires Joined(env, w.row.core, who, script, pkScript, price).Some?
    requires var core := Joined(env, w.row.core, who, script, pkScript, price).value;
             && Presigned(env, core, outpoint, answers).Some?
             && Propose(env.operator, core, outpoint, q, env.keyOf(q.who)).Some?
             && Propose(env.operator, core, outpoint, late, env.keyOf(late.who)).Some? && late.id != q.id
             && SideOf(core, other).Some? && SideOf(core, other) != SideOf(core, q.who)
    ensures exists before, copy ::
              && Reaches(env, w, before) && before.row.state == Redeeming && BothSigned(before)
              && copy in before.past && Displaced(env, before, PutClose(copy, late))
  {
    JoiningAgrees(env, w.row.core, who, script, pkScript, price);
    var active := ActiveIsReached(env, w, who, script, pkScript, price, time, outpoint, answers);
    var before := RedeemingIsReached(env, w, active, q, other, time);
    assert IsFresh(before, late.id);
    assert Displaces(env, before, PutClose(active.row, late));
    ProposalsHaveOneSignature(env, before, active.row, late);
    assert Displaced(env, before, PutClose(active.row, late));
  }

  /** The step leaves the row where it was and nothing that can be submitted. */
  predicate Displaced(env: Env, w: World, step: Step) {
    Next(env, w, step).row == w.row && !BothSigned(Next(env, w, step))
  }
}
