/**
 The worker (service/internal/app/worker.go) and the slow halves it runs (funding.go, settlement.go, exit.go),
 as they work on the store: objects read, mutated and written back, with what the outside world answers given as
 outcomes.
 */
module Worker {
  import opened Prelude
  import opened Bytes
  import opened Arbitrations
  import opened ContractStore
  import opened Redemptions
  import opened Lifecycle
  import opened LiveContracts
  import ArbitrationStore

  /** What the operator, the signers, the chain and the stores answer to one attempt at one contract, faults included.
      Settling writes nothing before its last step, so all of it comes to one answer. */
  datatype Outcome = Outcome(
    fund: Option<Outpoint>,
    answers: Side -> Option<ByteString>,
    settled: bool,
    landed: Option<(Outpoint, Int64)>,
    paid: Option<ByteString>,
    readFails: bool, save: Fault, submit: Fault, drop: Fault, put: Fault, advance: Fault)

  /** A contract with what the other tables hold beside it, and what the operator was handed for it. */
  datatype Case = Case(
    row: Row, exit: Option<ExitPackage>, close: Option<Proposal>, submitted: set<Proposal>,
    pending: Option<ArbitrationStore.Pending>)

  // --- What one attempt comes to ---------------------------------------------

  /** The transition at the end of an attempt, which may be lost and may be reported lost. */
  function Ended(c: Case, to: State, now: int, fault: Fault): Case {
    if Takes(fault) then c.(row := c.row.(state := to, updatedAt := now)) else c
  }

  /** The row once the funding has come back and been saved, as far as it was. */
  function Recorded(c: Case, now: int, o: Outcome): Case {
    if c.row.funding.Some? || o.fund.None? || !Takes(o.save) then c
    else c.(row := c.row.(funding := o.fund, updatedAt := now))
  }

  /** Whether finishFunding gets past its first half. */
  predicate Records(c: Case, o: Outcome) {
    c.row.funding.Some? || (o.fund.Some? && o.save.Nowhere?)
  }

  /** finishFunding: fund unless it is recorded, record, have the exit signed unless it is, move on; stopping at the
      first thing that is reported to have failed. */
  function FundingDone(env: Env, c: Case, now: int, o: Outcome): Case {
    var recorded := Recorded(c, now, o);
    if !Records(c, o) then recorded
    else if c.exit.Some? && !o.readFails then Ended(recorded, Active, now, o.advance)
    else
      match SignedExit(env, c.exit, recorded.row, o.answers, o.readFails)
      case None => recorded
      case Some(pkg) =>
        var kept := if Takes(o.put) then recorded.(exit := Some(pkg)) else recorded;
        if o.put.Nowhere? then Ended(kept, Active, now, o.advance) else kept
  }

  /** finishRedeeming: hand the signed close over, drop it, move on. */
  function RedeemingDone(c: Case, now: int, o: Outcome): Case {
    if o.readFails || c.close.None? || !Signed(c.close.value) then c
    else
      var sent := if Takes(o.submit) then c.(submitted := c.submitted + {c.close.value}) else c;
      var dropped := if o.submit.Nowhere? && Takes(o.drop) then sent.(close := None) else sent;
      if o.submit.Nowhere? && o.drop.Nowhere? then Ended(dropped, Redeemed, now, o.advance) else dropped
  }

  /** finishExiting: broadcast unless it is recorded, record where it landed, move on. */
  function ExitingDone(c: Case, now: int, o: Outcome): Case {
    if o.readFails || c.exit.None? || (c.exit.value.swept.None? && o.landed.None?) then c
    else if c.exit.value.swept.Some? then Ended(c, Exited, now, o.advance)
    else
      var kept := if Takes(o.put) then c.(exit := Some(c.exit.value.(swept := o.landed))) else c;
      if o.put.Nowhere? then Ended(kept, Exited, now, o.advance) else kept
  }

  /** finishArbitrating: nothing while a signature is missing; then broadcast, record the transaction, move on. */
  function ArbitratingDone(c: Case, now: int, o: Outcome): Case {
    if o.readFails || c.pending.None? || |c.pending.value.signatures| < 2 || o.paid.None? then c
    else
      var kept := if Takes(o.put) then c.(pending := Some(c.pending.value.(txid := o.paid.value))) else c;
      if o.put.Nowhere? then Ended(kept, Arbitrated, now, o.advance) else kept
  }

  function AttemptDone(env: Env, c: Case, now: int, o: Outcome): Case {
    match c.row.state
    case Funding => FundingDone(env, c, now, o)
    case Settling => if o.settled then Ended(c, Settled, now, o.advance) else c
    case Redeeming => RedeemingDone(c, now, o)
    case Exiting => ExitingDone(c, now, o)
    case Arbitrating => ArbitratingDone(c, now, o)
    case _ => c
  }

  /** One tick of one contract that nobody else is at meanwhile. */
  function Ticked(env: Env, c: Case, now: int, giveUpAfter: int, o: Outcome): Case {
    if !Transient(c.row.state) then c
    else if now - c.row.updatedAt > giveUpAfter then Ended(c, GiveUpTo(c.row.state).value, now, o.advance)
    else AttemptDone(env, c, now, o)
  }

  // --- The worker itself -----------------------------------------------------

  function Lookup<T>(m: map<Id, T>, id: Id): Option<T> {
    if id in m then Some(m[id]) else None
  }

  class App {
    const env: Env
    const repo: ContractRepo
    var exits: map<Id, ExitPackage>
    var closes: map<Id, Proposal>
    var pendings: map<Id, ArbitrationStore.Pending>
    var submitted: map<Id, set<Proposal>>

    constructor (env: Env, repo: ContractRepo)
      ensures this.env == env && this.repo == repo
      ensures exits == map[] && closes == map[] && pendings == map[] && submitted == map[]
    {
      this.env, this.repo := env, repo;
      exits, closes, pendings, submitted := map[], map[], map[], map[];
    }

    function SubmittedOf(id: Id): set<Proposal>
      reads this
    {
      if id in submitted then submitted[id] else {}
    }

    function CaseOf(id: Id): Case
      requires id in repo.rows
      reads this, repo
    {
      Case(repo.rows[id], Lookup(exits, id), Lookup(closes, id), SubmittedOf(id), Lookup(pendings, id))
    }

    /** Nothing but one contract's rows are different. */
    twostate predicate OnlyTouches(id: Id)
      reads this, repo
    {
      && (forall k :: k in old(repo.rows) <==> k in repo.rows)
      && (forall k :: k in repo.rows && k != id ==> CaseOf(k) == old(CaseOf(k)))
    }

    /** ExitRepo.Put, one statement. */
    method PutExit(id: Id, pkg: ExitPackage, fault: Fault) returns (ok: bool)
      modifies this`exits
      ensures ok <==> fault.Nowhere?
      ensures Lookup(exits, id) == if Takes(fault) then Lifecycle.PutExit(old(Lookup(exits, id)), pkg)
                                   else old(Lookup(exits, id))
      ensures forall k :: k != id ==> Lookup(exits, k) == old(Lookup(exits, k))
    {
      if Takes(fault) {
        if id in exits {
          exits := exits[id := exits[id].(swept := pkg.swept)];
        } else {
          exits := exits[id := pkg];
        }
      }
      return fault.Nowhere?;
    }

    /** ArbitrationRepo.Put, one statement. */
    method PutPending(id: Id, p: ArbitrationStore.Pending, fault: Fault) returns (ok: bool)
      modifies this`pendings
      ensures ok <==> fault.Nowhere?
      ensures Lookup(pendings, id) == if Takes(fault) then ArbitrationStore.Put(old(Lookup(pendings, id)), p)
                                      else old(Lookup(pendings, id))
      ensures forall k :: k != id ==> Lookup(pendings, k) == old(Lookup(pendings, k))
    {
      if Takes(fault) {
        if id in pendings {
          pendings := pendings[id := pendings[id].(signatures := p.signatures, txid := p.txid)];
        } else {
          pendings := pendings[id := p];
        }
      }
      return fault.Nowhere?;
    }

    /** The last write of an attempt, whose copy is the row but for the time of a save. */
    method End(c: Contract, to: State, now: int, fault: Fault)
      requires c.id in repo.rows && c.Copy() == repo.rows[c.id].(updatedAt := c.updatedAt) && CanGoTo(c.state, to)
      modifies repo, c`state
      ensures repo.rows == if !Takes(fault) then old(repo.rows)
                           else old(repo.rows)[c.id := old(repo.rows[c.id]).(state := to, updatedAt := now)]
    {
      var _ := repo.Advance(c, to, now, fault);
    }

    /** The first half of finishFunding: the collateral is asked for once, and recorded before anything else. */
    method RecordFunding(c: Contract, now: int, o: Outcome) returns (ok: bool)
      requires c.id in repo.rows && c.Copy() == repo.rows[c.id] && c.state == Funding
      modifies repo, c
      ensures ok <==> Records(old(CaseOf(c.id)), o)
      ensures repo.rows == old(repo.rows)[c.id := Recorded(old(CaseOf(c.id)), now, o).row]
      ensures ok ==> c.Copy() == repo.rows[c.id].(updatedAt := c.updatedAt) && c.state == Funding && c.funding.Some?
    {
      if c.funding.Some? {
        return true;
      }
      if o.fund.None? {
        return false;
      }
      c.funding := o.fund;
      var err := repo.Save(c, now, o.save);
      return err.None?;
    }

    /** presignExit: nothing to do when a package is read back, otherwise one is signed and stored. */
    method PresignExit(c: Contract, o: Outcome) returns (ok: bool)
      requires c.funding.Some?
      modifies this`exits
      ensures forall k :: k != c.id ==> Lookup(exits, k) == old(Lookup(exits, k))
      ensures var was := old(Lookup(exits, c.id));
              var signed := SignedExit(env, was, c.Copy(), o.answers, o.readFails);
              if was.Some? && !o.readFails then ok && Lookup(exits, c.id) == was
              else && (ok <==> signed.Some? && o.put.Nowhere?)
                   && Lookup(exits, c.id) == (if signed.Some? && Takes(o.put) then signed else was)
    {
      if c.id in exits && !o.readFails {
        return true;
      }
      var pkg := Lifecycle.PresignExit(env, c.core, c.funding.value, o.answers);
      if pkg.None? {
        return false;
      }
      ok := PutExit(c.id, pkg.value, o.put);
    }

    /** finishFunding. */
    method FinishFunding(c: Contract, now: int, o: Outcome)
      requires c.id in repo.rows && c.Copy() == repo.rows[c.id] && c.state == Funding
      modifies this`exits, repo, c
      ensures OnlyTouches(c.id)
      ensures CaseOf(c.id) == FundingDone(env, old(CaseOf(c.id)), now, o)
    {
      var recorded := RecordFunding(c, now, o);
      if !recorded {
        return;
      }
      assert CaseOf(c.id) == Recorded(old(CaseOf(c.id)), now, o);
      var ok := PresignExit(c, o);
      if ok {
        End(c, Active, now, o.advance);
      }
    }

    /** finishRedeeming. */
    method FinishRedeeming(c: Contract, now: int, o: Outcome)
      requires c.id in repo.rows && c.Copy() == repo.rows[c.id] && c.state == Redeeming
      modifies this`closes, this`submitted, repo, c
      ensures OnlyTouches(c.id)
      ensures CaseOf(c.id) == RedeemingDone(old(CaseOf(c.id)), now, o)
    {
      if o.readFails || c.id !in closes || !Signed(closes[c.id]) {
        return;
      }
      if Takes(o.submit) {
        submitted := submitted[c.id := SubmittedOf(c.id) + {closes[c.id]}];
      }
      if !o.submit.Nowhere? {
        return;
      }
      if Takes(o.drop) {
        closes := closes - {c.id};
      }
      if o.drop.Nowhere? {
        End(c, Redeemed, now, o.advance);
      }
    }

    /** finishExiting. */
    method FinishExiting(c: Contract, now: int, o: Outcome)
      requires c.id in repo.rows && c.Copy() == repo.rows[c.id] && c.state == Exiting
      modifies this`exits, repo, c
      ensures OnlyTouches(c.id)
      ensures CaseOf(c.id) == ExitingDone(old(CaseOf(c.id)), now, o)
    {
      if o.readFails || c.id !in exits {
        return;
      }
      var pkg := exits[c.id];
      if pkg.swept.None? {
        if o.landed.None? {
          return;
        }
        pkg := pkg.(swept := o.landed);
        var ok := PutExit(c.id, pkg, o.put);
        if !ok {
          return;
        }
      }
      End(c, Exited, now, o.advance);
    }

    /** finishArbitrating. */
    method FinishArbitrating(c: Contract, now: int, o: Outcome)
      requires c.id in repo.rows && c.Copy() == repo.rows[c.id] && c.state == State.Arbitrating
      modifies this`pendings, repo, c
      ensures OnlyTouches(c.id)
      ensures CaseOf(c.id) == ArbitratingDone(old(CaseOf(c.id)), now, o)
    {
      if o.readFails || c.id !in pendings || |pendings[c.id].signatures| < 2 || o.paid.None? {
        return;
      }
      var ok := PutPending(c.id, pendings[c.id].(txid := o.paid.value), o.put);
      if ok {
        End(c, Arbitrated, now, o.advance);
      }
    }

    /** Worker.advance, giveUp included. */
    method AdvanceOne(c: Contract, now: int, giveUpAfter: int, o: Outcome)
      requires c.id in repo.rows && c.Copy() == repo.rows[c.id]
      modifies this, repo, c
      ensures OnlyTouches(c.id)
      ensures CaseOf(c.id) == Ticked(env, old(CaseOf(c.id)), now, giveUpAfter, o)
    {
      if !Transient(c.state) {
      } else if now - c.updatedAt > giveUpAfter {
        End(c, GiveUpTo(c.state).value, now, o.advance);
      } else if c.state == Funding {
        FinishFunding(c, now, o);
      } else if c.state == Redeeming {
        FinishRedeeming(c, now, o);
      } else if c.state == Exiting {
        FinishExiting(c, now, o);
      } else if c.state == State.Arbitrating {
        FinishArbitrating(c, now, o);
      } else if o.settled {
        End(c, Settled, now, o.advance);
      }
    }

    /** InState over every transient state: which contracts have work outstanding. */
    method Outstanding() returns (ids: seq<Id>)
      ensures forall i, j :: 0 <= i < j < |ids| ==> ids[i] != ids[j]
      ensures forall id :: id in ids <==> id in repo.rows && Transient(repo.rows[id].state)
    {
      ids := [];
      var left := repo.rows.Keys;
      while left != {}
        invariant left <= repo.rows.Keys
        invariant forall i, j :: 0 <= i < j < |ids| ==> ids[i] != ids[j]
        invariant forall id :: id in ids <==> id in repo.rows && id !in left && Transient(repo.rows[id].state)
      {
        var id :| id in left;
        left := left - {id};
        if Transient(repo.rows[id].state) {
          ids := ids + [id];
        }
      }
    }

    /** Worker.Tick, with nobody else at the contracts meanwhile: every contract comes to what one attempt at it
        comes to, whatever fails on the way. */
    method Tick(now: int, giveUpAfter: int, listFails: bool, outcomes: Id -> Outcome)
      modifies this, repo
      ensures repo.rows.Keys == old(repo.rows.Keys)
      ensures forall id :: id in repo.rows ==>
                CaseOf(id) == if listFails then old(CaseOf(id))
                              else Ticked(env, old(CaseOf(id)), now, giveUpAfter, outcomes(id))
    {
      if listFails {
        return;
      }
      var ids := Outstanding();
      for i := 0 to |ids|
        invariant repo.rows.Keys == old(repo.rows.Keys)
        invariant forall id :: id in repo.rows && id in ids[..i] ==>
                    CaseOf(id) == Ticked(env, old(CaseOf(id)), now, giveUpAfter, outcomes(id))
        invariant forall id :: id in repo.rows && id !in ids[..i] ==> CaseOf(id) == old(CaseOf(id))
      {
        var id := ids[i];
        var c := new Contract(id, repo.rows[id]);
        AdvanceOne(c, now, giveUpAfter, outcomes(id));
        assert ids[..i + 1] == ids[..i] + [id];
      }
      assert ids[..|ids|] == ids;
    }
  }

  // --- One attempt is a run of the protocol ----------------------------------

  predicate Holds(w: World, c: Case) {
    w.row == c.row && w.exit == c.exit && w.close == c.close && w.submitted == c.submitted
  }

  /** The world is about this contract, with its worker free. */
  predicate About(w: World, c: Case) {
    Holds(w, c) && |w.workers| == 1 && w.workers[0].Idle?
  }

  lemma PicksUp(env: Env, w: World) returns (w': World)
    requires |w.workers| == 1 && w.workers[0].Idle? && Transient(w.row.state)
    ensures Reaches(env, w, w') && w' == WithWorker(w, 0, Working(w.row))
  {
    ReachesItself(env, w);
    ReachesWork(env, w, w, 0, Pick(0));
    w' := WorkerNext(env, w, 0, Pick(0));
  }

  /** A worker that holds the row as it stands ends its step, done or given up, or fails to. */
  lemma EndsStep(env: Env, w: World, now: World, c: Case, step: Step, fault: Fault) returns (w': World)
    requires Reaches(env, w, now) && Holds(now, c) && Transient(now.row.state)
    requires |now.workers| == 1 && !now.workers[0].Idle? && now.workers[0].copy == now.row
    requires (step.GiveUp? && now.workers[0].Working?) || (step.Finish? && CanFinish(now.workers[0]))
    requires step.i == 0
    ensures var to := if step.GiveUp? then GiveUpTo(now.row.state) else DoneTo(now.row.state);
            Reaches(env, w, w') && Holds(w', Ended(c, to.value, step.now, fault))
  {
    if Takes(fault) {
      ReachesWork(env, w, now, 0, step);
      w' := WorkerNext(env, now, 0, step);
    } else {
      w' := now;
    }
  }

  /** Picked up and ended, with nothing else in between. */
  lemma EndsAtOnce(env: Env, w: World, c: Case, step: Step, fault: Fault) returns (w': World)
    requires About(w, c) && Transient(c.row.state)
    requires step.GiveUp? || (step.Finish? && CanFinish(Working(c.row)))
    requires step.i == 0
    ensures var to := if step.GiveUp? then GiveUpTo(c.row.state) else DoneTo(c.row.state);
            Reaches(env, w, w') && Holds(w', Ended(c, to.value, step.now, fault))
  {
    var picked := PicksUp(env, w);
    w' := EndsStep(env, w, picked, c, step, fault);
  }

  /** The first half of finishFunding: the row picked up, and funded and saved unless it says it is. */
  lemma RecordingIsARun(env: Env, w: World, c: Case, now: int, o: Outcome) returns (w': World)
    requires About(w, c) && c.row.state == Funding
    ensures Reaches(env, w, w') && Holds(w', Recorded(c, now, o))
    ensures Records(c, o) ==>
              && w'.row.funding.Some? && |w'.workers| == 1 && w'.workers[0].Working?
              && w'.workers[0].copy.(updatedAt := w'.row.updatedAt) == w'.row
  {
    if c.row.funding.Some? {
      w' := PicksUp(env, w);
    } else if o.fund.Some? && Takes(o.save) {
      ReachesItself(env, w);
      var funded := PicksAndFunds(env, w, w, 0, o.fund.value);
      w' := Saves(env, w, funded, 0, now);
    } else {
      ReachesItself(env, w);
      w' := w;
    }
  }

  /** The second half: the exit signed and stored unless it is, and the contract activated. */
  lemma SigningIsARun(env: Env, w: World, c: Case, now: World, time: int, o: Outcome) returns (w': World)
    requires Reaches(env, w, now) && Holds(now, Recorded(c, time, o)) && now.exit == c.exit
    requires c.row.state == Funding && Records(c, o)
    requires now.row.funding.Some? && |now.workers| == 1 && now.workers[0].Working?
    requires now.workers[0].copy.(updatedAt := now.row.updatedAt) == now.row
    ensures Reaches(env, w, w') && Holds(w', FundingDone(env, c, time, o))
  {
    w' := now;
    var exit := SignedExit(env, c.exit, now.row, o.answers, o.readFails);
    var looked := c.exit.Some? && !o.readFails;
    if looked || (exit.Some? && Takes(o.put)) {
      w' := Signs(env, w, now, 0, o.answers, o.readFails);
      if (looked || o.put.Nowhere?) && Takes(o.advance) {
        w' := Activates(env, w, w', 0, time);
      }
    }
  }

  lemma FundingIsARun(env: Env, w: World, c: Case, now: int, o: Outcome) returns (w': World)
    requires About(w, c) && c.row.state == Funding
    ensures Reaches(env, w, w') && Holds(w', FundingDone(env, c, now, o))
  {
    w' := RecordingIsARun(env, w, c, now, o);
    if Records(c, o) {
      w' := SigningIsARun(env, w, c, w', now, o);
    }
  }

  lemma Submits(env: Env, w: World, held: World) returns (w': World)
    requires Reaches(env, w, held) && held.workers == [Working(held.row)] && held.row.state == Redeeming
    requires held.close.Some? && Signed(held.close.value)
    ensures Reaches(env, w, w') && w' == held.(submitted := held.submitted + {held.close.value})
  {
    ReachesWork(env, w, held, 0, Submit(0));
    w' := WorkerNext(env, held, 0, Submit(0));
  }

  /** Handed over as far as the operator took it, and dropped as far as the store did. */
  lemma RedeemingIsARun(env: Env, w: World, c: Case, now: int, o: Outcome) returns (w': World)
    requires About(w, c) && c.row.state == Redeeming
    ensures Reaches(env, w, w') && Holds(w', RedeemingDone(c, now, o))
  {
    var held := PicksUp(env, w);
    w' := held;
    if o.readFails || c.close.None? || !Signed(c.close.value) || !Takes(o.submit) {
      return;
    }
    var sent := Submits(env, w, held);
    w' := sent;
    if !o.submit.Nowhere? || !Takes(o.drop) {
      return;
    }
    ReachesNext(env, w, sent, DropClose);
    w' := Next(env, sent, DropClose);
    if o.drop.Nowhere? {
      w' := EndsStep(env, w, w', c.(close := None, submitted := w'.submitted), Finish(0, now), o.advance);
    }
  }

  lemma Lands(env: Env, w: World, now: World, outpoint: Outpoint, sats: Int64) returns (w': World)
    requires Reaches(env, w, now) && now.workers == [Leaving(now.row)] && now.exit.Some?
    ensures Reaches(env, w, w')
    ensures w' == now.(exit := Some(now.exit.value.(swept := Some((outpoint, sats)))), workers := [Ready(now.row)])
  {
    ReachesWork(env, w, now, 0, Land(0, outpoint, sats));
    w' := WorkerNext(env, now, 0, Land(0, outpoint, sats));
  }

  lemma ExitingIsARun(env: Env, w: World, c: Case, now: int, o: Outcome) returns (w': World)
    requires About(w, c) && c.row.state == Exiting
    ensures Reaches(env, w, w') && Holds(w', ExitingDone(c, now, o))
  {
    w' := PicksUp(env, w);
    if o.readFails || c.exit.None? || (c.exit.value.swept.None? && o.landed.None?) {
      return;
    }
    ReachesWork(env, w, w', 0, Broadcast(0));
    w' := WorkerNext(env, w', 0, Broadcast(0));
    var kept := c;
    if c.exit.value.swept.None? {
      if Takes(o.put) {
        w' := Lands(env, w, w', o.landed.value.0, o.landed.value.1);
        kept := c.(exit := w'.exit);
      }
      if !o.put.Nowhere? {
        return;
      }
    }
    w' := EndsStep(env, w, w', kept, Finish(0, now), o.advance);
  }

  lemma ArbitratingIsARun(env: Env, w: World, c: Case, now: int, o: Outcome) returns (w': World)
    requires About(w, c) && c.row.state == State.Arbitrating
    ensures Reaches(env, w, w') && Holds(w', ArbitratingDone(c, now, o))
  {
    ReachesItself(env, w);
    w' := w;
    if ArbitratingDone(c, now, o).row != c.row {
      w' := EndsAtOnce(env, w, c, Finish(0, now), o.advance);
    }
  }

  /** Whatever a tick does to a contract is a run of the protocol, whatever fails on the way and whether or not what
      failed had taken, so everything proved of the protocol's runs holds of it. */
  lemma TickIsARun(env: Env, w: World, c: Case, now: int, giveUpAfter: int, o: Outcome) returns (w': World)
    requires About(w, c)
    ensures Reaches(env, w, w') && Holds(w', Ticked(env, c, now, giveUpAfter, o))
  {
    ReachesItself(env, w);
    w' := w;
    if Transient(c.row.state) {
      if now - c.row.updatedAt > giveUpAfter {
        w' := EndsAtOnce(env, w, c, GiveUp(0, now), o.advance);
      } else if c.row.state == Funding {
        w' := FundingIsARun(env, w, c, now, o);
      } else if c.row.state == Redeeming {
        w' := RedeemingIsARun(env, w, c, now, o);
      } else if c.row.state == Exiting {
        w' := ExitingIsARun(env, w, c, now, o);
      } else if c.row.state == State.Arbitrating {
        w' := ArbitratingIsARun(env, w, c, now, o);
      } else if o.settled {
        w' := EndsAtOnce(env, w, c, Finish(0, now), o.advance);
      }
    }
  }

  // --- How long a step may last ----------------------------------------------

  /** Ticks at the given times, with whatever the outside world answers at each. */
  function TickedAt(env: Env, c: Case, times: seq<int>, giveUpAfter: int, outcomes: seq<Outcome>): Case
    requires |outcomes| == |times|
  {
    if |times| == 0 then c
    else
      var n := |times| - 1;
      Ticked(env, TickedAt(env, c, times[..n], giveUpAfter, outcomes[..n]), times[n], giveUpAfter, outcomes[n])
  }

  /** A tick moves a contract along the table or not at all, and moves one past its time unless the store refuses. */
  lemma TicksFollowTheTable(env: Env, c: Case, now: int, giveUpAfter: int, o: Outcome)
    ensures var next := Ticked(env, c, now, giveUpAfter, o);
            && (next.row.state != c.row.state ==> CanGoTo(c.row.state, next.row.state))
            && (Transient(c.row.state) && now - c.row.updatedAt > giveUpAfter ==>
                  (next.row.state != c.row.state <==> Takes(o.advance)))
  {
  }

  /** Giving up. A tick past its time leaves the contract where its step was begun from, or written off if it was never
      funded, and changes nothing else: no step that was not done is recorded as done. */
  lemma LateTicksGiveBack(env: Env, c: Case, now: int, giveUpAfter: int, o: Outcome)
    requires Transient(c.row.state) && now - c.row.updatedAt > giveUpAfter
    ensures var next := Ticked(env, c, now, giveUpAfter, o);
            && next == c.(row := next.row)
            && (!Takes(o.advance) ==> next == c)
            && (Takes(o.advance) ==>
                  next.row == c.row.(updatedAt := now,
                                     state := if c.row.state.Funding? then Failed
                                              else if c.row.state == State.Arbitrating then Exited else Active))
  {
  }

  /** A settlement is recorded exactly when it was made. */
  lemma SettlesExactly(env: Env, c: Case, now: int, giveUpAfter: int, o: Outcome)
    requires c.row.state.Settling? && now - c.row.updatedAt <= giveUpAfter
    ensures var next := Ticked(env, c, now, giveUpAfter, o);
            next == if o.settled && Takes(o.advance) then c.(row := c.row.(state := Settled, updatedAt := now)) else c
  {
  }

  /** An early close: the one that is stored, signed by both, is handed over; only once it was is it dropped, and only
      then is the contract redeemed. */
  lemma RedeemsExactly(env: Env, c: Case, now: int, giveUpAfter: int, o: Outcome)
    requires c.row.state.Redeeming? && now - c.row.updatedAt <= giveUpAfter
    ensures var next := Ticked(env, c, now, giveUpAfter, o);
            var ready := !o.readFails && c.close.Some? && Signed(c.close.value);
            var sent := ready && o.submit.Nowhere?;
            && next == c.(row := next.row, close := next.close, submitted := next.submitted)
            && next.submitted == c.submitted + (if ready && Takes(o.submit) then {c.close.value} else {})
            && (next.close != c.close <==> sent && Takes(o.drop)) && (next.close != c.close ==> next.close.None?)
            && (next.row.state.Redeemed? <==> sent && o.drop.Nowhere? && Takes(o.advance))
            && next.row == if next.row.state.Redeemed? then c.row.(state := Redeemed, updatedAt := now) else c.row
  {
  }

  /** An exit: it is recorded as left exactly when there is a package and it has landed, and the landing that is on
      record is the one there was or the one there is now. */
  lemma LeavesExactly(env: Env, c: Case, now: int, giveUpAfter: int, o: Outcome)
    requires c.row.state.Exiting? && now - c.row.updatedAt <= giveUpAfter
    ensures var next := Ticked(env, c, now, giveUpAfter, o);
            var read := !o.readFails && c.exit.Some?;
            var lands := read && c.exit.value.swept.None? && o.landed.Some?;
            && next == c.(row := next.row, exit := next.exit)
            && next.exit == (if lands && Takes(o.put) then Some(c.exit.value.(swept := o.landed)) else c.exit)
            && (next.row.state.Exited? <==>
                  read && (c.exit.value.swept.Some? || (lands && o.put.Nowhere?)) && Takes(o.advance))
            && next.row == if next.row.state.Exited? then c.row.(state := Exited, updatedAt := now) else c.row
  {
  }

  /** An arbitration: it is paid when two have signed, and recorded as paid exactly when it was, by the transaction that
      paid it. */
  lemma PaysExactly(env: Env, c: Case, now: int, giveUpAfter: int, o: Outcome)
    requires c.row.state == State.Arbitrating && now - c.row.updatedAt <= giveUpAfter
    ensures var next := Ticked(env, c, now, giveUpAfter, o);
            var paid := !o.readFails && c.pending.Some? && |c.pending.value.signatures| >= 2 && o.paid.Some?;
            && next == c.(row := next.row, pending := next.pending)
            && next.pending == (if paid && Takes(o.put) then Some(c.pending.value.(txid := o.paid.value))
                                else c.pending)
            && (next.row.state.Arbitrated? <==> paid && o.put.Nowhere? && Takes(o.advance))
            && next.row == if next.row.state.Arbitrated? then c.row.(state := Arbitrated, updatedAt := now) else c.row
  {
  }

  /** A funding: the outpoint on record is the one there was, or the operator's if there was none. The contract is
      active exactly when that is on record and the exit is there, or is signed and stored; and an exit that was not
      there before is a complete one of that outpoint. */
  lemma FundsExactly(env: Env, c: Case, now: int, giveUpAfter: int, o: Outcome)
    requires c.row.state.Funding? && now - c.row.updatedAt <= giveUpAfter
    ensures var next := Ticked(env, c, now, giveUpAfter, o);
            var known := c.row.funding.Some? || (o.fund.Some? && o.save.Nowhere?);
            var seen := c.exit.Some? && !o.readFails;
            && next == c.(row := next.row, exit := next.exit) && next.row.core == c.row.core
            && (next.row != c.row ==> next.row.updatedAt == now)
            && next.row.funding == (if c.row.funding.None? && o.fund.Some? && Takes(o.save) then o.fund
                                    else c.row.funding)
            && (next.row.state.Active? <==>
                  known && Takes(o.advance)
                  && (seen || (o.put.Nowhere?
                               && Presigned(env, c.row.core, next.row.funding.value, o.answers).Some?)))
            && (!next.row.state.Active? ==> next.row.state.Funding?)
            && (c.exit.Some? ==> next.exit.Some? && next.exit.value == c.exit.value.(swept := next.exit.value.swept))
            && (seen ==> next.exit == c.exit)
            && (c.exit.None? && next.exit.Some? ==>
                  next.row.funding.Some? && Covers(env, next.row.core, next.row.funding.value, next.exit.value))
            && (next.row.state.Active? ==> next.row.funding.Some? && next.exit.Some?)
  {
    if c.row.funding.Some? || o.fund.Some? {
      PresignsExactly(env, c.row.core, if c.row.funding.Some? then c.row.funding.value else o.fund.value, o.answers);
    }
  }

  /** While a contract is still where it was, its clock is the one it started with, or, if it was funding, the one
      its funding was recorded at. */
  lemma {:induction false} ClockWhileStuck(env: Env, c: Case, times: seq<int>, giveUpAfter: int, outcomes: seq<Outcome>)
    requires |outcomes| == |times| && Transient(c.row.state) && giveUpAfter >= 0
    requires TickedAt(env, c, times, giveUpAfter, outcomes).row.state == c.row.state
    ensures var next := TickedAt(env, c, times, giveUpAfter, outcomes).row;
            next.updatedAt == c.row.updatedAt
            || (c.row.state == Funding && c.row.funding.None? && next.funding.Some?
                && next.updatedAt <= c.row.updatedAt + giveUpAfter)
    ensures c.row.funding.Some? ==> TickedAt(env, c, times, giveUpAfter, outcomes).row.funding.Some?
  {
    if |times| > 0 {
      var n := |times| - 1;
      var before := TickedAt(env, c, times[..n], giveUpAfter, outcomes[..n]);
      StuckFromTheStart(env, before, c.row.state, times[n], giveUpAfter, outcomes[n]);
      ClockWhileStuck(env, c, times[..n], giveUpAfter, outcomes[..n]);
    }
  }

  /** No tick leads into a transient state from another. */
  lemma StuckFromTheStart(env: Env, c: Case, s: State, now: int, giveUpAfter: int, o: Outcome)
    requires Transient(s) && Ticked(env, c, now, giveUpAfter, o).row.state == s
    ensures c.row.state == s
  {
  }

  /** Bounded stay, with nobody else at the contract. No tick later than one give-up time after a step began leaves
      the contract in it, or than two when it is a funding that was recorded in the meantime; whatever failed
      before, as long as that tick's own write takes. */
  lemma StepsEnd(env: Env, c: Case, times: seq<int>, giveUpAfter: int, outcomes: seq<Outcome>)
    requires |outcomes| == |times| > 0 && Transient(c.row.state) && giveUpAfter >= 0
    requires Takes(outcomes[|times| - 1].advance)
    requires TickedAt(env, c, times, giveUpAfter, outcomes).row.state == c.row.state
    ensures times[|times| - 1] - c.row.updatedAt <= 2 * giveUpAfter
    ensures c.row.state != Funding || c.row.funding.Some? ==> times[|times| - 1] - c.row.updatedAt <= giveUpAfter
  {
    var n := |times| - 1;
    var before := TickedAt(env, c, times[..n], giveUpAfter, outcomes[..n]);
    StuckFromTheStart(env, before, c.row.state, times[n], giveUpAfter, outcomes[n]);
    ClockWhileStuck(env, c, times[..n], giveUpAfter, outcomes[..n]);
  }
}
