/**
 The contract store (service/internal/postgres/contracts.go) and the table of what may follow what
 (service/internal/domain/state.go). Every write carries every column of the caller's copy, however old, and is
 guarded by nothing but a compare-and-swap on the state.
 */
module ContractStore {
  import opened Prelude
  import opened Bytes
  import opened Terms
  import opened Arbitrations

  datatype State =
    | Proposed | Accepted | Funding | Active
    | Settling | Settled
    | RedemptionProposed | Redeeming | Redeemed
    | Exiting | Exited | Arbitrating | Arbitrated
    | Cancelled | Failed

  function Transitions(s: State): set<State> {
    match s
    case Proposed => {Accepted, Cancelled}
    case Accepted => {Funding, Cancelled}
    case Funding => {Active, Failed}
    case Active => {Settling, RedemptionProposed, Exiting}
    case Settling => {Settled, Active}
    case RedemptionProposed => {Redeeming, Active}
    case Redeeming => {Redeemed, Active}
    case Exiting => {Exited, Active}
    case Exited => {Arbitrating}
    case Arbitrating => {Arbitrated, Exited}
    case Settled | Redeemed | Arbitrated | Cancelled | Failed => {}
  }

  predicate CanGoTo(s: State, next: State) {
    next in Transitions(s)
  }

  /** Where each state can be come to from: the table read the other way round. */
  lemma ComesFrom(s: State, next: State)
    ensures CanGoTo(s, next) <==>
            || (next.Accepted? && s.Proposed?) || (next.Cancelled? && (s.Proposed? || s.Accepted?))
            || (next.Funding? && s.Accepted?) || (next.Failed? && s.Funding?)
            || (next.Active? && s in {Funding, Settling, RedemptionProposed, Redeeming, Exiting})
            || ((next.Settling? || next.RedemptionProposed? || next.Exiting?) && s.Active?)
            || (next.Settled? && s.Settling?) || (next.Redeeming? && s.RedemptionProposed?)
            || (next.Redeemed? && s.Redeeming?) || (next.Exited? && (s.Exiting? || s.Arbitrating?))
            || (next.Arbitrating? && s.Exited?) || (next.Arbitrated? && s.Arbitrating?)
  {
  }

  predicate Terminal(s: State) {
    Transitions(s) == {}
  }

  datatype Side = Short | Long

  type User = nat
  type Id = nat

  /** The columns nothing should change once both sides have agreed. */
  datatype Core = Core(
    creator: Side, shortUser: Option<User>, longUser: Option<User>, terms: Terms,
    shortKey: ByteString, longKey: ByteString, arkdSigner: ByteString, emulatorSigner: ByteString,
    exitDelay: nat, exitDelayInBlocks: bool, mutualRedemption: bool, pkScript: ByteString,
    shortStake: Int64, longStake: Int64)

  /** A stored contract, and what any reader of it holds: the same columns, as old as the read. */
  datatype Row = Row(state: State, core: Core, funding: Option<Outpoint>, updatedAt: int)

  /** One line of contract_events. A creation has no state it comes from. */
  datatype Event = Event(contract: Id, from: Option<State>, to: State)

  datatype Store = Store(rows: map<Id, Row>, events: seq<Event>)

  datatype StoreError = IllegalTransition | Conflict | Duplicate | Storage

  /** Where a statement or a transaction can fail. A failed commit may or may not have taken. */
  datatype Fault = Nowhere | AtBegin | AtWrite | AtEvent | AtCommit(applied: bool)

  predicate Takes(fault: Fault) {
    fault.Nowhere? || (fault.AtCommit? && fault.applied)
  }

  /** The compare-and-swap: all of the copy, or nothing when the row has left the state the copy was read in. */
  function Cas(row: Row, copy: Row, to: State, now: int): Row {
    if row.state == copy.state then copy.(state := to, updatedAt := now) else row
  }

  predicate Matches(s: Store, id: Id, from: State) {
    id in s.rows && s.rows[id].state == from
  }

  function Moved(s: Store, id: Id, copy: Row, to: State, now: int): Store
    requires Matches(s, id, copy.state)
  {
    Store(s.rows[id := Cas(s.rows[id], copy, to, now)], s.events + [Event(id, Some(copy.state), to)])
  }

  /** What Advance comes to, for any copy, any row and any fault. */
  function Advanced(s: Store, id: Id, copy: Row, to: State, now: int, fault: Fault): (Store, Option<StoreError>) {
    if !CanGoTo(copy.state, to) then (s, Some(IllegalTransition))
    else if fault.AtBegin? || fault.AtWrite? then (s, Some(Storage))
    else if !Matches(s, id, copy.state) then (s, Some(Conflict))
    else
      match fault
      case AtEvent => (s, Some(Storage))
      case AtCommit(applied) => (if applied then Moved(s, id, copy, to, now) else s, Some(Storage))
      case _ => (Moved(s, id, copy, to, now), None)
  }

  /** Advance is one step or none, and the caller is never told of one that was not taken. It succeeds exactly when the
      table allows the move, nothing failed, and the row was still in the copy's state; then the row has every column
      of the copy, in the new state, and its event. A caller who is told that it failed is told the truth but for a
      commit that took. */
  lemma AdvancesExactly(s: Store, id: Id, copy: Row, to: State, now: int, fault: Fault)
    ensures var (after, err) := Advanced(s, id, copy, to, now, fault);
            var met := CanGoTo(copy.state, to) && id in s.rows && s.rows[id].state == copy.state;
            && (err.None? <==> met && fault.Nowhere?)
            && (after != s <==> met && (fault.Nowhere? || fault == AtCommit(true)))
            && (err == Some(IllegalTransition) <==> !CanGoTo(copy.state, to))
            && (err == Some(Conflict) ==> CanGoTo(copy.state, to) && !(id in s.rows && s.rows[id].state == copy.state))
            && (fault.Nowhere? ==> err != Some(Storage)) && err != Some(Duplicate)
            && (after != s ==>
                  && after.rows.Keys == s.rows.Keys && after.rows[id] == copy.(state := to, updatedAt := now)
                  && (forall k :: k in s.rows && k != id ==> after.rows[k] == s.rows[k])
                  && after.events == s.events + [Event(id, Some(copy.state), to)])
  {
    assert |s.events + [Event(id, Some(copy.state), to)]| == |s.events| + 1;
  }

  /** Save is Advance without the move and the event. */
  lemma SavesExactly(s: Store, id: Id, copy: Row, now: int, fault: Fault)
    ensures var (after, err) := Saved(s, id, copy, now, fault);
            var met := id in s.rows && s.rows[id].state == copy.state;
            && (err.None? <==> met && fault.Nowhere?) && (err == Some(Conflict) <==> !met && fault.Nowhere?)
            && after.events == s.events && after.rows.Keys == s.rows.Keys
            && (forall k :: k in s.rows && k != id ==> after.rows[k] == s.rows[k])
            && (id in s.rows ==>
                  after.rows[id] == if met && (fault.Nowhere? || fault == AtCommit(true))
                                    then copy.(updatedAt := now) else s.rows[id])
  {
  }

  /** What Save comes to. */
  function Saved(s: Store, id: Id, copy: Row, now: int, fault: Fault): (Store, Option<StoreError>) {
    if !Takes(fault) then (s, Some(Storage))
    else if !Matches(s, id, copy.state) then (s, Some(if fault.Nowhere? then Conflict else Storage))
    else
      (s.(rows := s.rows[id := Cas(s.rows[id], copy, copy.state, now)]), if fault.Nowhere? then None else Some(Storage))
  }

  /** A contract in memory: read once, then mutated by whoever holds it. */
  class Contract {
    const id: Id
    var state: State
    var core: Core
    var funding: Option<Outpoint>
    var updatedAt: int

    constructor (id: Id, row: Row)
      ensures this.id == id && Copy() == row
    {
      this.id := id;
      state, core, funding, updatedAt := row.state, row.core, row.funding, row.updatedAt;
    }

    function Copy(): Row
      reads this
    {
      Row(state, core, funding, updatedAt)
    }
  }

  class ContractRepo {
    var rows: map<Id, Row>
    var events: seq<Event>

    constructor ()
      ensures Contents() == Store(map[], [])
    {
      rows, events := map[], [];
    }

    function Contents(): Store
      reads this
    {
      Store(rows, events)
    }

    /** The row first, then its event, in two statements: the second can be lost. */
    method Create(c: Contract, now: int, fault: Fault) returns (err: Option<StoreError>)
      modifies this
      ensures err.None? <==> old(c.id !in rows) && !fault.AtWrite? && !fault.AtEvent?
      ensures rows == if old(c.id in rows) || fault.AtWrite? then old(rows)
                      else old(rows)[c.id := c.Copy().(updatedAt := now)]
      ensures events == if err.None? then old(events) + [Event(c.id, None, c.state)] else old(events)
    {
      if fault.AtWrite? {
        return Some(Storage);
      }
      if c.id in rows {
        return Some(Duplicate);
      }
      rows := rows[c.id := c.Copy().(updatedAt := now)];
      if fault.AtEvent? {
        return Some(Storage);
      }
      events := events + [Event(c.id, None, c.state)];
      return None;
    }

    method Get(id: Id) returns (found: Option<Contract>)
      ensures found.Some? <==> id in rows
      ensures found.Some? ==> found.value.id == id && found.value.Copy() == rows[id] && fresh(found.value)
    {
      if id !in rows {
        return None;
      }
      var c := new Contract(id, rows[id]);
      return Some(c);
    }

    /** UPDATE … WHERE id = $1 AND state = $28, on the rows a statement or a transaction sees. */
    method Write(on: map<Id, Row>, c: Contract, from: State, now: int)
      returns (after: map<Id, Row>, err: Option<StoreError>)
      ensures err == if c.id in on && on[c.id].state == from then None else Some(Conflict)
      ensures after == if err.None? then on[c.id := c.Copy().(updatedAt := now)] else on
    {
      if c.id !in on || on[c.id].state != from {
        return on, Some(Conflict);
      }
      return on[c.id := c.Copy().(updatedAt := now)], None;
    }

    /** One transition and its event, in one transaction: the object moves to the new state and moves back
        whenever the caller is told it did not work. */
    method Advance(c: Contract, to: State, now: int, fault: Fault) returns (err: Option<StoreError>)
      modifies this, c`state
      ensures (Contents(), err) == Advanced(old(Contents()), c.id, old(c.Copy()), to, now, fault)
      ensures c.Copy() == old(c.Copy()).(state := if err.None? then to else old(c.state))
    {
      var from := c.state;
      if !CanGoTo(from, to) {
        return Some(IllegalTransition);
      }
      if fault.AtBegin? {
        return Some(Storage);
      }
      c.state := to;
      if fault.AtWrite? {
        c.state := from;
        return Some(Storage);
      }
      var view, failed := Write(rows, c, from, now);
      if failed.Some? {
        c.state := from;
        return failed;
      }
      if fault.AtEvent? {
        c.state := from;
        return Some(Storage);
      }
      var log := events + [Event(c.id, Some(from), to)];
      if fault.AtCommit? {
        if fault.applied {
          rows, events := view, log;
        }
        c.state := from;
        return Some(Storage);
      }
      rows, events := view, log;
      return None;
    }

    /** The whole copy again, without moving it: one statement, which commits itself. */
    method Save(c: Contract, now: int, fault: Fault) returns (err: Option<StoreError>)
      modifies this
      ensures (Contents(), err) == Saved(old(Contents()), c.id, c.Copy(), now, fault)
    {
      if !Takes(fault) {
        return Some(Storage);
      }
      rows, err := Write(rows, c, c.state, now);
      if !fault.Nowhere? {
        return Some(Storage);
      }
    }
  }

  // --- The audit trail -------------------------------------------------------

  /** Every call there is, by anyone, with any copy at all. */
  datatype Call =
    | CreateRow(id: Id, row: Row)
    | CreateEvent(id: Id, state: State)
    | AdvanceCall(id: Id, copy: Row, to: State, now: int, fault: Fault)
    | SaveCall(id: Id, copy: Row, now: int, fault: Fault)

  function Apply(s: Store, call: Call): Store {
    match call
    case CreateRow(id, row) => if id in s.rows then s else s.(rows := s.rows[id := row])
    case CreateEvent(id, state) => s.(events := s.events + [Event(id, None, state)])
    case AdvanceCall(id, copy, to, now, fault) => Advanced(s, id, copy, to, now, fault).0
    case SaveCall(id, copy, now, fault) => Saved(s, id, copy, now, fault).0
  }

  function ApplyAll(s: Store, calls: seq<Call>): Store {
    if |calls| == 0 then s else Apply(ApplyAll(s, calls[..|calls| - 1]), calls[|calls| - 1])
  }

  /** A contract's moves, oldest first: its events without the creation, which is written separately and may
      land late or never. */
  function Moves(events: seq<Event>, id: Id): seq<Event> {
    if |events| == 0 then []
    else
      var last := events[|events| - 1];
      var earlier := Moves(events[..|events| - 1], id);
      if last.contract == id && last.from.Some? then earlier + [last] else earlier
  }

  lemma MovesAppend(events: seq<Event>, e: Event, id: Id)
    ensures Moves(events + [e], id)
            == if e.contract == id && e.from.Some? then Moves(events, id) + [e] else Moves(events, id)
  {
  }

  /** The moves start from a proposal, follow one another, are each allowed, and end where the row is. */
  predicate Trail(moves: seq<Event>, end: State) {
    if |moves| == 0 then end == Proposed
    else
      var last := moves[|moves| - 1];
      last.to == end && last.from.Some? && CanGoTo(last.from.value, end) && Trail(moves[..|moves| - 1], last.from.value)
  }

  /** What one call does to one store: the other contracts keep their rows, and the log grows by the called
      contract's own event, if it grows at all. */
  lemma CallShape(s: Store, call: Call)
    ensures forall id: Id :: id != call.id ==> (id in Apply(s, call).rows <==> id in s.rows)
    ensures forall id: Id :: id != call.id && id in s.rows ==> Apply(s, call).rows[id] == s.rows[id]
    ensures forall id: Id :: id in s.rows ==> id in Apply(s, call).rows
    ensures Apply(s, call).events == s.events
            || exists e: Event :: Apply(s, call).events == s.events + [e] && e.contract == call.id
  {
  }

  lemma CallOfOthers(s: Store, call: Call, id: Id)
    requires id != call.id
    ensures Moves(Apply(s, call).events, id) == Moves(s.events, id)
  {
  }

  /** The property Audited states, for one contract. */
  predicate AuditedFor(s: Store, id: Id) {
    if id in s.rows then Trail(Moves(s.events, id), s.rows[id].state) else Moves(s.events, id) == []
  }

  ghost predicate Audited(s: Store) {
    forall id: Id :: AuditedFor(s, id)
  }

  lemma CallKeepsAuditFor(s: Store, call: Call)
    requires AuditedFor(s, call.id) && (call.CreateRow? ==> call.row.state == Proposed)
    ensures AuditedFor(Apply(s, call), call.id)
  {
  }

  lemma CallKeepsAudit(s: Store, call: Call)
    requires Audited(s) && (call.CreateRow? ==> call.row.state == Proposed)
    ensures Audited(Apply(s, call))
  {
    forall id: Id ensures AuditedFor(Apply(s, call), id) {
      assert AuditedFor(s, id);
      if id == call.id {
        CallKeepsAuditFor(s, call);
      } else {
        CallShape(s, call);
        CallOfOthers(s, call, id);
      }
    }
  }

  /** The audit trail agrees with the row. After any calls by anyone, with copies as old as they like and
      failures anywhere, every contract's moves chain from its proposal through allowed transitions to the
      state it is in. */
  lemma {:induction false} AuditTrailAgrees(calls: seq<Call>)
    requires forall call :: call in calls && call.CreateRow? ==> call.row.state == Proposed
    ensures Audited(ApplyAll(Store(map[], []), calls))
  {
    if |calls| > 0 {
      AuditTrailAgrees(calls[..|calls| - 1]);
      CallKeepsAudit(ApplyAll(Store(map[], []), calls[..|calls| - 1]), calls[|calls| - 1]);
    }
  }

  lemma EndedContractStays(s: Store, call: Call, id: Id)
    requires id in s.rows && Terminal(s.rows[id].state)
    requires call.SaveCall? ==> call.copy.state == Funding
    ensures id in Apply(s, call).rows && Apply(s, call).rows[id] == s.rows[id]
    ensures Moves(Apply(s, call).events, id) == Moves(s.events, id)
  {
    CallShape(s, call);
    if id != call.id {
      CallOfOthers(s, call, id);
    } else if call.CreateEvent? {
      MovesAppend(s.events, Event(id, None, call.state), id);
    }
  }

  /** A contract that has ended never moves again, whatever stale copy is presented, and its row is never
      written again either: the one call that writes without moving only ever presents a funding copy. */
  lemma {:induction false} EndedContractsStay(s: Store, calls: seq<Call>, id: Id)
    requires id in s.rows && Terminal(s.rows[id].state)
    requires forall call :: call in calls && call.SaveCall? ==> call.copy.state == Funding
    ensures id in ApplyAll(s, calls).rows && ApplyAll(s, calls).rows[id] == s.rows[id]
    ensures Moves(ApplyAll(s, calls).events, id) == Moves(s.events, id)
  {
    if |calls| > 0 {
      EndedContractsStay(s, calls[..|calls| - 1], id);
      EndedContractStays(ApplyAll(s, calls[..|calls| - 1]), calls[|calls| - 1], id);
    }
  }
}
