/**
 The oracle's log: any number of publishers appending under one advisory lock, with rollback
 (service/internal/postgres/oracle.go), and the pairs that are read out of it
 (service/internal/oracle/oracle.go).
 */
module OracleLog {
  import opened Prelude
  import opened Bytes
  import opened OracleMessages
  import opened Covenant

  datatype Publication =
    Publication(sequence: Int64, timestamp: Int64, price: Int64, message: ByteString, signature: ByteString)

  /** The rows of oracle_publications, by primary key. */
  type Table = map<int, Publication>

  /** Go's conversion from int64 to uint64. */
  function AsUint64(x: Int64): Uint64 {
    x % TWO_TO_THE_64
  }

  /** What a publication signs: its own three fields. */
  function MessageOf(sequence: Int64, timestamp: Int64, price: Int64): ByteString {
    Message(AsUint64(timestamp), AsUint64(sequence), AsUint64(price))
  }

  predicate SignsItself(row: Publication) {
    row.message == MessageOf(row.sequence, row.timestamp, row.price)
  }

  predicate WellFormedRow(key: int, row: Publication) {
    row.sequence == key && row.price > 0 && SignsItself(row)
  }

  /** Exactly the sequences 1..n, every row signing its own fields. */
  ghost predicate Dense(table: Table) {
    && (forall k: int :: k in table <==> 1 <= k <= |table|)
    && (forall k :: k in table ==> table[k].sequence == k && table[k].price > 0)
    && (forall k {:trigger SignsItself(table[k])} :: k in table ==> SignsItself(table[k]))
  }

  /** COALESCE(MAX(sequence), 0). */
  ghost predicate IsMax(table: Table, m: int) {
    if |table| == 0 then m == 0 else m in table && forall k :: k in table ==> k <= m
  }

  // --- The protocol ----------------------------------------------------------

  /** Where one publisher is in its transaction. The clock and the price are read before the lock is asked for. */
  datatype Phase =
    | Idle
    | Stamped(timestamp: Int64, price: Int64)
    | Locked(timestamp: Int64, price: Int64)
    | Allocated(timestamp: Int64, price: Int64, sequence: Int64)
    | Signed(row: Publication)
    | Inserted(row: Publication)

  datatype Oracle = Oracle(table: Table, holder: Option<nat>, phases: map<nat, Phase>)

  datatype Step =
    | Stamp(timestamp: Int64, price: Int64)
    | Lock
    | Allocate(max: int)
    | Sign(signature: ByteString)
    | Insert
    | Commit
    | Abort   // an error, a rollback or a crash, wherever the publisher happens to be

  function PhaseOf(o: Oracle, p: nat): Phase {
    if p in o.phases then o.phases[p] else Idle
  }

  predicate HoldsLock(phase: Phase) {
    !phase.Idle? && !phase.Stamped?
  }

  function Moved(o: Oracle, p: nat, phase: Phase): Oracle {
    o.(phases := o.phases[p := phase])
  }

  /** One step of one publisher, or no step at all where the database would not allow it. */
  ghost predicate Next(o: Oracle, p: nat, step: Step, o': Oracle) {
    var phase := PhaseOf(o, p);
    match step
    case Stamp(timestamp, price) =>
      phase.Idle? && o' == Moved(o, p, Stamped(timestamp, price))
    case Lock =>
      phase.Stamped? && o.holder.None? && o' == Moved(o, p, Locked(phase.timestamp, phase.price)).(holder := Some(p))
    case Allocate(max) =>
      phase.Locked? && IsMax(o.table, max) && IsInt64(max + 1)
      && o' == Moved(o, p, Allocated(phase.timestamp, phase.price, max + 1))
    case Sign(signature) =>
      phase.Allocated?
      && o' == Moved(o, p, Phase.Signed(Publication(phase.sequence, phase.timestamp, phase.price,
                                              MessageOf(phase.sequence, phase.timestamp, phase.price), signature)))
    case Insert =>
      phase.Signed? && phase.row.sequence !in o.table && phase.row.price > 0 && o' == Moved(o, p, Inserted(phase.row))
    case Commit =>
      phase.Inserted?
      && o' == Moved(o, p, Idle).(table := o.table[phase.row.sequence := phase.row], holder := None)
    case Abort =>
      o' == Moved(o, p, Idle).(holder := if o.holder == Some(p) then None else o.holder)
  }

  ghost predicate Consistent(o: Oracle, p: nat) {
    var phase := PhaseOf(o, p);
    && (HoldsLock(phase) <==> o.holder == Some(p))
    && (phase.Allocated? ==> phase.sequence == |o.table| + 1)
    && (phase.Signed? || phase.Inserted? ==>
          phase.row.sequence == |o.table| + 1
          && phase.row.message == MessageOf(phase.row.sequence, phase.row.timestamp, phase.row.price))
    && (phase.Inserted? ==> phase.row.price > 0)
  }

  ghost predicate Inv(o: Oracle) {
    Dense(o.table) && forall p: nat :: Consistent(o, p)
  }

  lemma DenseMax(table: Table, m: int)
    requires Dense(table) && IsMax(table, m)
    ensures m == |table|
  {
    if |table| > 0 {
      assert |table| in table;
    }
  }

  lemma DenseExtends(table: Table, row: Publication)
    requires Dense(table) && row.sequence == |table| + 1 && WellFormedRow(row.sequence, row)
    ensures Dense(table[row.sequence := row])
    ensures |table[row.sequence := row]| == |table| + 1
  {
    assert row.sequence !in table;
  }

  lemma StepKeepsInv(o: Oracle, p: nat, step: Step, o': Oracle)
    requires Inv(o) && Next(o, p, step, o')
    ensures Inv(o')
    ensures forall k :: k in o.table ==> k in o'.table && o'.table[k] == o.table[k]
  {
    assert Consistent(o, p);
    if step.Allocate? {
      DenseMax(o.table, step.max);
    }
    if step.Commit? {
      DenseExtends(o.table, PhaseOf(o, p).row);
    }
    forall q: nat ensures Consistent(o', q) {
      assert Consistent(o, q);
      assert q != p ==> PhaseOf(o', q) == PhaseOf(o, q);
    }
  }

  /** States and the steps between them. */
  ghost predicate IsPath(states: seq<Oracle>, moves: seq<(nat, Step)>) {
    && |states| == |moves| + 1
    && forall i | 0 <= i < |moves| :: Next(states[i], moves[i].0, moves[i].1, states[i + 1])
  }

  /** A run: a path from an empty log. */
  ghost predicate IsRun(states: seq<Oracle>, moves: seq<(nat, Step)>) {
    IsPath(states, moves) && states[0] == Oracle(map[], None, map[])
  }

  lemma {:induction false} RunKeepsInv(states: seq<Oracle>, moves: seq<(nat, Step)>, n: nat)
    requires IsRun(states, moves) && n < |states|
    ensures Inv(states[n])
  {
    if n > 0 {
      RunKeepsInv(states, moves, n - 1);
      StepKeepsInv(states[n - 1], moves[n - 1].0, moves[n - 1].1, states[n]);
    }
  }

  /** Density under concurrency: in every run of any number of publishers, with failures and crashes anywhere,
      the committed sequences are 1..n with no hole, every row signs its own fields, and at most one publisher
      is between taking the lock and committing. */
  lemma LogIsDense(states: seq<Oracle>, moves: seq<(nat, Step)>, n: nat)
    requires IsRun(states, moves) && n < |states|
    ensures Dense(states[n].table)
    ensures forall p: nat, q: nat :: HoldsLock(PhaseOf(states[n], p)) && HoldsLock(PhaseOf(states[n], q)) ==> p == q
  {
    RunKeepsInv(states, moves, n);
    forall p: nat, q: nat | HoldsLock(PhaseOf(states[n], p)) && HoldsLock(PhaseOf(states[n], q)) ensures p == q {
      assert Consistent(states[n], p) && Consistent(states[n], q);
    }
  }

  /** What is published stays published: history is only ever appended to. */
  lemma {:induction false} LogIsAppendOnly(states: seq<Oracle>, moves: seq<(nat, Step)>, m: nat, n: nat)
    requires IsRun(states, moves) && m <= n < |states|
    ensures forall k :: k in states[m].table ==> k in states[n].table && states[n].table[k] == states[m].table[k]
  {
    if m < n {
      LogIsAppendOnly(states, moves, m, n - 1);
      RunKeepsInv(states, moves, n - 1);
      StepKeepsInv(states[n - 1], moves[n - 1].0, moves[n - 1].1, states[n]);
    }
  }

  /** The publisher's last reading of clock and feed before a point of a run. */
  ghost predicate LastStamp(moves: seq<(nat, Step)>, n: nat, p: nat, timestamp: Int64, price: Int64)
    requires n <= |moves|
  {
    exists i | 0 <= i < n ::
      && moves[i] == (p, Stamp(timestamp, price))
      && forall j | i < j < n :: moves[j].0 == p ==> !moves[j].1.Stamp?
  }

  function TimeIn(phase: Phase): Int64
    requires !phase.Idle?
  {
    if phase.Signed? || phase.Inserted? then phase.row.timestamp else phase.timestamp
  }

  function PriceIn(phase: Phase): Int64
    requires !phase.Idle?
  {
    if phase.Signed? || phase.Inserted? then phase.row.price else phase.price
  }

  /** What a publisher carries along is what it read last. */
  lemma {:induction false} CarriesItsStamp(states: seq<Oracle>, moves: seq<(nat, Step)>, n: nat, p: nat)
    requires IsRun(states, moves) && n < |states| && !PhaseOf(states[n], p).Idle?
    ensures LastStamp(moves, n, p, TimeIn(PhaseOf(states[n], p)), PriceIn(PhaseOf(states[n], p)))
  {
    var (q, step) := moves[n - 1];
    assert Next(states[n - 1], q, step, states[n]);
    var phase := PhaseOf(states[n], p);
    if q == p && step.Stamp? {
      assert moves[n - 1] == (p, Stamp(TimeIn(phase), PriceIn(phase)));
    } else {
      CarriesItsStamp(states, moves, n - 1, p);
      var i :| 0 <= i < n - 1 && moves[i] == (p, Stamp(TimeIn(phase), PriceIn(phase)))
               && forall j | i < j < n - 1 :: moves[j].0 == p ==> !moves[j].1.Stamp?;
    }
  }

  /** The commit a row was published by, of a publisher that had last read the row's time and price. */
  ghost predicate PublishedAt(states: seq<Oracle>, moves: seq<(nat, Step)>, j: nat, row: Publication)
    requires |states| == |moves| + 1 && j < |moves|
  {
    && moves[j].1 == Commit && LastStamp(moves, j, moves[j].0, row.timestamp, row.price)
    && row.sequence !in states[j].table && row.sequence in states[j + 1].table
  }

  /** No row is made up: in every run, each one carries the time and the price its publisher read, last before it
      published it. */
  lemma {:induction false} RowsAreAsStamped(states: seq<Oracle>, moves: seq<(nat, Step)>, n: nat, k: int)
    requires IsRun(states, moves) && n < |states| && k in states[n].table
    ensures exists j | 0 <= j < n :: PublishedAt(states, moves, j, states[n].table[k])
  {
    var (p, step) := moves[n - 1];
    assert Next(states[n - 1], p, step, states[n]);
    RunKeepsInv(states, moves, n - 1);
    RunKeepsInv(states, moves, n);
    StepKeepsInv(states[n - 1], p, step, states[n]);
    if k in states[n - 1].table {
      RowsAreAsStamped(states, moves, n - 1, k);
      var j :| 0 <= j < n - 1 && PublishedAt(states, moves, j, states[n - 1].table[k]);
      assert PublishedAt(states, moves, j, states[n].table[k]);
    } else {
      CarriesItsStamp(states, moves, n - 1, p);
      assert PublishedAt(states, moves, n - 1, states[n].table[k]);
    }
  }

  /** A row that is about to be written never collides: the primary key is not what keeps sequences unique. */
  lemma InsertNeverCollides(states: seq<Oracle>, moves: seq<(nat, Step)>, n: nat, p: nat)
    requires IsRun(states, moves) && n < |states| && PhaseOf(states[n], p).Signed?
    ensures PhaseOf(states[n], p).row.sequence !in states[n].table
  {
    RunKeepsInv(states, moves, n);
    assert Consistent(states[n], p);
  }

  // --- Reading ---------------------------------------------------------------

  datatype LogError = NoPublication

  function At(table: Table, sequence: int): Result<Publication, LogError> {
    if sequence in table then Ok(table[sequence]) else Err(NoPublication)
  }

  /** The publication at a sequence and the one before it. */
  function PairAt(table: Table, sequence: int): Result<(Publication, Publication), LogError> {
    if sequence < 2 then Err(NoPublication)
    else
      match At(table, sequence)
      case Err(e) => Err(e)
      case Ok(settlement) =>
        match At(table, sequence - 1)
        case Err(e) => Err(e)
        case Ok(previous) => Ok((settlement, previous))
  }

  /** On a dense log a pair exists for every sequence from 2 to n and for no other, and it is adjacent. */
  lemma PairsAreAdjacent(table: Table, k: int)
    requires Dense(table)
    ensures PairAt(table, k).Ok? <==> 2 <= k <= |table|
    ensures PairAt(table, k).Ok? ==>
              var (settlement, previous) := PairAt(table, k).value;
              settlement == table[k] && previous == table[k - 1] && settlement.sequence == previous.sequence + 1 == k
  {
  }

  // --- The store -------------------------------------------------------------

  lemma Inhabited(s: set<int>)
    requires |s| > 0
    ensures exists k :: k in s
  {
    assert (forall k :: k !in s) ==> s == {};
  }

  /** Where an append can fail. A failed commit may or may not have taken. */
  datatype Fault = Nowhere | AtBegin | AtLock | AtRead | AtSign | AtInsert | AtCommit(applied: bool)

  function NextRow(table: Table, timestamp: Int64, price: Int64, sign: ByteString -> ByteString): Publication
    requires IsInt64(|table| + 1)
  {
    var message := MessageOf(|table| + 1, timestamp, price);
    Publication(|table| + 1, timestamp, price, message, sign(message))
  }

  /** What an append comes to: the next row, signed over itself, or nothing; and whether the caller hears of it. */
  function Appended(table: Table, timestamp: Int64, price: Int64, sign: ByteString -> ByteString, fault: Fault)
    : (Table, Option<Publication>)
  {
    if !IsInt64(|table| + 1) || price <= 0 || !(fault.Nowhere? || fault.AtCommit?) then (table, None)
    else
      var row := NextRow(table, timestamp, price, sign);
      if fault == AtCommit(false) then (table, None)
      else (table[|table| + 1 := row], if fault.Nowhere? then Some(row) else None)
  }

  /** What 64 bits hold of a signed number, read as an unsigned one. */
  function TwosComplement(x: Int64): int {
    if x >= 0 then x else x + 0x1_0000_0000_0000_0000
  }

  /** What an append should do: one more row, numbered next, of these two numbers, whose message reads back as the
      three of them and is what was signed. */
  ghost predicate Publishes(before: Table, after: Table, timestamp: Int64, price: Int64,
                            sign: ByteString -> ByteString)
  {
    var n := |before| + 1;
    && after.Keys == before.Keys + {n} && (forall k :: k in before ==> k in after && after[k] == before[k])
    && n in after && after[n].sequence == n && after[n].timestamp == timestamp && after[n].price == price
    && after[n].signature == sign(after[n].message) && |after[n].message| == MESSAGE_LENGTH
    && GoField(after[n].message, SEQUENCE_OFFSET) == n && GoField(after[n].message, PRICE_OFFSET) == price
    && GoField(after[n].message, TIMESTAMP_OFFSET) == TwosComplement(timestamp)
  }

  lemma MessageOfReadsBack(sequence: Int64, timestamp: Int64, price: Int64)
    requires sequence >= 0 && price >= 0
    ensures var message := MessageOf(sequence, timestamp, price);
            && |message| == MESSAGE_LENGTH
            && GoField(message, SEQUENCE_OFFSET) == sequence && GoField(message, PRICE_OFFSET) == price
            && GoField(message, TIMESTAMP_OFFSET) == TwosComplement(timestamp)
  {
    MessageLayout(AsUint64(timestamp), AsUint64(sequence), AsUint64(price));
  }

  /** And when: all of it or nothing, and the caller hears of it exactly when nothing failed. */
  lemma AppendsExactly(table: Table, timestamp: Int64, price: Int64, sign: ByteString -> ByteString, fault: Fault)
    requires Dense(table)
    ensures var (after, published) := Appended(table, timestamp, price, sign, fault);
            var able := IsInt64(|table| + 1) && price > 0;
            && (if able && (fault.Nowhere? || fault == AtCommit(true))
                then Publishes(table, after, timestamp, price, sign) else after == table)
            && published == (if able && fault.Nowhere? then Some(after[|table| + 1]) else None)
  {
    if IsInt64(|table| + 1) && price > 0 && (fault.Nowhere? || fault == AtCommit(true)) {
      MessageOfReadsBack(|table| + 1, timestamp, price);
      assert |table| + 1 !in table;
    }
  }

  /** One publisher's moves, on one reading of clock and feed. */
  predicate OneReading(moves: seq<(nat, Step)>, p: nat, stamp: Step) {
    forall move | move in moves :: move.0 == p && (move.1.Stamp? ==> move.1 == stamp)
  }

  /** A path by one publisher that has read one time and one price. */
  ghost predicate Follows(o: Oracle, o': Oracle, p: nat, stamp: Step) {
    exists states: seq<Oracle>, moves: seq<(nat, Step)> ::
      IsPath(states, moves) && states[0] == o && states[|states| - 1] == o' && OneReading(moves, p, stamp)
  }

  lemma FollowsItself(o: Oracle, p: nat, stamp: Step)
    ensures Follows(o, o, p, stamp)
  {
    var states: seq<Oracle>, moves: seq<(nat, Step)> := [o], [];
    assert IsPath(states, moves);
  }

  lemma FollowsNext(o: Oracle, now: Oracle, p: nat, stamp: Step, step: Step, o': Oracle)
    requires Follows(o, now, p, stamp) && Next(now, p, step, o') && (step.Stamp? ==> step == stamp)
    ensures Follows(o, o', p, stamp)
  {
    var states: seq<Oracle>, moves: seq<(nat, Step)> :|
      IsPath(states, moves) && states[0] == o && states[|states| - 1] == now && OneReading(moves, p, stamp);
    var longer, more := states + [o'], moves + [(p, step)];
    forall i | 0 <= i < |more| ensures Next(longer[i], more[i].0, more[i].1, longer[i + 1]) {
      if i < |moves| {
        assert Next(states[i], moves[i].0, moves[i].1, states[i + 1]);
      }
    }
    assert IsPath(longer, more);
  }

  /** One step of a publisher that is where it has to be for it. */
  lemma Steps(o: Oracle, now: Oracle, p: nat, stamp: Step, step: Step, o': Oracle)
    requires Follows(o, now, p, stamp) && Next(now, p, step, o') && Inv(now) && (step.Stamp? ==> step == stamp)
    ensures Follows(o, o', p, stamp) && Inv(o')
  {
    FollowsNext(o, now, p, stamp, step, o');
    StepKeepsInv(now, p, step, o');
  }

  /** A publisher that finds the lock free gets as far as the row, unpublished. */
  lemma SigningIsAPath(o: Oracle, p: nat, timestamp: Int64, price: Int64, sign: ByteString -> ByteString)
    returns (o': Oracle)
    requires Inv(o) && PhaseOf(o, p).Idle? && o.holder.None? && IsInt64(|o.table| + 1)
    ensures Follows(o, o', p, Stamp(timestamp, price)) && Inv(o') && o'.table == o.table && o'.holder == Some(p)
    ensures PhaseOf(o', p) == Phase.Signed(NextRow(o.table, timestamp, price, sign))
  {
    FollowsItself(o, p, Stamp(timestamp, price));
    var stamped := Moved(o, p, Stamped(timestamp, price));
    Steps(o, o, p, Stamp(timestamp, price), Stamp(timestamp, price), stamped);
    var locked := Moved(stamped, p, Locked(timestamp, price)).(holder := Some(p));
    Steps(o, stamped, p, Stamp(timestamp, price), Lock, locked);
    DenseHasMax(o.table);
    var numbered := Moved(locked, p, Allocated(timestamp, price, |o.table| + 1));
    Steps(o, locked, p, Stamp(timestamp, price), Allocate(|o.table|), numbered);
    var message := MessageOf(|o.table| + 1, timestamp, price);
    o' := Moved(numbered, p, Phase.Signed(Publication(|o.table| + 1, timestamp, price, message, sign(message))));
    Steps(o, numbered, p, Stamp(timestamp, price), Sign(sign(message)), o');
  }

  lemma DenseHasMax(table: Table)
    requires Dense(table)
    ensures IsMax(table, |table|)
  {
  }

  lemma InsertIsFree(o: Oracle, p: nat)
    requires Inv(o) && PhaseOf(o, p).Signed?
    ensures PhaseOf(o, p).row.sequence !in o.table
  {
    assert Consistent(o, p);
  }

  lemma InsertingIsAPath(o: Oracle, signed: Oracle, p: nat, stamp: Step) returns (o': Oracle)
    requires Follows(o, signed, p, stamp) && Inv(signed)
    requires PhaseOf(signed, p).Signed? && PhaseOf(signed, p).row.price > 0
    ensures Follows(o, o', p, stamp) && Inv(o') && o' == Moved(signed, p, Inserted(PhaseOf(signed, p).row))
  {
    InsertIsFree(signed, p);
    o' := Moved(signed, p, Inserted(PhaseOf(signed, p).row));
    Steps(o, signed, p, stamp, Insert, o');
  }

  /** The transaction ends, with or without its row. */
  lemma EndingIsAPath(o: Oracle, inserted: Oracle, p: nat, stamp: Step, applied: bool) returns (o': Oracle)
    requires Follows(o, inserted, p, stamp) && Inv(inserted) && PhaseOf(inserted, p).Inserted?
    requires inserted.holder == Some(p)
    ensures Follows(o, o', p, stamp) && Inv(o') && o'.holder.None? && PhaseOf(o', p).Idle?
    ensures var row := PhaseOf(inserted, p).row;
            o'.table == if applied then inserted.table[row.sequence := row] else inserted.table
  {
    if applied {
      var row := PhaseOf(inserted, p).row;
      o' := Moved(inserted, p, Idle).(table := inserted.table[row.sequence := row], holder := None);
      Steps(o, inserted, p, stamp, Commit, o');
    } else {
      o' := Moved(inserted, p, Idle).(holder := None);
      Steps(o, inserted, p, stamp, Abort, o');
    }
  }

  /** An append is a run of the protocol by one publisher, whose one reading is what it is given, whatever fails in it
      and whether or not the commit that failed had taken. */
  lemma AppendIsARun(o: Oracle, p: nat, timestamp: Int64, price: Int64, sign: ByteString -> ByteString, fault: Fault)
    returns (o': Oracle)
    requires Inv(o) && PhaseOf(o, p).Idle? && o.holder.None?
    ensures Follows(o, o', p, Stamp(timestamp, price)) && Inv(o')
    ensures o'.table == Appended(o.table, timestamp, price, sign, fault).0
    ensures o'.holder.None? && PhaseOf(o', p).Idle?
  {
    var stamp := Stamp(timestamp, price);
    if !IsInt64(|o.table| + 1) || price <= 0 || !(fault.Nowhere? || fault.AtCommit?) {
      FollowsItself(o, p, stamp);
      o' := o;
    } else {
      var signed := SigningIsAPath(o, p, timestamp, price, sign);
      var inserted := InsertingIsAPath(o, signed, p, stamp);
      o' := EndingIsAPath(o, inserted, p, stamp, fault != AtCommit(false));
    }
  }

  class OracleStore {
    var rows: Table

    ghost predicate Valid()
      reads this
    {
      Dense(rows)
    }

    constructor ()
      ensures Valid() && rows == map[]
    {
      rows := map[];
    }

    /** SELECT COALESCE(MAX(sequence), 0). */
    method LastSequence() returns (max: int)
      ensures IsMax(rows, max)
    {
      var left := rows.Keys;
      if |left| == 0 {
        return 0;
      }
      Inhabited(left);
      max :| max in left;
      left := left - {max};
      while |left| > 0
        invariant left <= rows.Keys && max in rows
        invariant forall k :: k in rows && k !in left ==> k <= max
      {
        Inhabited(left);
        var k :| k in left;
        max := Max(max, k);
        left := left - {k};
      }
    }

    /** One append with nobody else at the lock: it writes the next sequence, or nothing at all. */
    method Append(timestamp: Int64, price: Int64, sign: ByteString -> ByteString, fault: Fault)
      returns (published: Option<Publication>)
      requires Valid()
      modifies this
      ensures Valid()
      ensures (rows, published) == Appended(old(rows), timestamp, price, sign, fault)
      ensures fault.Nowhere? && price > 0 && IsInt64(|old(rows)| + 1) ==>
                && Publishes(old(rows), rows, timestamp, price, sign)
                && published == Some(rows[|old(rows)| + 1])
    {
      AppendsExactly(rows, timestamp, price, sign, fault);
      if fault.AtBegin? || fault.AtLock? || fault.AtRead? {
        return None;
      }
      var last := LastSequence();
      DenseMax(rows, last);
      if !IsInt64(last + 1) || fault.AtSign? {
        return None;
      }
      var message := MessageOf(last + 1, timestamp, price);
      var row := Publication(last + 1, timestamp, price, message, sign(message));
      if price <= 0 || fault.AtInsert? {
        return None;
      }
      DenseExtends(rows, row);
      if fault.AtCommit? && !fault.applied {
        return None;
      }
      rows := rows[last + 1 := row];
      return if fault.Nowhere? then Some(row) else None;
    }

    /** LatestPair: the last publication and the one before it. */
    method LatestPair() returns (pair: Result<(Publication, Publication), LogError>)
      requires Valid()
      ensures pair == PairAt(rows, |rows|)
    {
      var last := LastSequence();
      DenseMax(rows, last);
      pair := PairAt(rows, last);
    }
  }
}
